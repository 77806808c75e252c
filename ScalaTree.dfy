/** The build script of data.js:43-593 as a concrete scenario: thirty-eight
    `defineTopic` calls, the direct level write of data.js:409 and the six
    `reorderLevel` calls of data.js:588-593, run in source order on one
    `TopicGraph.Registry`. The script's own data (which topic requires which,
    the categories, the followers of each reorder call) is a `Script` value
    indexed by definition order. The topic names, descriptions and source
    lists are parameters: the outcome depends on their text only through the
    names normalising to pairwise distinct ids. */
module ScalaTree {
  import opened Wrappers
  import opened Topics
  import opened Reorder
  import opened Scenario
  import TopicId
  import TopicGraph

  /** Positions of the topics in definition order, one per script variable. */
  const Functions: nat := 0
  const Currying: nat := 1
  const StandardLibrary: nat := 2
  const Types: nat := 3
  const FunctionTypes: nat := 4
  const ParametricTypes: nat := 5
  const Implicits: nat := 6
  const TypeClasses: nat := 7
  const Lifting: nat := 8
  const Algebra: nat := 9
  const Semigroup: nat := 10
  const Monoid: nat := 11
  const Functor: nat := 12
  const Contravariant: nat := 13
  const Applicative: nat := 14
  const Monad: nat := 15
  const FreeAlgebra: nat := 16
  const FreeMonoid: nat := 17
  const FreeMonad: nat := 18
  const Tuple: nat := 19
  const Either: nat := 20
  const OptionTopic: nat := 21
  const TryScala: nat := 22
  const Collections: nat := 23
  const Builder: nat := 24
  const Iterable: nat := 25
  const Seq: nat := 26
  const Set: nat := 27
  const Map: nat := 28
  const Vector: nat := 29
  const List: nat := 30
  const Flatmap: nat := 31
  const ForSimplified: nat := 32
  const CollectionBuilders: nat := 33
  const Variance: nat := 34
  const ForComprehension: nat := 35
  const Actor: nat := 36
  const AkkaActor: nat := 37
  const Count := 38

  /** The `category_` and `requires_` arguments of the definition at
      position `k` (data.js:43-572); `None` where the argument reads as
      undefined. */
  function DefinitionAt(k: nat): Definition {
    if k == Functions then Definition(Some(Fp), [])
    else if k == Currying then Definition(Some(Fp), [Functions])
    else if k == StandardLibrary then Definition(Some(Language), [])
    else if k == Types then Definition(Some(Language), [])
    else if k == FunctionTypes then Definition(Some(Language), [StandardLibrary, Functions, Currying, Types])
    else if k == ParametricTypes then Definition(Some(Language), [Types])
    else if k == Implicits then Definition(Some(Language), [Types])
    else if k == TypeClasses then Definition(Some(Fp), [ParametricTypes, Implicits])
    else if k == Lifting then Definition(Some(Fp), [Functions])
    else if k == Algebra then Definition(Some(Fp), [])
    else if k == Semigroup then Definition(Some(Fp), [Algebra])
    else if k == Monoid then Definition(Some(Fp), [Semigroup])
    else if k == Functor then Definition(Some(Fp), [Lifting, ParametricTypes])
    else if k == Contravariant then Definition(Some(Fp), [Functor])
    else if k == Applicative then Definition(Some(Fp), [Functor])
    else if k == Monad then Definition(Some(Fp), [Applicative])
    else if k == FreeAlgebra then Definition(Some(Fp), [Lifting, Algebra])
    else if k == FreeMonoid then Definition(Some(Fp), [Monoid, FreeAlgebra])
    else if k == FreeMonad then Definition(Some(Fp), [Monad, FreeAlgebra])
    else if k == Tuple then Definition(Some(Language), [StandardLibrary])
    else if k == Either then Definition(Some(Language), [StandardLibrary])
    else if k == OptionTopic then Definition(Some(Language), [Either])
    else if k == TryScala then Definition(Some(Language), [Either])
    else if k == Collections then Definition(Some(Language), [StandardLibrary, ParametricTypes])
    else if k == Builder then Definition(Some(Patterns), [])
    else if k == Iterable then Definition(Some(Language), [Collections])
    else if k == Seq then Definition(Some(Language), [Iterable])
    else if k == Set then Definition(Some(Language), [Iterable])
    else if k == Map then Definition(Some(Language), [Iterable])
    else if k == Vector then Definition(Some(Language), [Seq])
    else if k == List then Definition(Some(Language), [Seq])
    else if k == Flatmap then Definition(Some(Language), [Iterable])
    else if k == ForSimplified then Definition(Some(Language), [Collections])
    else if k == CollectionBuilders then Definition(None, [Builder, Vector, List, Set, Map])
    else if k == Variance then Definition(Some(Language), [ParametricTypes, Functor, Contravariant])
    else if k == ForComprehension then Definition(Some(Language), [ForSimplified, Monad, Flatmap])
    else if k == Actor then Definition(Some(Patterns), [])
    else Definition(Some(Akka), [Actor])
  }

  /** The script of data.js:43-593: the definitions in order, the level
      written at data.js:409, and the calls of data.js:588-593. */
  const ScalaTreeScript: Script := Script(
    seq(Count, k requires 0 <= k => DefinitionAt(k)),
    Builder, 4,
    [
      ReorderCall(StandardLibrary, [Types, Functions, Algebra]),
      ReorderCall(Tuple, [Either, ParametricTypes, Currying, Implicits, Lifting, Semigroup]),
      ReorderCall(Collections, [FunctionTypes, TypeClasses, Functor, FreeAlgebra, Monoid]),
      ReorderCall(ForSimplified, [Applicative, Contravariant, FreeMonoid]),
      ReorderCall(Seq, [Set, Map, Flatmap, Monad, Variance]),
      ReorderCall(ForComprehension, [FreeMonad])
    ])

  /** The level claimed for the topic at position `k` once the script has run. */
  function ClaimedLevel(k: nat): int {
    if k == Functions then 1
    else if k == Currying then 2
    else if k == StandardLibrary then 1
    else if k == Types then 1
    else if k == FunctionTypes then 3
    else if k == ParametricTypes then 2
    else if k == Implicits then 2
    else if k == TypeClasses then 3
    else if k == Lifting then 2
    else if k == Algebra then 1
    else if k == Semigroup then 2
    else if k == Monoid then 3
    else if k == Functor then 3
    else if k == Contravariant then 4
    else if k == Applicative then 4
    else if k == Monad then 5
    else if k == FreeAlgebra then 3
    else if k == FreeMonoid then 4
    else if k == FreeMonad then 6
    else if k == Tuple then 2
    else if k == Either then 2
    else if k == OptionTopic then 3
    else if k == TryScala then 3
    else if k == Collections then 3
    else if k == Builder then 4
    else if k == Iterable then 4
    else if k == Seq then 5
    else if k == Set then 5
    else if k == Map then 5
    else if k == Vector then 6
    else if k == List then 6
    else if k == Flatmap then 5
    else if k == ForSimplified then 4
    else if k == CollectionBuilders then 7
    else if k == Variance then 5
    else if k == ForComprehension then 6
    else if k == Actor then 1
    else 2
  }

  /** Where the topic at position `k` sits among the followers of a reorder call. */
  function ClaimedFollower(k: nat): Option<Position> {
    if k == Functions then Some(Position(0, 1))
    else if k == Currying then Some(Position(1, 2))
    else if k == Types then Some(Position(0, 0))
    else if k == FunctionTypes then Some(Position(2, 0))
    else if k == ParametricTypes then Some(Position(1, 1))
    else if k == Implicits then Some(Position(1, 3))
    else if k == TypeClasses then Some(Position(2, 1))
    else if k == Lifting then Some(Position(1, 4))
    else if k == Algebra then Some(Position(0, 2))
    else if k == Semigroup then Some(Position(1, 5))
    else if k == Monoid then Some(Position(2, 4))
    else if k == Functor then Some(Position(2, 2))
    else if k == Contravariant then Some(Position(3, 1))
    else if k == Applicative then Some(Position(3, 0))
    else if k == Monad then Some(Position(4, 3))
    else if k == FreeAlgebra then Some(Position(2, 3))
    else if k == FreeMonoid then Some(Position(3, 2))
    else if k == FreeMonad then Some(Position(5, 0))
    else if k == Either then Some(Position(1, 0))
    else if k == Set then Some(Position(4, 0))
    else if k == Map then Some(Position(4, 1))
    else if k == Flatmap then Some(Position(4, 2))
    else if k == Variance then Some(Position(4, 4))
    else None
  }

  /** The levels the script ends with, and where each follower sits. */
  const ScalaTreeOutcome: Outcome :=
    Outcome(seq(Count, k requires 0 <= k => ClaimedLevel(k)), seq(Count, k requires 0 <= k => ClaimedFollower(k)))

  /** The definitions of data.js:43-94 fit the claimed levels, and those of
      their topics that follow a reorder head are recorded there. */
  lemma FunctionsFit(k: nat)
    requires 0 <= k < 5
    ensures DefinitionFits(ScalaTreeScript, ScalaTreeOutcome, k) && FollowerFits(ScalaTreeScript, ScalaTreeOutcome, k)
  {
    var defs, levels := ScalaTreeScript.definitions, ScalaTreeOutcome.levels;
    if k == Functions {
    } else if k == Currying { assert levels[defs[k].prereqs[0]] + 1 == levels[k];
    } else if k == StandardLibrary {
    } else if k == Types {
    } else if k == FunctionTypes { assert levels[defs[k].prereqs[2]] + 1 == levels[k];
    }
  }

  /** The definitions of data.js:95-160 fit the claimed levels, and those of
      their topics that follow a reorder head are recorded there. */
  lemma TypesFit(k: nat)
    requires 5 <= k < 9
    ensures DefinitionFits(ScalaTreeScript, ScalaTreeOutcome, k) && FollowerFits(ScalaTreeScript, ScalaTreeOutcome, k)
  {
    var defs, levels := ScalaTreeScript.definitions, ScalaTreeOutcome.levels;
    if k == ParametricTypes { assert levels[defs[k].prereqs[0]] + 1 == levels[k];
    } else if k == Implicits { assert levels[defs[k].prereqs[0]] + 1 == levels[k];
    } else if k == TypeClasses { assert levels[defs[k].prereqs[0]] + 1 == levels[k];
    } else if k == Lifting { assert levels[defs[k].prereqs[0]] + 1 == levels[k];
    }
  }

  /** The definitions of data.js:162-253 fit the claimed levels, and those of
      their topics that follow a reorder head are recorded there. */
  lemma AlgebraFits(k: nat)
    requires 9 <= k < 14
    ensures DefinitionFits(ScalaTreeScript, ScalaTreeOutcome, k) && FollowerFits(ScalaTreeScript, ScalaTreeOutcome, k)
  {
    var defs, levels := ScalaTreeScript.definitions, ScalaTreeOutcome.levels;
    if k == Algebra {
    } else if k == Semigroup { assert levels[defs[k].prereqs[0]] + 1 == levels[k];
    } else if k == Monoid { assert levels[defs[k].prereqs[0]] + 1 == levels[k];
    } else if k == Functor { assert levels[defs[k].prereqs[0]] + 1 == levels[k];
    } else if k == Contravariant { assert levels[defs[k].prereqs[0]] + 1 == levels[k];
    }
  }

  /** The definitions of data.js:254-348 fit the claimed levels, and those of
      their topics that follow a reorder head are recorded there. */
  lemma MonadsFit(k: nat)
    requires 14 <= k < 19
    ensures DefinitionFits(ScalaTreeScript, ScalaTreeOutcome, k) && FollowerFits(ScalaTreeScript, ScalaTreeOutcome, k)
  {
    var defs, levels := ScalaTreeScript.definitions, ScalaTreeOutcome.levels;
    if k == Applicative { assert levels[defs[k].prereqs[0]] + 1 == levels[k];
    } else if k == Monad { assert levels[defs[k].prereqs[0]] + 1 == levels[k];
    } else if k == FreeAlgebra { assert levels[defs[k].prereqs[0]] + 1 == levels[k];
    } else if k == FreeMonoid { assert levels[defs[k].prereqs[0]] + 1 == levels[k];
    } else if k == FreeMonad { assert levels[defs[k].prereqs[0]] + 1 == levels[k];
    }
  }

  /** The definitions of data.js:350-409 fit the claimed levels, and those of
      their topics that follow a reorder head are recorded there. */
  lemma StandardLibraryFits(k: nat)
    requires 19 <= k < 25
    ensures DefinitionFits(ScalaTreeScript, ScalaTreeOutcome, k) && FollowerFits(ScalaTreeScript, ScalaTreeOutcome, k)
  {
    var defs, levels := ScalaTreeScript.definitions, ScalaTreeOutcome.levels;
    if k == Tuple { assert levels[defs[k].prereqs[0]] + 1 == levels[k];
    } else if k == Either { assert levels[defs[k].prereqs[0]] + 1 == levels[k];
    } else if k == OptionTopic { assert levels[defs[k].prereqs[0]] + 1 == levels[k];
    } else if k == TryScala { assert levels[defs[k].prereqs[0]] + 1 == levels[k];
    } else if k == Collections { assert levels[defs[k].prereqs[1]] + 1 == levels[k];
    } else if k == Builder {
    }
  }

  /** The definitions of data.js:411-460 fit the claimed levels, and those of
      their topics that follow a reorder head are recorded there. */
  lemma CollectionsFit(k: nat)
    requires 25 <= k < 30
    ensures DefinitionFits(ScalaTreeScript, ScalaTreeOutcome, k) && FollowerFits(ScalaTreeScript, ScalaTreeOutcome, k)
  {
    var defs, levels := ScalaTreeScript.definitions, ScalaTreeOutcome.levels;
    if k == Iterable { assert levels[defs[k].prereqs[0]] + 1 == levels[k];
    } else if k == Seq { assert levels[defs[k].prereqs[0]] + 1 == levels[k];
    } else if k == Set { assert levels[defs[k].prereqs[0]] + 1 == levels[k];
    } else if k == Map { assert levels[defs[k].prereqs[0]] + 1 == levels[k];
    } else if k == Vector { assert levels[defs[k].prereqs[0]] + 1 == levels[k];
    }
  }

  /** The definitions of data.js:461-503 fit the claimed levels, and those of
      their topics that follow a reorder head are recorded there. */
  lemma CollectionBuildersFit(k: nat)
    requires 30 <= k < 34
    ensures DefinitionFits(ScalaTreeScript, ScalaTreeOutcome, k) && FollowerFits(ScalaTreeScript, ScalaTreeOutcome, k)
  {
    var defs, levels := ScalaTreeScript.definitions, ScalaTreeOutcome.levels;
    if k == List { assert levels[defs[k].prereqs[0]] + 1 == levels[k];
    } else if k == Flatmap { assert levels[defs[k].prereqs[0]] + 1 == levels[k];
    } else if k == ForSimplified { assert levels[defs[k].prereqs[0]] + 1 == levels[k];
    } else if k == CollectionBuilders { assert levels[defs[k].prereqs[1]] + 1 == levels[k];
    }
  }

  /** The definitions of data.js:505-572 fit the claimed levels, and those of
      their topics that follow a reorder head are recorded there. */
  lemma VarianceToActorsFit(k: nat)
    requires 34 <= k < 38
    ensures DefinitionFits(ScalaTreeScript, ScalaTreeOutcome, k) && FollowerFits(ScalaTreeScript, ScalaTreeOutcome, k)
  {
    var defs, levels := ScalaTreeScript.definitions, ScalaTreeOutcome.levels;
    if k == Variance { assert levels[defs[k].prereqs[2]] + 1 == levels[k];
    } else if k == ForComprehension { assert levels[defs[k].prereqs[1]] + 1 == levels[k];
    } else if k == Actor {
    } else if k == AkkaActor { assert levels[defs[k].prereqs[0]] + 1 == levels[k];
    }
  }

  /** The calls of data.js:588-589 pair topics of equal claimed level, at the
      places the outcome records. */
  lemma EarlyReordersFit(j: nat)
    requires 0 <= j < 2
    ensures ReorderFits(ScalaTreeScript, ScalaTreeOutcome, j)
  {
    if j == 0 { } else { }
  }

  /** The calls of data.js:590-591 pair topics of equal claimed level, at the
      places the outcome records. */
  lemma MiddleReordersFit(j: nat)
    requires 2 <= j < 4
    ensures ReorderFits(ScalaTreeScript, ScalaTreeOutcome, j)
  {
    if j == 2 { } else { }
  }

  /** The calls of data.js:592-593 pair topics of equal claimed level, at the
      places the outcome records. */
  lemma LateReordersFit(j: nat)
    requires 4 <= j < 6
    ensures ReorderFits(ScalaTreeScript, ScalaTreeOutcome, j)
  {
    if j == 4 { } else { }
  }

  /** The claimed outcome agrees with the script of data.js:43-593. */
  lemma ScalaTreeFits()
    ensures Fits(ScalaTreeScript, ScalaTreeOutcome)
  {
    var s, o := ScalaTreeScript, ScalaTreeOutcome;
    forall k | 0 <= k < |s.definitions|
      ensures DefinitionFits(s, o, k) && FollowerFits(s, o, k)
    {
      if k < 5 { FunctionsFit(k); }
      else if k < 9 { TypesFit(k); }
      else if k < 14 { AlgebraFits(k); }
      else if k < 19 { MonadsFit(k); }
      else if k < 25 { StandardLibraryFits(k); }
      else if k < 30 { CollectionsFit(k); }
      else if k < 34 { CollectionBuildersFit(k); }
      else { VarianceToActorsFit(k); }
    }
    forall j | 0 <= j < |s.reorders|
      ensures ReorderFits(s, o, j)
    {
      if j < 2 { EarlyReordersFit(j); }
      else if j < 4 { MiddleReordersFit(j); }
      else { LateReordersFit(j); }
    }
    FitsIntro(s, o);
  }

  /** No two names normalise to the same id. */
  ghost predicate DistinctIds(names: seq<string>) {
    forall a, b :: 0 <= a < b < |names| ==> TopicId.Slug(names[a]) != TopicId.Slug(names[b])
  }

  /** The ids of all the names, in order. */
  function Ids(names: seq<string>): (ids: seq<string>)
    ensures IdsOf(names, ids)
  {
    seq(|names|, i requires 0 <= i < |names| => TopicId.Slug(names[i]))
  }

  /** The levels the data file's layout relies on, as claimed by the
      outcome: `Fits` and `Build` show they are the ones the script computes. */
  lemma ClaimedLevels()
    ensures var l := ScalaTreeOutcome.levels;
            l[Functions] == 1 && l[Currying] == 2 && l[FunctionTypes] == 3 && l[Monad] == 5 &&
            l[FreeMonad] == 6 && l[Collections] == 3 && l[Builder] == 4 && l[Iterable] == 4 &&
            l[Seq] == 5 && l[Variance] == 5 && l[ForComprehension] == 6 && l[CollectionBuilders] == 7
  {
  }

  /** The build of data.js:43-593: every topic is registered under the id
      of its name, with its own name, description and sources, on the level
      the outcome claims, and with the sort hint its reorder call gives it;
      no reorder call reports a mismatch and every edge points down. */
  method Build(names: seq<string>, descriptions: seq<string>, sources: seq<seq<Source>>)
    returns (r: TopicGraph.Registry, log: seq<Mismatch>)
    requires |names| == |descriptions| == |sources| == Count && DistinctIds(names)
    ensures log == []
    ensures r.Valid() && Monotone(r.topics) && |r.topics| == Count
    ensures forall k :: 0 <= k < Count ==>
              var id := TopicId.Slug(names[k]);
              id in r.topics && r.topics[id].id == id && r.topics[id].name == names[k] &&
              r.topics[id].description == descriptions[k] && r.topics[id].sources == sources[k] &&
              r.topics[id].level == ScalaTreeOutcome.levels[k] && r.topics[id].hsort == HintAfter(ScalaTreeOutcome, k, 6)
  {
    ScalaTreeFits();
    var s, o := ScalaTreeScript, ScalaTreeOutcome;
    ghost var ids := Ids(names);
    r, log := RunScript(s, o, names, descriptions, sources, ids);
    KeySetSize(ids, |ids|);
  }
}
