/** The topic names of the build script of data.js:43-593 and their ids.
    Every name normalises to a different id, so the build registers all
    thirty-eight topics and none overwrites another. */
module ScalaTreeNames {
  import opened Reorder
  import opened Topics
  import TopicId
  import TopicGraph
  import ScalaTree

  /** The `name` argument of the definition at position `k` (data.js:44-565). */
  function NameAt(k: nat): string {
    if k == 0 then "Function"
    else if k == 1 then "Currying"
    else if k == 2 then "Standard Library"
    else if k == 3 then "Types"
    else if k == 4 then "Function Types"
    else if k == 5 then "Parametric Types"
    else if k == 6 then "Implicits"
    else if k == 7 then "Type Classes"
    else if k == 8 then "Lifting"
    else if k == 9 then "Algebra"
    else if k == 10 then "Semigroup"
    else if k == 11 then "Monoid"
    else if k == 12 then "Functor"
    else if k == 13 then "Contravariant Functor"
    else if k == 14 then "Applicative Functor"
    else if k == 15 then "Monad"
    else if k == 16 then "Free Algebra"
    else if k == 17 then "Free Monoid"
    else if k == 18 then "Free Monad"
    else if k == 19 then "Tuple"
    else if k == 20 then "Either"
    else if k == 21 then "Option"
    else if k == 22 then "Try"
    else if k == 23 then "Collections"
    else if k == 24 then "Builder"
    else if k == 25 then "Iterable"
    else if k == 26 then "Seq"
    else if k == 27 then "Set"
    else if k == 28 then "Map"
    else if k == 29 then "Vector"
    else if k == 30 then "List"
    else if k == 31 then "flatMap"
    else if k == 32 then "Simple for \"loop\""
    else if k == 33 then "Collection builders"
    else if k == 34 then "Variance"
    else if k == 35 then "For-comprehension"
    else if k == 36 then "Actor"
    else if k == 37 then "Akka Actor"
    else ""
  }

  /** The id each name normalises to. */
  function IdAt(k: nat): string {
    if k == 0 then "function"
    else if k == 1 then "currying"
    else if k == 2 then "standard-library"
    else if k == 3 then "types"
    else if k == 4 then "function-types"
    else if k == 5 then "parametric-types"
    else if k == 6 then "implicits"
    else if k == 7 then "type-classes"
    else if k == 8 then "lifting"
    else if k == 9 then "algebra"
    else if k == 10 then "semigroup"
    else if k == 11 then "monoid"
    else if k == 12 then "functor"
    else if k == 13 then "contravariant-functor"
    else if k == 14 then "applicative-functor"
    else if k == 15 then "monad"
    else if k == 16 then "free-algebra"
    else if k == 17 then "free-monoid"
    else if k == 18 then "free-monad"
    else if k == 19 then "tuple"
    else if k == 20 then "either"
    else if k == 21 then "option"
    else if k == 22 then "try"
    else if k == 23 then "collections"
    else if k == 24 then "builder"
    else if k == 25 then "iterable"
    else if k == 26 then "seq"
    else if k == 27 then "set"
    else if k == 28 then "map"
    else if k == 29 then "vector"
    else if k == 30 then "list"
    else if k == 31 then "flatmap"
    else if k == 32 then "simple-for-loop-"
    else if k == 33 then "collection-builders"
    else if k == 34 then "variance"
    else if k == 35 then "for-comprehension"
    else if k == 36 then "actor"
    else if k == 37 then "akka-actor"
    else ""
  }

  /** The name of data.js:44. */
  lemma IdOfFunctions(name: string)
    requires name == "Function"
    ensures TopicId.Slug(name) == "function"
  {
    assert TopicId.Lower(name) == "function";
    TopicId.SlugOfWord(name, "function");
  }

  /** The name of data.js:52. */
  lemma IdOfCurrying(name: string)
    requires name == "Currying"
    ensures TopicId.Slug(name) == "currying"
  {
    assert TopicId.Lower(name) == "currying";
    TopicId.SlugOfWord(name, "currying");
  }

  /** The name of data.js:62. */
  lemma IdOfStandardLibrary(name: string)
    requires name == "Standard Library"
    ensures TopicId.Slug(name) == "standard-library"
  {
    assert TopicId.Lower(name) == "standard" + " " + "library";
    TopicId.SlugOfTwoWords(name, "standard", " ", "library");
  }

  /** The name of data.js:74. */
  lemma IdOfTypes(name: string)
    requires name == "Types"
    ensures TopicId.Slug(name) == "types"
  {
    assert TopicId.Lower(name) == "types";
    TopicId.SlugOfWord(name, "types");
  }

  /** The name of data.js:82. */
  lemma IdOfFunctionTypes(name: string)
    requires name == "Function Types"
    ensures TopicId.Slug(name) == "function-types"
  {
    assert TopicId.Lower(name) == "function" + " " + "types";
    TopicId.SlugOfTwoWords(name, "function", " ", "types");
  }

  /** The name of data.js:96. */
  lemma IdOfParametricTypes(name: string)
    requires name == "Parametric Types"
    ensures TopicId.Slug(name) == "parametric-types"
  {
    assert TopicId.Lower(name) == "parametric" + " " + "types";
    TopicId.SlugOfTwoWords(name, "parametric", " ", "types");
  }

  /** The name of data.js:110. */
  lemma IdOfImplicits(name: string)
    requires name == "Implicits"
    ensures TopicId.Slug(name) == "implicits"
  {
    assert TopicId.Lower(name) == "implicits";
    TopicId.SlugOfWord(name, "implicits");
  }

  /** The name of data.js:126. */
  lemma IdOfTypeClasses(name: string)
    requires name == "Type Classes"
    ensures TopicId.Slug(name) == "type-classes"
  {
    assert TopicId.Lower(name) == "type" + " " + "classes";
    TopicId.SlugOfTwoWords(name, "type", " ", "classes");
  }

  /** The name of data.js:148. */
  lemma IdOfLifting(name: string)
    requires name == "Lifting"
    ensures TopicId.Slug(name) == "lifting"
  {
    assert TopicId.Lower(name) == "lifting";
    TopicId.SlugOfWord(name, "lifting");
  }

  /** The name of data.js:163. */
  lemma IdOfAlgebra(name: string)
    requires name == "Algebra"
    ensures TopicId.Slug(name) == "algebra"
  {
    assert TopicId.Lower(name) == "algebra";
    TopicId.SlugOfWord(name, "algebra");
  }

  /** The name of data.js:178. */
  lemma IdOfSemigroup(name: string)
    requires name == "Semigroup"
    ensures TopicId.Slug(name) == "semigroup"
  {
    assert TopicId.Lower(name) == "semigroup";
    TopicId.SlugOfWord(name, "semigroup");
  }

  /** The name of data.js:192. */
  lemma IdOfMonoid(name: string)
    requires name == "Monoid"
    ensures TopicId.Slug(name) == "monoid"
  {
    assert TopicId.Lower(name) == "monoid";
    TopicId.SlugOfWord(name, "monoid");
  }

  /** The name of data.js:206. */
  lemma IdOfFunctor(name: string)
    requires name == "Functor"
    ensures TopicId.Slug(name) == "functor"
  {
    assert TopicId.Lower(name) == "functor";
    TopicId.SlugOfWord(name, "functor");
  }

  /** The name of data.js:234. */
  lemma IdOfContravariant(name: string)
    requires name == "Contravariant Functor"
    ensures TopicId.Slug(name) == "contravariant-functor"
  {
    assert TopicId.Lower(name) == "contravariant" + " " + "functor";
    TopicId.SlugOfTwoWords(name, "contravariant", " ", "functor");
  }

  /** The name of data.js:255. */
  lemma IdOfApplicative(name: string)
    requires name == "Applicative Functor"
    ensures TopicId.Slug(name) == "applicative-functor"
  {
    assert TopicId.Lower(name) == "applicative" + " " + "functor";
    TopicId.SlugOfTwoWords(name, "applicative", " ", "functor");
  }

  /** The name of data.js:271. */
  lemma IdOfMonad(name: string)
    requires name == "Monad"
    ensures TopicId.Slug(name) == "monad"
  {
    assert TopicId.Lower(name) == "monad";
    TopicId.SlugOfWord(name, "monad");
  }

  /** The name of data.js:297. */
  lemma IdOfFreeAlgebra(name: string)
    requires name == "Free Algebra"
    ensures TopicId.Slug(name) == "free-algebra"
  {
    assert TopicId.Lower(name) == "free" + " " + "algebra";
    TopicId.SlugOfTwoWords(name, "free", " ", "algebra");
  }

  /** The name of data.js:314. */
  lemma IdOfFreeMonoid(name: string)
    requires name == "Free Monoid"
    ensures TopicId.Slug(name) == "free-monoid"
  {
    assert TopicId.Lower(name) == "free" + " " + "monoid";
    TopicId.SlugOfTwoWords(name, "free", " ", "monoid");
  }

  /** The name of data.js:333. */
  lemma IdOfFreeMonad(name: string)
    requires name == "Free Monad"
    ensures TopicId.Slug(name) == "free-monad"
  {
    assert TopicId.Lower(name) == "free" + " " + "monad";
    TopicId.SlugOfTwoWords(name, "free", " ", "monad");
  }

  /** The name of data.js:351. */
  lemma IdOfTuple(name: string)
    requires name == "Tuple"
    ensures TopicId.Slug(name) == "tuple"
  {
    assert TopicId.Lower(name) == "tuple";
    TopicId.SlugOfWord(name, "tuple");
  }

  /** The name of data.js:361. */
  lemma IdOfEither(name: string)
    requires name == "Either"
    ensures TopicId.Slug(name) == "either"
  {
    assert TopicId.Lower(name) == "either";
    TopicId.SlugOfWord(name, "either");
  }

  /** The name of data.js:371. */
  lemma IdOfOption(name: string)
    requires name == "Option"
    ensures TopicId.Slug(name) == "option"
  {
    assert TopicId.Lower(name) == "option";
    TopicId.SlugOfWord(name, "option");
  }

  /** The name of data.js:381. */
  lemma IdOfTryScala(name: string)
    requires name == "Try"
    ensures TopicId.Slug(name) == "try"
  {
    assert TopicId.Lower(name) == "try";
    TopicId.SlugOfWord(name, "try");
  }

  /** The name of data.js:391. */
  lemma IdOfCollections(name: string)
    requires name == "Collections"
    ensures TopicId.Slug(name) == "collections"
  {
    assert TopicId.Lower(name) == "collections";
    TopicId.SlugOfWord(name, "collections");
  }

  /** The name of data.js:403. */
  lemma IdOfBuilder(name: string)
    requires name == "Builder"
    ensures TopicId.Slug(name) == "builder"
  {
    assert TopicId.Lower(name) == "builder";
    TopicId.SlugOfWord(name, "builder");
  }

  /** The name of data.js:412. */
  lemma IdOfIterable(name: string)
    requires name == "Iterable"
    ensures TopicId.Slug(name) == "iterable"
  {
    assert TopicId.Lower(name) == "iterable";
    TopicId.SlugOfWord(name, "iterable");
  }

  /** The name of data.js:422. */
  lemma IdOfSeq(name: string)
    requires name == "Seq"
    ensures TopicId.Slug(name) == "seq"
  {
    assert TopicId.Lower(name) == "seq";
    TopicId.SlugOfWord(name, "seq");
  }

  /** The name of data.js:432. */
  lemma IdOfSet(name: string)
    requires name == "Set"
    ensures TopicId.Slug(name) == "set"
  {
    assert TopicId.Lower(name) == "set";
    TopicId.SlugOfWord(name, "set");
  }

  /** The name of data.js:442. */
  lemma IdOfMap(name: string)
    requires name == "Map"
    ensures TopicId.Slug(name) == "map"
  {
    assert TopicId.Lower(name) == "map";
    TopicId.SlugOfWord(name, "map");
  }

  /** The name of data.js:452. */
  lemma IdOfVector(name: string)
    requires name == "Vector"
    ensures TopicId.Slug(name) == "vector"
  {
    assert TopicId.Lower(name) == "vector";
    TopicId.SlugOfWord(name, "vector");
  }

  /** The name of data.js:462. */
  lemma IdOfList(name: string)
    requires name == "List"
    ensures TopicId.Slug(name) == "list"
  {
    assert TopicId.Lower(name) == "list";
    TopicId.SlugOfWord(name, "list");
  }

  /** The name of data.js:492. */
  lemma IdOfCollectionBuilders(name: string)
    requires name == "Collection builders"
    ensures TopicId.Slug(name) == "collection-builders"
  {
    assert TopicId.Lower(name) == "collection" + " " + "builders";
    TopicId.SlugOfTwoWords(name, "collection", " ", "builders");
  }

  /** The name of data.js:506. */
  lemma IdOfVariance(name: string)
    requires name == "Variance"
    ensures TopicId.Slug(name) == "variance"
  {
    assert TopicId.Lower(name) == "variance";
    TopicId.SlugOfWord(name, "variance");
  }

  /** The name of data.js:532. */
  lemma IdOfForComprehension(name: string)
    requires name == "For-comprehension"
    ensures TopicId.Slug(name) == "for-comprehension"
  {
    assert TopicId.Lower(name) == "for" + "-" + "comprehension";
    TopicId.SlugOfTwoWords(name, "for", "-", "comprehension");
  }

  /** The name of data.js:557. */
  lemma IdOfActor(name: string)
    requires name == "Actor"
    ensures TopicId.Slug(name) == "actor"
  {
    assert TopicId.Lower(name) == "actor";
    TopicId.SlugOfWord(name, "actor");
  }

  /** The name of data.js:565. */
  lemma IdOfAkkaActor(name: string)
    requires name == "Akka Actor"
    ensures TopicId.Slug(name) == "akka-actor"
  {
    assert TopicId.Lower(name) == "akka" + " " + "actor";
    TopicId.SlugOfTwoWords(name, "akka", " ", "actor");
  }

  /** The names of data.js:43-94 normalise to their listed ids. */
  lemma FunctionNames(k: nat)
    requires 0 <= k < 5
    ensures TopicId.Slug(NameAt(k)) == IdAt(k)
  {
    if k == 0 { IdOfFunctions(NameAt(k));
    } else if k == 1 { IdOfCurrying(NameAt(k));
    } else if k == 2 { IdOfStandardLibrary(NameAt(k));
    } else if k == 3 { IdOfTypes(NameAt(k));
    } else if k == 4 { IdOfFunctionTypes(NameAt(k));
    }
  }

  /** The names of data.js:95-160 normalise to their listed ids. */
  lemma TypeNames(k: nat)
    requires 5 <= k < 9
    ensures TopicId.Slug(NameAt(k)) == IdAt(k)
  {
    if k == 5 { IdOfParametricTypes(NameAt(k));
    } else if k == 6 { IdOfImplicits(NameAt(k));
    } else if k == 7 { IdOfTypeClasses(NameAt(k));
    } else if k == 8 { IdOfLifting(NameAt(k));
    }
  }

  /** The names of data.js:162-253 normalise to their listed ids. */
  lemma AlgebraNames(k: nat)
    requires 9 <= k < 14
    ensures TopicId.Slug(NameAt(k)) == IdAt(k)
  {
    if k == 9 { IdOfAlgebra(NameAt(k));
    } else if k == 10 { IdOfSemigroup(NameAt(k));
    } else if k == 11 { IdOfMonoid(NameAt(k));
    } else if k == 12 { IdOfFunctor(NameAt(k));
    } else if k == 13 { IdOfContravariant(NameAt(k));
    }
  }

  /** The names of data.js:254-348 normalise to their listed ids. */
  lemma MonadNames(k: nat)
    requires 14 <= k < 19
    ensures TopicId.Slug(NameAt(k)) == IdAt(k)
  {
    if k == 14 { IdOfApplicative(NameAt(k));
    } else if k == 15 { IdOfMonad(NameAt(k));
    } else if k == 16 { IdOfFreeAlgebra(NameAt(k));
    } else if k == 17 { IdOfFreeMonoid(NameAt(k));
    } else if k == 18 { IdOfFreeMonad(NameAt(k));
    }
  }

  /** The names of data.js:350-409 normalise to their listed ids. */
  lemma StandardLibraryNames(k: nat)
    requires 19 <= k < 25
    ensures TopicId.Slug(NameAt(k)) == IdAt(k)
  {
    if k == 19 { IdOfTuple(NameAt(k));
    } else if k == 20 { IdOfEither(NameAt(k));
    } else if k == 21 { IdOfOption(NameAt(k));
    } else if k == 22 { IdOfTryScala(NameAt(k));
    } else if k == 23 { IdOfCollections(NameAt(k));
    } else if k == 24 { IdOfBuilder(NameAt(k));
    }
  }

  /** The names of data.js:411-460 normalise to their listed ids. */
  lemma CollectionNames(k: nat)
    requires 25 <= k < 30
    ensures TopicId.Slug(NameAt(k)) == IdAt(k)
  {
    if k == 25 { IdOfIterable(NameAt(k));
    } else if k == 26 { IdOfSeq(NameAt(k));
    } else if k == 27 { IdOfSet(NameAt(k));
    } else if k == 28 { IdOfMap(NameAt(k));
    } else if k == 29 { IdOfVector(NameAt(k));
    }
  }

  /** The names of data.js:461-503 normalise to their listed ids. */
  lemma CollectionBuilderNames(k: nat)
    requires 30 <= k < 34
    ensures TopicId.Slug(NameAt(k)) == IdAt(k)
  {
    if k == 30 { IdOfList(NameAt(k));
    } else if k == 31 { TopicId.SlugOfFlatMap(NameAt(k));
    } else if k == 32 { TopicId.SlugOfSimpleFor(NameAt(k));
    } else if k == 33 { IdOfCollectionBuilders(NameAt(k));
    }
  }

  /** The names of data.js:505-572 normalise to their listed ids. */
  lemma VarianceToActorNames(k: nat)
    requires 34 <= k < 38
    ensures TopicId.Slug(NameAt(k)) == IdAt(k)
  {
    if k == 34 { IdOfVariance(NameAt(k));
    } else if k == 35 { IdOfForComprehension(NameAt(k));
    } else if k == 36 { IdOfActor(NameAt(k));
    } else if k == 37 { IdOfAkkaActor(NameAt(k));
    }
  }

  /** The names in definition order. */
  const Names: seq<string> := seq(ScalaTree.Count, k requires 0 <= k => NameAt(k))

  /** Each name normalises to its listed id. */
  lemma NameIds(k: nat)
    requires k < ScalaTree.Count
    ensures TopicId.Slug(Names[k]) == IdAt(k)
  {
    if k < 5 { FunctionNames(k); }
    else if k < 9 { TypeNames(k); }
    else if k < 14 { AlgebraNames(k); }
    else if k < 19 { MonadNames(k); }
    else if k < 25 { StandardLibraryNames(k); }
    else if k < 30 { CollectionNames(k); }
    else if k < 34 { CollectionBuilderNames(k); }
    else { VarianceToActorNames(k); }
  }

  /** No two listed ids are equal. */
  lemma IdsDiffer()
    ensures forall a, b :: 0 <= a < b < ScalaTree.Count ==> IdAt(a) != IdAt(b)
  {
  }

  /** No two names of the script normalise to the same id: no definition
      overwrites an earlier one. */
  lemma NamesDistinct()
    ensures ScalaTree.DistinctIds(Names)
  {
    IdsDiffer();
    forall a, b | 0 <= a < b < |Names|
      ensures TopicId.Slug(Names[a]) != TopicId.Slug(Names[b])
    {
      NameIds(a);
      NameIds(b);
    }
  }

  /** Every topic registered under its listed id on its claimed level puts
      the headline topics on these levels. */
  lemma HeadlineLevels(t: Table)
    requires forall k :: 0 <= k < ScalaTree.Count ==>
               IdAt(k) in t && t[IdAt(k)].level == ScalaTree.ScalaTreeOutcome.levels[k]
    ensures "function" in t && t["function"].level == 1 &&
            "currying" in t && t["currying"].level == 2 &&
            "function-types" in t && t["function-types"].level == 3 &&
            "monad" in t && t["monad"].level == 5 &&
            "free-monad" in t && t["free-monad"].level == 6 &&
            "collections" in t && t["collections"].level == 3 &&
            "builder" in t && t["builder"].level == 4 &&
            "iterable" in t && t["iterable"].level == 4 &&
            "seq" in t && t["seq"].level == 5 &&
            "variance" in t && t["variance"].level == 5 &&
            "for-comprehension" in t && t["for-comprehension"].level == 6 &&
            "collection-builders" in t && t["collection-builders"].level == 7
  {
    ScalaTree.ClaimedLevels();
    assert IdAt(ScalaTree.Functions) in t && IdAt(ScalaTree.Currying) in t && IdAt(ScalaTree.FunctionTypes) in t;
    assert IdAt(ScalaTree.Monad) in t && IdAt(ScalaTree.FreeMonad) in t && IdAt(ScalaTree.Collections) in t;
    assert IdAt(ScalaTree.Builder) in t && IdAt(ScalaTree.Iterable) in t && IdAt(ScalaTree.Seq) in t;
    assert IdAt(ScalaTree.Variance) in t && IdAt(ScalaTree.ForComprehension) in t && IdAt(ScalaTree.CollectionBuilders) in t;
  }

  /** The build of data.js:43-593 on its own names: every topic is registered
      under its id, no reorder call reports a mismatch, and the headline
      topics sit on their levels. */
  method BuildScalaTree(descriptions: seq<string>, sources: seq<seq<Source>>)
    returns (r: TopicGraph.Registry, log: seq<Mismatch>)
    requires |descriptions| == |sources| == ScalaTree.Count
    ensures log == []
    ensures r.Valid() && Monotone(r.topics) && |r.topics| == ScalaTree.Count
    ensures forall k :: 0 <= k < ScalaTree.Count ==> IdAt(k) in r.topics && r.topics[IdAt(k)].name == NameAt(k)
    ensures "function" in r.topics && r.topics["function"].level == 1 &&
            "currying" in r.topics && r.topics["currying"].level == 2 &&
            "function-types" in r.topics && r.topics["function-types"].level == 3 &&
            "monad" in r.topics && r.topics["monad"].level == 5 &&
            "free-monad" in r.topics && r.topics["free-monad"].level == 6 &&
            "collections" in r.topics && r.topics["collections"].level == 3 &&
            "builder" in r.topics && r.topics["builder"].level == 4 &&
            "iterable" in r.topics && r.topics["iterable"].level == 4 &&
            "seq" in r.topics && r.topics["seq"].level == 5 &&
            "variance" in r.topics && r.topics["variance"].level == 5 &&
            "for-comprehension" in r.topics && r.topics["for-comprehension"].level == 6 &&
            "collection-builders" in r.topics && r.topics["collection-builders"].level == 7
  {
    NamesDistinct();
    r, log := ScalaTree.Build(Names, descriptions, sources);
    forall k | 0 <= k < ScalaTree.Count
      ensures IdAt(k) in r.topics && r.topics[IdAt(k)].name == NameAt(k)
      ensures r.topics[IdAt(k)].level == ScalaTree.ScalaTreeOutcome.levels[k]
    {
      NameIds(k);
    }
    HeadlineLevels(r.topics);
  }
}
