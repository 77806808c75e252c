/** A build script run on one `TopicGraph.Registry`: a sequence of
    `defineTopic` calls, one direct level write, then `reorderLevel` calls,
    together with the outcome claimed for it. `Fits` says the claim is
    consistent with the script; `RunScript` runs the script and proves that
    a fitting claim is exactly what the registry then holds. */
module Scenario {
  import opened Wrappers
  import opened Topics
  import opened Reorder
  import TopicId
  import TopicGraph

  /** One `defineTopic` call, by topic position: its `category_` argument
      (`None` where it reads as undefined) and the positions of the topics
      whose ids make up its `requires_` array. */
  datatype Definition = Definition(category: Option<Category>, prereqs: seq<nat>)

  /** `reorderLevel(head, ...tail)`, by topic position. */
  datatype ReorderCall = ReorderCall(head: nat, tail: seq<nat>)

  /** A build script: the definitions in order, a direct write of `raisedTo`
      into the level of topic `raised` right after that topic is defined,
      then the reorder calls. */
  datatype Script = Script(definitions: seq<Definition>, raised: nat, raisedTo: int, reorders: seq<ReorderCall>)

  /** A follower's place: the reorder call and its index in that call's tail. */
  datatype Position = Position(call: nat, index: nat)

  /** What a script is claimed to produce: each topic's final level, and its
      place among the followers, if it is one. */
  datatype Outcome = Outcome(levels: seq<int>, followers: seq<Option<Position>>)

  /** Every definition requires only topics defined before it. */
  ghost predicate Ordered(s: Script) {
    forall k, j :: 0 <= k < |s.definitions| && 0 <= j < |s.definitions[k].prereqs| ==>
      s.definitions[k].prereqs[j] < k
  }

  /** The claimed level of topic `k` is above those of its prerequisites, and
      one above the highest of them (1 for a root), unless it is the topic
      whose level the script writes directly. */
  ghost predicate DefinitionFits(s: Script, o: Outcome, k: nat)
    requires k < |s.definitions| == |o.levels|
  {
    var req := s.definitions[k].prereqs;
    (forall j :: 0 <= j < |req| ==> req[j] < k && o.levels[req[j]] < o.levels[k]) &&
    (k != s.raised && req == [] ==> o.levels[k] == 1) &&
    (k != s.raised && req != [] ==> exists j :: 0 <= j < |req| && o.levels[req[j]] + 1 == o.levels[k])
  }

  /** Reorder call `j` names defined topics; its head is nobody's follower
      and not among its own followers; every follower shares the head's
      claimed level and is recorded at its place. */
  ghost predicate ReorderFits(s: Script, o: Outcome, j: nat)
    requires j < |s.reorders| && |o.levels| == |o.followers|
  {
    var c := s.reorders[j];
    c.head < |o.levels| && c.head !in c.tail && o.followers[c.head].None? &&
    forall i :: 0 <= i < |c.tail| ==>
      c.tail[i] < |o.levels| && o.levels[c.tail[i]] == o.levels[c.head] &&
      o.followers[c.tail[i]] == Some(Position(j, i))
  }

  /** A recorded place holds the topic it is recorded for. */
  ghost predicate FollowerFits(s: Script, o: Outcome, k: nat)
    requires k < |o.followers|
  {
    o.followers[k].Some? ==>
      var p := o.followers[k].value;
      p.call < |s.reorders| && p.index < |s.reorders[p.call].tail| && s.reorders[p.call].tail[p.index] == k
  }

  /** The claimed outcome agrees with every call of the script. */
  ghost predicate Fits(s: Script, o: Outcome) {
    |o.levels| == |o.followers| == |s.definitions| && s.raised < |s.definitions| &&
    s.definitions[s.raised].prereqs == [] && o.levels[s.raised] == s.raisedTo && Ordered(s) &&
    (forall k :: 0 <= k < |s.definitions| ==> DefinitionFits(s, o, k)) &&
    (forall j :: 0 <= j < |s.reorders| ==> ReorderFits(s, o, j)) &&
    (forall k :: 0 <= k < |o.followers| ==> FollowerFits(s, o, k))
  }

  /** `Fits` from its parts, each checked one definition or call at a time. */
  lemma FitsIntro(s: Script, o: Outcome)
    requires |o.levels| == |o.followers| == |s.definitions| && s.raised < |s.definitions|
    requires s.definitions[s.raised].prereqs == [] && o.levels[s.raised] == s.raisedTo
    requires forall k :: 0 <= k < |s.definitions| ==> DefinitionFits(s, o, k) && FollowerFits(s, o, k)
    requires forall j :: 0 <= j < |s.reorders| ==> ReorderFits(s, o, j)
    ensures Fits(s, o)
  {
    forall k, j | 0 <= k < |s.definitions| && 0 <= j < |s.definitions[k].prereqs|
      ensures s.definitions[k].prereqs[j] < k
    {
      assert DefinitionFits(s, o, k);
    }
  }

  /** `ids` lists the ids the names normalise to. */
  ghost predicate IdsOf(names: seq<string>, ids: seq<string>) {
    |ids| == |names| &&
    forall k {:trigger TopicId.Slug(names[k])} :: 0 <= k < |names| ==> TopicId.Slug(names[k]) == ids[k]
  }

  /** No two entries are equal. */
  ghost predicate Distinct(ids: seq<string>) {
    forall a, b :: 0 <= a < b < |ids| ==> ids[a] != ids[b]
  }

  /** The entries of `ids` at the positions `ks`: a `requires_` array of
      script variables. */
  function IdsAt(ids: seq<string>, ks: seq<nat>): (r: seq<string>)
    requires forall j :: 0 <= j < |ks| ==> ks[j] < |ids|
    ensures |r| == |ks| && forall j :: 0 <= j < |ks| ==> r[j] == ids[ks[j]]
  {
    seq(|ks|, j requires 0 <= j < |ks| => ids[ks[j]])
  }

  /** The first `n` ids, as a set. */
  ghost function KeySet(ids: seq<string>, n: nat): set<string>
    requires n <= |ids|
  {
    if n == 0 then {} else KeySet(ids, n - 1) + {ids[n - 1]}
  }

  /** Every member of `KeySet(ids, n)` is one of the first `n` ids. */
  lemma {:induction false} KeyIndex(ids: seq<string>, n: nat, key: string) returns (k: nat)
    requires n <= |ids| && key in KeySet(ids, n)
    ensures k < n && ids[k] == key
  {
    if ids[n - 1] == key {
      k := n - 1;
    } else {
      k := KeyIndex(ids, n - 1, key);
    }
  }

  /** The first `n` ids are in `KeySet(ids, n)`. */
  lemma {:induction false} KeySetHas(ids: seq<string>, n: nat, k: nat)
    requires k < n <= |ids|
    ensures ids[k] in KeySet(ids, n)
  {
    if k < n - 1 {
      KeySetHas(ids, n - 1, k);
    }
  }

  /** Distinct ids give a set of `n` elements. */
  lemma {:induction false} KeySetSize(ids: seq<string>, n: nat)
    requires n <= |ids| && Distinct(ids)
    ensures |KeySet(ids, n)| == n
  {
    if n > 0 {
      KeySetSize(ids, n - 1);
      if ids[n - 1] in KeySet(ids, n - 1) {
        var k := KeyIndex(ids, n - 1, ids[n - 1]);
        assert false;
      }
    }
  }

  /** One name, description, source list and id per definition. */
  predicate Args(s: Script, names: seq<string>, descriptions: seq<string>, sources: seq<seq<Source>>, ids: seq<string>) {
    |names| == |descriptions| == |sources| == |ids| == |s.definitions|
  }

  /** The record definition `k` stores, on the given level. */
  function Entry(s: Script, names: seq<string>, descriptions: seq<string>, sources: seq<seq<Source>>,
                 ids: seq<string>, k: nat, level: int): Topic
    requires Args(s, names, descriptions, sources, ids) && k < |names| && Ordered(s)
  {
    var d := s.definitions[k];
    var c := OrElse(d.category, Language);
    Topic(ids[k], names[k], descriptions[k], sources[k], c, IdsAt(ids, d.prereqs), names[k], c, level, Num(0))
  }

  /** The level the table holds for topic `k`: the directly written topic
      has level 1 until `raised`. */
  function StoredLevel(s: Script, o: Outcome, k: nat, raised: bool): int
    requires k < |o.levels|
  {
    if k == s.raised && !raised then 1 else o.levels[k]
  }

  /** After the first `n` definitions: the table holds exactly their ids,
      each with the record its call built. */
  ghost predicate DefinedUpTo(t: Table, s: Script, o: Outcome, names: seq<string>, descriptions: seq<string>,
                              sources: seq<seq<Source>>, ids: seq<string>, n: nat, raised: bool)
    requires Fits(s, o) && Args(s, names, descriptions, sources, ids) && n <= |names|
  {
    t.Keys == KeySet(ids, n) &&
    forall k :: 0 <= k < n ==> ids[k] in t && t[ids[k]] == Entry(s, names, descriptions, sources, ids, k, StoredLevel(s, o, k, raised))
  }

  /** The sort hint of topic `k` once the first `j` reorder calls have run. */
  function HintAfter(o: Outcome, k: nat, j: nat): HSort
    requires k < |o.followers|
  {
    match o.followers[k]
    case Some(p) => if p.call < j then Hint(Num(0), p.index) else Num(0)
    case None => Num(0)
  }

  /** After every definition and the first `j` reorder calls. */
  ghost predicate ReorderedUpTo(t: Table, s: Script, o: Outcome, names: seq<string>, descriptions: seq<string>,
                                sources: seq<seq<Source>>, ids: seq<string>, j: nat)
    requires Fits(s, o) && Args(s, names, descriptions, sources, ids)
  {
    t.Keys == KeySet(ids, |ids|) &&
    forall k :: 0 <= k < |ids| ==>
      ids[k] in t && t[ids[k]] == Entry(s, names, descriptions, sources, ids, k, o.levels[k]).(hsort := HintAfter(o, k, j))
  }

  /** The next id is not yet a key. */
  lemma DefineFresh(t: Table, ids: seq<string>, n: nat)
    requires Distinct(ids) && n < |ids| && t.Keys == KeySet(ids, n)
    ensures ids[n] !in t
  {
    if ids[n] in t {
      var i := KeyIndex(ids, n, ids[n]);
      assert false;
    }
  }

  /** `LevelOf` on registered prerequisites whose levels are all below
      `level`, with one exactly below it, or none at all and `level` 1. */
  lemma DefineLevel(t: Table, ids: seq<string>, levels: seq<int>, req: seq<nat>, level: int)
    requires |ids| == |levels| && forall j :: 0 <= j < |req| ==> req[j] < |ids|
    requires forall j :: 0 <= j < |req| ==> ids[req[j]] in t && t[ids[req[j]]].level == levels[req[j]] < level
    requires req == [] ==> level == 1
    requires req != [] ==> exists j :: 0 <= j < |req| && levels[req[j]] + 1 == level
    ensures LevelOf(t, IdsAt(ids, req)) == Ok(level)
  {
    var prereqs := IdsAt(ids, req);
    if req != [] {
      var w :| 0 <= w < |req| && levels[req[w]] + 1 == level;
      LevelIs(t, prereqs, w);
    }
  }

  /** What definition `n` needs: its id is fresh and `LevelOf` gives the
      level it is stored on. */
  lemma DefineStep(t: Table, s: Script, o: Outcome, names: seq<string>, descriptions: seq<string>,
                   sources: seq<seq<Source>>, ids: seq<string>, n: nat, raised: bool)
    requires Fits(s, o) && Args(s, names, descriptions, sources, ids) && Distinct(ids)
    requires n < |ids| && (raised ==> s.raised < n) && (!raised ==> n <= s.raised)
    requires DefinedUpTo(t, s, o, names, descriptions, sources, ids, n, raised)
    ensures ids[n] !in t
    ensures LevelOf(t, IdsAt(ids, s.definitions[n].prereqs)) == Ok(StoredLevel(s, o, n, raised))
  {
    DefineFresh(t, ids, n);
    var req := s.definitions[n].prereqs;
    assert DefinitionFits(s, o, n);
    forall j | 0 <= j < |req|
      ensures ids[req[j]] in t && t[ids[req[j]]].level == o.levels[req[j]]
    {
      assert StoredLevel(s, o, req[j], raised) == o.levels[req[j]];
    }
    DefineLevel(t, ids, o.levels, req, StoredLevel(s, o, n, raised));
  }

  /** Storing definition `n`'s record extends the table to the first `n + 1`
      definitions. */
  lemma DefineStepAfter(t: Table, u: Table, s: Script, o: Outcome, names: seq<string>, descriptions: seq<string>,
                        sources: seq<seq<Source>>, ids: seq<string>, n: nat, raised: bool)
    requires Fits(s, o) && Args(s, names, descriptions, sources, ids) && Distinct(ids) && n < |ids|
    requires DefinedUpTo(t, s, o, names, descriptions, sources, ids, n, raised)
    requires u == t[ids[n] := Entry(s, names, descriptions, sources, ids, n, StoredLevel(s, o, n, raised))]
    ensures DefinedUpTo(u, s, o, names, descriptions, sources, ids, n + 1, raised)
  {
    forall i | 0 <= i < n
      ensures ids[i] != ids[n]
    {
    }
  }

  /** Definition `|defined|`: the call succeeds, returns the id of its name
      and stores its record under that fresh id, keeping every edge
      pointing down. */
  method DefineOne(r: TopicGraph.Registry, s: Script, o: Outcome, names: seq<string>, descriptions: seq<string>,
                   sources: seq<seq<Source>>, ghost ids: seq<string>, defined: seq<string>, ghost raised: bool)
    returns (id: string)
    requires Fits(s, o) && Args(s, names, descriptions, sources, ids) && IdsOf(names, ids) && Distinct(ids)
    requires |defined| < |ids| && forall i :: 0 <= i < |defined| ==> defined[i] == ids[i]
    requires (raised ==> s.raised < |defined|) && (!raised ==> |defined| <= s.raised)
    requires r.Valid() && Monotone(r.topics) && DefinedUpTo(r.topics, s, o, names, descriptions, sources, ids, |defined|, raised)
    modifies r
    ensures id == ids[|defined|]
    ensures r.Valid() && Monotone(r.topics) && DefinedUpTo(r.topics, s, o, names, descriptions, sources, ids, |defined| + 1, raised)
  {
    var k := |defined|;
    var d := s.definitions[k];
    var prereqs := IdsAt(defined, d.prereqs);
    assert prereqs == IdsAt(ids, d.prereqs);
    ghost var t := r.topics;
    DefineStep(t, s, o, names, descriptions, sources, ids, k, raised);
    var result := r.DefineTopic(names[k], Some(descriptions[k]), Some(sources[k]), d.category, Some(prereqs));
    DefineStepAfter(t, r.topics, s, o, names, descriptions, sources, ids, k, raised);
    id := result.value;
  }

  /** Definitions `|done|` up to `hi`, in order. */
  method DefineRange(r: TopicGraph.Registry, s: Script, o: Outcome, names: seq<string>, descriptions: seq<string>,
                     sources: seq<seq<Source>>, ghost ids: seq<string>, done: seq<string>, hi: nat, ghost raised: bool)
    returns (defined: seq<string>)
    requires Fits(s, o) && Args(s, names, descriptions, sources, ids) && IdsOf(names, ids) && Distinct(ids)
    requires |done| <= hi <= |ids| && forall i :: 0 <= i < |done| ==> done[i] == ids[i]
    requires (raised ==> s.raised < |done|) && (!raised ==> hi <= s.raised + 1)
    requires r.Valid() && Monotone(r.topics) && DefinedUpTo(r.topics, s, o, names, descriptions, sources, ids, |done|, raised)
    modifies r
    ensures |defined| == hi && forall i :: 0 <= i < hi ==> defined[i] == ids[i]
    ensures r.Valid() && Monotone(r.topics) && DefinedUpTo(r.topics, s, o, names, descriptions, sources, ids, hi, raised)
    decreases hi - |done|
  {
    if |done| == hi {
      return done;
    }
    var id := DefineOne(r, s, o, names, descriptions, sources, ids, done, raised);
    defined := DefineRange(r, s, o, names, descriptions, sources, ids, done + [id], hi, raised);
  }

  /** The direct level write, made right after its topic is defined: nobody
      depends on that topic yet, and the table then holds its claimed level. */
  lemma RaiseStep(t: Table, s: Script, o: Outcome, names: seq<string>, descriptions: seq<string>,
                  sources: seq<seq<Source>>, ids: seq<string>)
    requires Fits(s, o) && Args(s, names, descriptions, sources, ids) && Distinct(ids)
    requires DefinedUpTo(t, s, o, names, descriptions, sources, ids, s.raised + 1, false)
    ensures ids[s.raised] in t
    ensures forall key :: key in t ==> ids[s.raised] !in t[key].prerequisites
    ensures t[ids[s.raised]].prerequisites == []
    ensures DefinedUpTo(t[ids[s.raised] := t[ids[s.raised]].(level := s.raisedTo)],
                        s, o, names, descriptions, sources, ids, s.raised + 1, true)
  {
    var id := ids[s.raised];
    forall key | key in t
      ensures id !in t[key].prerequisites
    {
      var k := KeyIndex(ids, s.raised + 1, key);
      var req := s.definitions[k].prereqs;
      forall j | 0 <= j < |req|
        ensures t[key].prerequisites[j] != id
      {
        assert req[j] < k;
      }
    }
  }

  /** The ids a reorder call passes: its followers are distinct, and its
      head is not one of them. */
  lemma ReorderArguments(s: Script, o: Outcome, ids: seq<string>, j: nat)
    requires Fits(s, o) && |ids| == |s.definitions| && Distinct(ids) && j < |s.reorders|
    ensures ReorderFits(s, o, j)
    ensures var c := s.reorders[j];
            var tail := IdsAt(ids, c.tail);
            ids[c.head] !in tail && forall a, b :: 0 <= a < b < |tail| ==> tail[a] != tail[b]
  {
    var c := s.reorders[j];
    assert ReorderFits(s, o, j);
    var head, tail := ids[c.head], IdsAt(ids, c.tail);
    forall a, b | 0 <= a < b < |tail|
      ensures tail[a] != tail[b]
    {
      assert o.followers[c.tail[a]] != o.followers[c.tail[b]];
    }
    forall i | 0 <= i < |tail|
      ensures tail[i] != head
    {
      assert c.tail[i] != c.head;
    }
  }

  /** The record of topic `k` after reorder call `j`, given what the call
      does to the table: followers get the hint of their index, the rest
      stays. */
  lemma ReorderEntry(t: Table, u: Table, s: Script, o: Outcome, names: seq<string>, descriptions: seq<string>,
                     sources: seq<seq<Source>>, ids: seq<string>, j: nat, k: nat)
    requires Fits(s, o) && Args(s, names, descriptions, sources, ids) && Distinct(ids)
    requires j < |s.reorders| && k < |ids| && ReorderFits(s, o, j)
    requires ids[k] in t && t[ids[k]] == Entry(s, names, descriptions, sources, ids, k, o.levels[k]).(hsort := HintAfter(o, k, j))
    requires var c := s.reorders[j];
             var tail := IdsAt(ids, c.tail);
             (forall i :: 0 <= i < |tail| ==> tail[i] in t && tail[i] in u && u[tail[i]] == t[tail[i]].(hsort := Hint(Num(0), i))) &&
             (forall key :: key in t && key !in tail ==> key in u && u[key] == t[key])
    ensures ids[k] in u && u[ids[k]] == Entry(s, names, descriptions, sources, ids, k, o.levels[k]).(hsort := HintAfter(o, k, j + 1))
  {
    var c := s.reorders[j];
    var tail := IdsAt(ids, c.tail);
    assert FollowerFits(s, o, k);
    if o.followers[k].Some? && o.followers[k].value.call == j {
      assert tail[o.followers[k].value.index] == ids[k];
    } else {
      forall i | 0 <= i < |tail|
        ensures tail[i] != ids[k]
      {
        assert o.followers[c.tail[i]] == Some(Position(j, i));
      }
    }
  }

  /** Reorder call `j` on the table the earlier calls left: it reports no
      mismatch and writes exactly the hints the outcome records. */
  lemma ReorderStep(t: Table, s: Script, o: Outcome, names: seq<string>, descriptions: seq<string>,
                    sources: seq<seq<Source>>, ids: seq<string>, j: nat)
    requires Fits(s, o) && Args(s, names, descriptions, sources, ids) && Distinct(ids)
    requires j < |s.reorders| && Keyed(t) && ReorderedUpTo(t, s, o, names, descriptions, sources, ids, j)
    ensures ReorderFits(s, o, j)
    ensures var c := s.reorders[j];
            var p := Run(t, ids[c.head], IdsAt(ids, c.tail), |c.tail|);
            p.failure.None? && p.log == [] && ReorderedUpTo(p.topics, s, o, names, descriptions, sources, ids, j + 1)
  {
    ReorderArguments(s, o, ids, j);
    var c := s.reorders[j];
    var head, tail := ids[c.head], IdsAt(ids, c.tail);
    assert HintAfter(o, c.head, j) == Num(0);
    ReorderAligned(t, head, tail);
    var u := Run(t, head, tail, |tail|).topics;
    forall k | 0 <= k < |ids|
      ensures ids[k] in u && u[ids[k]] == Entry(s, names, descriptions, sources, ids, k, o.levels[k]).(hsort := HintAfter(o, k, j + 1))
    {
      ReorderEntry(t, u, s, o, names, descriptions, sources, ids, j, k);
    }
  }

  /** The reorder calls, in order, on the ids the definitions returned;
      `failures[j]` is what call `j` threw, and none throws. */
  method ReorderAll(r: TopicGraph.Registry, s: Script, o: Outcome, names: seq<string>, descriptions: seq<string>,
                    sources: seq<seq<Source>>, ids: seq<string>)
    returns (log: seq<Mismatch>, failures: seq<Option<Error>>)
    requires Fits(s, o) && Args(s, names, descriptions, sources, ids) && Distinct(ids)
    requires r.Valid() && Monotone(r.topics) && ReorderedUpTo(r.topics, s, o, names, descriptions, sources, ids, 0)
    modifies r
    ensures log == []
    ensures |failures| == |s.reorders| && forall j :: 0 <= j < |failures| ==> failures[j].None?
    ensures r.Valid() && Monotone(r.topics) && ReorderedUpTo(r.topics, s, o, names, descriptions, sources, ids, |s.reorders|)
  {
    log, failures := [], [];
    var j := 0;
    while j < |s.reorders|
      invariant j <= |s.reorders| && log == []
      invariant |failures| == j && forall i :: 0 <= i < j ==> failures[i].None?
      invariant r.Valid() && Monotone(r.topics) && ReorderedUpTo(r.topics, s, o, names, descriptions, sources, ids, j)
    {
      var c := s.reorders[j];
      ReorderStep(r.topics, s, o, names, descriptions, sources, ids, j);
      var passLog, failure := r.ReorderLevel(ids[c.head], IdsAt(ids, c.tail));
      log, failures := log + passLog, failures + [failure];
      j := j + 1;
    }
  }

  /** The builder override: `SetLevel` on the definition at `raised`
      does not throw and leaves the table as the script expects. */
  method RaiseOne(r: TopicGraph.Registry, s: Script, o: Outcome, names: seq<string>, descriptions: seq<string>,
                  sources: seq<seq<Source>>, ghost ids: seq<string>, defined: seq<string>)
    returns (failure: Option<Error>)
    requires Fits(s, o) && Args(s, names, descriptions, sources, ids) && IdsOf(names, ids) && Distinct(ids)
    requires |defined| == s.raised + 1 && forall i :: 0 <= i < |defined| ==> defined[i] == ids[i]
    requires r.Valid() && Monotone(r.topics) && DefinedUpTo(r.topics, s, o, names, descriptions, sources, ids, s.raised + 1, false)
    modifies r
    ensures failure.None?
    ensures r.Valid() && Monotone(r.topics) && DefinedUpTo(r.topics, s, o, names, descriptions, sources, ids, s.raised + 1, true)
  {
    RaiseStep(r.topics, s, o, names, descriptions, sources, ids);
    failure := r.SetLevel(defined[s.raised], s.raisedTo);
  }

  /** Every definition call in order, with the override after the
      builder's own definition. */
  method DefineAll(s: Script, o: Outcome, names: seq<string>, descriptions: seq<string>,
                   sources: seq<seq<Source>>, ghost ids: seq<string>)
    returns (r: TopicGraph.Registry, defined: seq<string>)
    requires Fits(s, o) && Args(s, names, descriptions, sources, ids) && IdsOf(names, ids) && Distinct(ids)
    ensures fresh(r)
    ensures |defined| == |ids| && forall i :: 0 <= i < |ids| ==> defined[i] == ids[i]
    ensures r.Valid() && Monotone(r.topics) && DefinedUpTo(r.topics, s, o, names, descriptions, sources, ids, |ids|, true)
  {
    r := new TopicGraph.Registry();
    defined := DefineRange(r, s, o, names, descriptions, sources, ids, [], s.raised + 1, false);
    var failure := RaiseOne(r, s, o, names, descriptions, sources, ids, defined);
    defined := DefineRange(r, s, o, names, descriptions, sources, ids, defined, |names|, true);
  }

  /** Once every definition has run, no reorder call has yet written a hint. */
  lemma StartReorder(t: Table, s: Script, o: Outcome, names: seq<string>, descriptions: seq<string>,
                     sources: seq<seq<Source>>, ids: seq<string>)
    requires Fits(s, o) && Args(s, names, descriptions, sources, ids)
    requires DefinedUpTo(t, s, o, names, descriptions, sources, ids, |ids|, true)
    ensures ReorderedUpTo(t, s, o, names, descriptions, sources, ids, 0)
  {
    forall k | 0 <= k < |ids|
      ensures t[ids[k]] == Entry(s, names, descriptions, sources, ids, k, o.levels[k]).(hsort := HintAfter(o, k, 0))
    {
      assert StoredLevel(s, o, k, true) == o.levels[k];
    }
  }

  /** The whole script: every definition, the override, then every
      reorder call, none of which reports a mismatch. */
  method RunScript(s: Script, o: Outcome, names: seq<string>, descriptions: seq<string>,
                   sources: seq<seq<Source>>, ghost ids: seq<string>)
    returns (r: TopicGraph.Registry, log: seq<Mismatch>)
    requires Fits(s, o) && Args(s, names, descriptions, sources, ids) && IdsOf(names, ids) && Distinct(ids)
    ensures log == []
    ensures r.Valid() && Monotone(r.topics) && ReorderedUpTo(r.topics, s, o, names, descriptions, sources, ids, |s.reorders|)
  {
    var defined;
    r, defined := DefineAll(s, o, names, descriptions, sources, ids);
    assert defined == ids;
    StartReorder(r.topics, s, o, names, descriptions, sources, ids);
    var failures;
    log, failures := ReorderAll(r, s, o, names, descriptions, sources, defined);
  }
}
