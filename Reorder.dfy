/** The pure meaning of `reorderLevel` (data.js:575-585): a pass over the
    followers that rewrites `hsort` for those on the head's level and logs a
    diagnostic for the others. The imperative loop is
    TopicGraph.Registry.ReorderLevel; it is proved equal to `Run` below. */
module Reorder {
  import opened Wrappers
  import opened Topics
  import Decimal

  /** The "Expected the same levels" line of data.js:582: both ids and both levels. */
  datatype Mismatch = Mismatch(headId: string, headLevel: int, followerId: string, followerLevel: int)

  /** The table, the diagnostics so far, and the TypeError that stopped the pass, if any. */
  datatype Pass = Pass(topics: Table, log: seq<Mismatch>, failure: Option<Error>)

  /** `x + ''` for an hsort value. */
  function HSortText(h: HSort): string {
    match h
    case Num(n) => Decimal.IntToString(n)
    case Text(s) => s
  }

  /** `left.hsort + idx + 1` where `idx` is the for-in key, a string:
      both additions are string concatenations. */
  function Hint(anchor: HSort, idx: nat): HSort {
    Text(HSortText(anchor) + Decimal.NatToString(idx) + "1")
  }

  /** One iteration of the loop, for the follower at position `i`. Reading
      `topics[head]` afresh each time is what the shared `left` object
      amounts to when the head is itself among the followers. */
  function Step(p: Pass, head: string, tail: seq<string>, i: nat): Pass
    requires i < |tail|
  {
    if head !in p.topics then p.(failure := Some(NotFound(head)))
    else if tail[i] !in p.topics then p.(failure := Some(NotFound(tail[i])))
    else
      var left, right := p.topics[head], p.topics[tail[i]];
      if left.level == right.level then
        p.(topics := p.topics[tail[i] := right.(hsort := Hint(left.hsort, i))])
      else
        p.(log := p.log + [Mismatch(left.id, left.level, right.id, right.level)])
  }

  /** The pass after the first `n` followers; a failure ends it. */
  function Run(t: Table, head: string, tail: seq<string>, n: nat): Pass
    requires n <= |tail|
  {
    if n == 0 then Pass(t, [], None)
    else
      var p := Run(t, head, tail, n - 1);
      if p.failure.Some? then p else Step(p, head, tail, n - 1)
  }

  /** Reference definition of the diagnostics: one per follower whose level
      differs from the head's, in order. */
  function Mismatches(t: Table, head: string, followers: seq<string>): seq<Mismatch>
    requires head in t && forall f :: f in followers ==> f in t
  {
    if followers == [] then []
    else
      var f := followers[0];
      (if t[f].level == t[head].level then [] else [Mismatch(head, t[head].level, f, t[f].level)])
      + Mismatches(t, head, followers[1..])
  }

  /** Position `i` holds the last occurrence of its key among the first `n`. */
  predicate LastOccurrence(tail: seq<string>, i: nat, n: nat) {
    i < n <= |tail| && forall j :: i < j < n ==> tail[j] != tail[i]
  }

  /** Only `hsort` fields change, and only those of followers. */
  lemma {:induction false} RunFrame(t: Table, head: string, tail: seq<string>, n: nat)
    requires n <= |tail|
    ensures Run(t, head, tail, n).topics.Keys == t.Keys
    ensures forall k :: k in t ==>
              Run(t, head, tail, n).topics[k] == t[k].(hsort := Run(t, head, tail, n).topics[k].hsort)
    ensures forall k :: k in t && k !in tail[..n] ==> Run(t, head, tail, n).topics[k] == t[k]
  {
    if n > 0 {
      RunFrame(t, head, tail, n - 1);
      assert forall k :: k in tail[..n - 1] ==> k in tail[..n];
    }
  }

  /** Once a failure has stopped the pass, later followers change nothing. */
  lemma {:induction false} RunStops(t: Table, head: string, tail: seq<string>, i: nat, n: nat)
    requires i <= n <= |tail|
    requires Run(t, head, tail, i).failure.Some?
    ensures Run(t, head, tail, n) == Run(t, head, tail, i)
    decreases n
  {
    if n > i {
      RunStops(t, head, tail, i, n - 1);
    }
  }

  /** The pass fails exactly when a lookup hits a missing key: the head
      (as soon as there is a follower) or some follower. */
  lemma {:induction false} RunFails(t: Table, head: string, tail: seq<string>, n: nat)
    requires n <= |tail|
    ensures Run(t, head, tail, n).failure.Some? <==>
            n > 0 && (head !in t || exists i :: 0 <= i < n && tail[i] !in t)
    ensures n > 0 && head !in t ==> Run(t, head, tail, n).failure == Some(NotFound(head))
  {
    if n > 0 {
      RunFails(t, head, tail, n - 1);
      var p := Run(t, head, tail, n - 1);
      if p.failure.Some? {
        if head in t {
          var i :| 0 <= i < n - 1 && tail[i] !in t;
          assert 0 <= i < n && tail[i] !in t;
        }
      } else {
        RunFrame(t, head, tail, n - 1);
        assert p.topics.Keys == t.Keys;
        assert head in t || n - 1 == 0;
        assert forall i :: 0 <= i < n - 1 ==> tail[i] in t;
        assert Run(t, head, tail, n) == Step(p, head, tail, n - 1);
      }
    }
  }

  /** A missing follower stops the pass where it stands: the followers before
      it keep their new `hsort`, the ones after it are never looked at. */
  lemma {:induction false} RunStopsAtMissing(t: Table, head: string, tail: seq<string>, j: nat, n: nat)
    requires j < n <= |tail|
    requires head in t && tail[j] !in t && forall i :: 0 <= i < j ==> tail[i] in t
    ensures Run(t, head, tail, n) == Run(t, head, tail, j).(failure := Some(NotFound(tail[j])))
  {
    RunFails(t, head, tail, j);
    RunFrame(t, head, tail, j);
    assert Run(t, head, tail, j + 1) == Run(t, head, tail, j).(failure := Some(NotFound(tail[j])));
    RunStops(t, head, tail, j + 1, n);
  }

  /** The reference diagnostics of two runs of followers, one after the other. */
  lemma {:induction false} MismatchesAppend(t: Table, head: string, fs: seq<string>, gs: seq<string>)
    requires head in t && forall f :: f in fs + gs ==> f in t
    ensures Mismatches(t, head, fs + gs) == Mismatches(t, head, fs) + Mismatches(t, head, gs)
    decreases |fs|
  {
    if fs == [] {
      assert fs + gs == gs;
    } else {
      var f := fs[0];
      assert (fs + gs)[0] == f;
      assert (fs + gs)[1..] == fs[1..] + gs;
      assert forall g :: g in fs[1..] + gs ==> g in fs + gs;
      MismatchesAppend(t, head, fs[1..], gs);
      var x := if t[f].level == t[head].level then [] else [Mismatch(head, t[head].level, f, t[f].level)];
      calc {
        Mismatches(t, head, fs + gs);
        x + Mismatches(t, head, fs[1..] + gs);
        x + (Mismatches(t, head, fs[1..]) + Mismatches(t, head, gs));
        (x + Mismatches(t, head, fs[1..])) + Mismatches(t, head, gs);
      }
    }
  }

  /** When every key is present, the pass logs exactly the reference
      diagnostics and does not fail. */
  lemma {:induction false} RunLog(t: Table, head: string, tail: seq<string>, n: nat)
    requires n <= |tail|
    requires Keyed(t) && head in t && forall i :: 0 <= i < n ==> tail[i] in t
    ensures Run(t, head, tail, n).failure.None?
    ensures Run(t, head, tail, n).log == Mismatches(t, head, tail[..n])
  {
    if n > 0 {
      RunLog(t, head, tail, n - 1);
      LogStep(t, head, tail, n - 1);
    }
  }

  /** One more follower appends its own mismatch, if any, to the log. */
  lemma LogStep(t: Table, head: string, tail: seq<string>, m: nat)
    requires m < |tail|
    requires Keyed(t) && head in t && forall i :: 0 <= i <= m ==> tail[i] in t
    requires Run(t, head, tail, m).failure.None? && Run(t, head, tail, m).log == Mismatches(t, head, tail[..m])
    ensures Run(t, head, tail, m + 1).failure.None?
    ensures Run(t, head, tail, m + 1).log == Mismatches(t, head, tail[..m + 1])
  {
    RunFrame(t, head, tail, m);
    var f := tail[m];
    assert tail[..m + 1] == tail[..m] + [f];
    MismatchesAppend(t, head, tail[..m], [f]);
    assert Mismatches(t, head, [f]) ==
           (if t[f].level == t[head].level then [] else [Mismatch(head, t[head].level, f, t[f].level)]);
  }

  /** No diagnostic exactly when every follower shares the head's level. */
  lemma {:induction false} NoMismatches(t: Table, head: string, fs: seq<string>)
    requires head in t && forall f :: f in fs ==> f in t
    ensures Mismatches(t, head, fs) == [] <==> forall f :: f in fs ==> t[f].level == t[head].level
  {
    if fs != [] {
      NoMismatches(t, head, fs[1..]);
      assert forall f :: f in fs ==> f == fs[0] || f in fs[1..];
    }
  }

  /** What one step does when both lookups succeed. */
  lemma StepEffect(p: Pass, head: string, tail: seq<string>, m: nat)
    requires m < |tail| && p.failure.None?
    requires head in p.topics && tail[m] in p.topics
    ensures Step(p, head, tail, m).failure.None?
    ensures Step(p, head, tail, m).topics.Keys == p.topics.Keys
    ensures forall k :: k in p.topics && k != tail[m] ==> Step(p, head, tail, m).topics[k] == p.topics[k]
    ensures p.topics[tail[m]].level == p.topics[head].level ==>
            Step(p, head, tail, m).topics[tail[m]] == p.topics[tail[m]].(hsort := Hint(p.topics[head].hsort, m))
    ensures p.topics[tail[m]].level != p.topics[head].level ==>
            Step(p, head, tail, m).topics[tail[m]] == p.topics[tail[m]]
  {
  }

  /** With every follower present and the head not among them, a follower on
      the head's level ends up with the hint of its last position. */
  lemma {:induction false} RunHints(t: Table, head: string, tail: seq<string>, n: nat)
    requires n <= |tail|
    requires head in t && head !in tail[..n] && forall i :: 0 <= i < n ==> tail[i] in t
    ensures Run(t, head, tail, n).topics.Keys == t.Keys
    ensures forall i :: 0 <= i < n && LastOccurrence(tail, i, n) && t[tail[i]].level == t[head].level ==>
              Run(t, head, tail, n).topics[tail[i]].hsort == Hint(t[head].hsort, i)
  {
    if n > 0 {
      assert tail[..n] == tail[..n - 1] + [tail[n - 1]];
      RunHints(t, head, tail, n - 1);
      HintsStep(t, head, tail, n - 1);
    }
  }

  /** One more follower: it gets the hint of its index when its level
      matches, and the hints of the earlier last occurrences stay. */
  lemma HintsStep(t: Table, head: string, tail: seq<string>, m: nat)
    requires m < |tail|
    requires head in t && head !in tail[..m + 1] && forall i :: 0 <= i <= m ==> tail[i] in t
    requires Run(t, head, tail, m).topics.Keys == t.Keys
    requires forall i :: 0 <= i < m && LastOccurrence(tail, i, m) && t[tail[i]].level == t[head].level ==>
               Run(t, head, tail, m).topics[tail[i]].hsort == Hint(t[head].hsort, i)
    ensures Run(t, head, tail, m + 1).topics.Keys == t.Keys
    ensures forall i :: 0 <= i <= m && LastOccurrence(tail, i, m + 1) && t[tail[i]].level == t[head].level ==>
              Run(t, head, tail, m + 1).topics[tail[i]].hsort == Hint(t[head].hsort, i)
  {
    RunFrame(t, head, tail, m);
    RunFails(t, head, tail, m);
    var p := Run(t, head, tail, m);
    var f := tail[m];
    assert head != f;
    assert p.topics[head] == t[head];
    assert p.topics[f].level == t[f].level;
    StepEffect(p, head, tail, m);
    var u := Run(t, head, tail, m + 1).topics;
    assert u == Step(p, head, tail, m).topics;
    if t[f].level == t[head].level {
      assert u[f].hsort == Hint(t[head].hsort, m);
    }
    forall i | 0 <= i <= m && LastOccurrence(tail, i, m + 1) && t[tail[i]].level == t[head].level
      ensures u[tail[i]].hsort == Hint(t[head].hsort, i)
    {
      if i < m {
        assert tail[i] != f && LastOccurrence(tail, i, m);
        assert u[tail[i]] == p.topics[tail[i]];
      }
    }
  }

  /** A follower on a level other than the head's keeps its whole record. */
  lemma {:induction false} RunKeepsOtherLevels(t: Table, head: string, tail: seq<string>, n: nat)
    requires n <= |tail|
    requires head in t && forall i :: 0 <= i < n ==> tail[i] in t
    ensures Run(t, head, tail, n).topics.Keys == t.Keys
    ensures forall i :: 0 <= i < n && t[tail[i]].level != t[head].level ==>
              Run(t, head, tail, n).topics[tail[i]] == t[tail[i]]
  {
    if n > 0 {
      RunKeepsOtherLevels(t, head, tail, n - 1);
      KeepOtherLevelsStep(t, head, tail, n - 1);
    }
  }

  /** One more follower keeps the followers on another level untouched. */
  lemma KeepOtherLevelsStep(t: Table, head: string, tail: seq<string>, m: nat)
    requires m < |tail|
    requires head in t && forall i :: 0 <= i <= m ==> tail[i] in t
    requires Run(t, head, tail, m).topics.Keys == t.Keys
    requires forall i :: 0 <= i < m && t[tail[i]].level != t[head].level ==>
               Run(t, head, tail, m).topics[tail[i]] == t[tail[i]]
    ensures Run(t, head, tail, m + 1).topics.Keys == t.Keys
    ensures forall i :: 0 <= i <= m && t[tail[i]].level != t[head].level ==>
              Run(t, head, tail, m + 1).topics[tail[i]] == t[tail[i]]
  {
    RunFrame(t, head, tail, m);
    RunFails(t, head, tail, m);
    var p := Run(t, head, tail, m);
    var f := tail[m];
    assert p.topics[head].level == t[head].level;
    assert p.topics[f].level == t[f].level;
    StepEffect(p, head, tail, m);
    var u := Run(t, head, tail, m + 1).topics;
    assert u == Step(p, head, tail, m).topics;
    if t[f].level != t[head].level {
      if f in tail[..m] {
        var j :| 0 <= j < m && tail[j] == f;
        assert p.topics[tail[j]] == t[tail[j]];
      }
      assert u[f] == t[f];
    }
    forall i | 0 <= i <= m && t[tail[i]].level != t[head].level
      ensures u[tail[i]] == t[tail[i]]
    {
      if tail[i] != f {
        assert u[tail[i]] == p.topics[tail[i]];
      }
    }
  }

  /** A pass changes no level and no prerequisite list, so it keeps every
      edge of the dependency graph pointing downwards. */
  lemma RunKeepsMonotone(t: Table, head: string, tail: seq<string>, n: nat)
    requires n <= |tail| && Monotone(t)
    ensures Monotone(Run(t, head, tail, n).topics)
  {
    RunFrame(t, head, tail, n);
  }

  /** The situation of every call in the build script: head and followers
      registered, followers distinct, the head not among them, all on the
      head's level. The pass then succeeds without a diagnostic, follower `i`
      receives the hint for position `i`, and every other record is kept. */
  lemma ReorderAligned(t: Table, head: string, tail: seq<string>)
    requires Keyed(t) && head in t && head !in tail
    requires forall i :: 0 <= i < |tail| ==> tail[i] in t && t[tail[i]].level == t[head].level
    requires forall i, j :: 0 <= i < j < |tail| ==> tail[i] != tail[j]
    ensures Run(t, head, tail, |tail|).failure.None?
    ensures Run(t, head, tail, |tail|).log == []
    ensures Run(t, head, tail, |tail|).topics.Keys == t.Keys
    ensures forall i :: 0 <= i < |tail| ==>
              Run(t, head, tail, |tail|).topics[tail[i]] == t[tail[i]].(hsort := Hint(t[head].hsort, i))
    ensures forall k :: k in t && k !in tail ==> Run(t, head, tail, |tail|).topics[k] == t[k]
  {
    var n := |tail|;
    assert tail[..n] == tail;
    RunLog(t, head, tail, n);
    NoMismatches(t, head, tail);
    AlignedHints(t, head, tail);
    RunFrame(t, head, tail, n);
  }

  /** With distinct followers all on the head's level, follower `i` ends up
      with its own record and the hint for position `i`. */
  lemma AlignedHints(t: Table, head: string, tail: seq<string>)
    requires head in t && head !in tail
    requires forall i :: 0 <= i < |tail| ==> tail[i] in t && t[tail[i]].level == t[head].level
    requires forall i, j :: 0 <= i < j < |tail| ==> tail[i] != tail[j]
    ensures Run(t, head, tail, |tail|).topics.Keys == t.Keys
    ensures forall i :: 0 <= i < |tail| ==>
              Run(t, head, tail, |tail|).topics[tail[i]] == t[tail[i]].(hsort := Hint(t[head].hsort, i))
  {
    var n := |tail|;
    assert tail[..n] == tail;
    RunHints(t, head, tail, n);
    RunFrame(t, head, tail, n);
    var u := Run(t, head, tail, n).topics;
    forall i | 0 <= i < n
      ensures u[tail[i]] == t[tail[i]].(hsort := Hint(t[head].hsort, i))
    {
      assert LastOccurrence(tail, i, n);
      assert u[tail[i]].hsort == Hint(t[head].hsort, i);
    }
  }

  /** Reading a hint given under an anchor of 0 as a number, the way
      `Number("011")` does, yields 10 * i + 1. */
  lemma HintFromZero(i: nat)
    ensures Hint(Num(0), i) == Text("0" + Decimal.NatToString(i) + "1")
    ensures Decimal.AllDigits(Hint(Num(0), i).s)
    ensures Decimal.Value(Hint(Num(0), i).s) == 10 * i + 1
  {
    var d := Decimal.NatToString(i);
    Decimal.ValueOfNatToString(i);
    Decimal.ValueLeadingZero(d);
    Decimal.ValueAppendDigit("0" + d, '1');
  }

  /** Two positions never receive the same hint from one anchor. */
  lemma HintInjective(anchor: HSort, i: nat, j: nat)
    requires Hint(anchor, i) == Hint(anchor, j)
    ensures i == j
  {
    var a, di, dj := HSortText(anchor), Decimal.NatToString(i), Decimal.NatToString(j);
    assert a + di + "1" == a + dj + "1";
    assert |di| == |dj|;
    assert di == (a + di + "1")[|a|..|a| + |di|];
    assert dj == (a + dj + "1")[|a|..|a| + |dj|];
    Decimal.NatToStringInjective(i, j);
  }
  /** The head among its own followers: `left` and `right` are then one
      object, so writing the follower's `hsort` also moves the anchor that
      later followers are given hints from. */
  lemma HeadAmongFollowers(t: Table, a: string, b: string)
    requires a != b && a in t && b in t && t[a].level == t[b].level
    requires t[a].hsort == Num(0) && t[b].hsort == Num(0)
    ensures Run(t, a, [a, b], 2).failure.None?
    ensures Run(t, a, [a, b], 2).topics[a].hsort == Text("001")
    ensures Run(t, a, [a, b], 2).topics[b].hsort == Text("00111")
  {
    var tail := [a, b];
    assert HSortText(Num(0)) == "0" && Decimal.NatToString(0) == "0";
    assert Hint(Num(0), 0) == Text("001");
    var first := t[a].(hsort := Text("001"));
    assert Run(t, a, tail, 0) == Pass(t, [], None);
    assert Run(t, a, tail, 1) == Step(Pass(t, [], None), a, tail, 0) == Pass(t[a := first], [], None);
    assert HSortText(Text("001")) == "001" && Decimal.NatToString(1) == "1";
    assert Hint(Text("001"), 1) == Text("00111");
    assert Run(t, a, tail, 2) == Step(Pass(t[a := first], [], None), a, tail, 1);
    assert Run(t, a, tail, 2) == Pass(t[a := first][b := t[b].(hsort := Text("00111"))], [], None);
  }
}
