/** The identifier normaliser of data.js:
      name.toLowerCase().replace(/[^a-z]+/g, '-')
    Lower-casing is modelled for ASCII only. */
module TopicId {

  /** A character the regular expression class `[a-z]` matches. */
  predicate IsLetter(c: char) {
    'a' <= c <= 'z'
  }

  /** A character an identifier may contain. */
  predicate IsIdChar(c: char) {
    IsLetter(c) || c == '-'
  }

  /** No two neighbouring characters of `s` are both '-'. */
  predicate NoDoubleDash(s: string) {
    forall i, j :: 0 <= i < |s| && 0 <= j < |s| && j == i + 1 ==> !(s[i] == '-' && s[j] == '-')
  }

  /** `toLowerCase` on one character, ASCII range only. */
  function LowerChar(c: char): (d: char)
    ensures 'A' <= c <= 'Z' ==> IsLetter(d) && d as int == c as int + 32
    ensures !('A' <= c <= 'Z') ==> d == c
  {
    if 'A' <= c <= 'Z' then (c as int + 32) as char else c
  }

  function Lower(s: string): (r: string)
    ensures |r| == |s|
    ensures forall i :: 0 <= i < |s| ==> r[i] == LowerChar(s[i])
  {
    seq(|s|, i requires 0 <= i < |s| => LowerChar(s[i]))
  }

  /** Length of the maximal run of non-letters at the front of `s`. */
  function RunEnd(s: string): (n: nat)
    ensures n <= |s|
    ensures forall i :: 0 <= i < n ==> !IsLetter(s[i])
    ensures n == |s| || IsLetter(s[n])
  {
    if s == [] || IsLetter(s[0]) then 0 else 1 + RunEnd(s[1..])
  }

  /** `replace(/[^a-z]+/g, '-')`: every maximal run of characters outside
      `[a-z]` becomes one '-'; letters are kept; nothing is trimmed. */
  function Collapse(s: string): (r: string)
    ensures forall i :: 0 <= i < |r| ==> IsIdChar(r[i])
    ensures NoDoubleDash(r)
    ensures r == [] <==> s == []
    ensures r != [] ==> (r[0] == '-' <==> !IsLetter(s[0]))
    ensures |r| <= |s|
    decreases |s|
  {
    if s == [] then []
    else if IsLetter(s[0]) then [s[0]] + Collapse(s[1..])
    else "-" + Collapse(s[RunEnd(s)..])
  }

  /** The id data.js derives from a topic name. */
  function Slug(name: string): (id: string)
    ensures forall i :: 0 <= i < |id| ==> IsIdChar(id[i])
    ensures NoDoubleDash(id)
    ensures |id| <= |name|
  {
    Collapse(Lower(name))
  }

  /** The same replacement read as the regular expression engine runs it:
      a left-to-right scan that emits '-' on entering a run of non-letters. */
  function Scan(s: string, inRun: bool): string
  {
    if s == [] then []
    else if IsLetter(s[0]) then [s[0]] + Scan(s[1..], false)
    else if inRun then Scan(s[1..], true)
    else "-" + Scan(s[1..], true)
  }

  /** The letters of `s`, in order. */
  function Letters(s: string): string
  {
    if s == [] then []
    else if IsLetter(s[0]) then [s[0]] + Letters(s[1..])
    else Letters(s[1..])
  }

  /** `RunEnd` is the only length with its two properties. */
  lemma RunEndUnique(s: string, n: nat)
    requires n <= |s|
    requires forall i :: 0 <= i < n ==> !IsLetter(s[i])
    requires n == |s| || IsLetter(s[n])
    ensures RunEnd(s) == n
  {
  }

  lemma {:induction false} ScanSkipsRun(s: string)
    ensures Scan(s, true) == Scan(s[RunEnd(s)..], false)
    decreases |s|
  {
    if s != [] && !IsLetter(s[0]) {
      ScanSkipsRun(s[1..]);
      assert s[1..][RunEnd(s[1..])..] == s[RunEnd(s)..];
    }
  }

  /** The run-based replacement and the scanning automaton agree on every input. */
  lemma {:induction false} CollapseIsScan(s: string)
    ensures Collapse(s) == Scan(s, false)
    decreases |s|
  {
    if s == [] {
    } else if IsLetter(s[0]) {
      CollapseIsScan(s[1..]);
    } else {
      CollapseIsScan(s[RunEnd(s)..]);
      ScanSkipsRun(s[1..]);
      assert s[1..][RunEnd(s[1..])..] == s[RunEnd(s)..];
    }
  }

  lemma {:induction false} LettersOfRun(s: string)
    ensures Letters(s) == Letters(s[RunEnd(s)..])
    decreases |s|
  {
    if s != [] && !IsLetter(s[0]) {
      LettersOfRun(s[1..]);
      assert s[1..][RunEnd(s[1..])..] == s[RunEnd(s)..];
    }
  }

  /** The letters of the input survive, in order, and nothing else is a letter. */
  lemma {:induction false} CollapseKeepsLetters(s: string)
    ensures Letters(Collapse(s)) == Letters(s)
    decreases |s|
  {
    if s == [] {
    } else if IsLetter(s[0]) {
      CollapseKeepsLetters(s[1..]);
      assert ([s[0]] + Collapse(s[1..]))[1..] == Collapse(s[1..]);
    } else {
      var t := s[RunEnd(s)..];
      CollapseKeepsLetters(t);
      LettersOfRun(s);
      assert ("-" + Collapse(t))[1..] == Collapse(t);
    }
  }

  /** No trimming: the id ends in '-' exactly when the name ends in a non-letter. */
  lemma {:induction false} CollapseLast(s: string)
    requires s != []
    ensures Collapse(s)[|Collapse(s)| - 1] == '-' <==> !IsLetter(s[|s| - 1])
    decreases |s|
  {
    if IsLetter(s[0]) {
      if |s| > 1 {
        CollapseLast(s[1..]);
      }
    } else {
      var t := s[RunEnd(s)..];
      if t != [] {
        CollapseLast(t);
      }
    }
  }

  /** Normalising a normalised id changes nothing. */
  lemma {:induction false} CollapseIdempotent(s: string)
    ensures Collapse(Collapse(s)) == Collapse(s)
    decreases |s|
  {
    if s == [] {
    } else if IsLetter(s[0]) {
      CollapseIdempotent(s[1..]);
      assert ([s[0]] + Collapse(s[1..]))[1..] == Collapse(s[1..]);
    } else {
      var t := s[RunEnd(s)..];
      CollapseIdempotent(t);
      var x := Collapse(t);
      RunEndUnique("-" + x, 1);
      assert ("-" + x)[1..] == x;
    }
  }

  /** A string of letters only is its own replacement. */
  lemma {:induction false} CollapseWord(w: string)
    requires forall i :: 0 <= i < |w| ==> IsLetter(w[i])
    ensures Collapse(w) == w
    decreases |w|
  {
    if w != [] {
      CollapseWord(w[1..]);
    }
  }

  lemma AppendAfterLetter(a: string, b: string)
    requires |a| > 1 && IsLetter(a[0])
    requires Collapse(a[1..] + b) == Collapse(a[1..]) + Collapse(b)
    ensures Collapse(a + b) == Collapse(a) + Collapse(b)
  {
    assert (a + b)[1..] == a[1..] + b;
  }

  lemma AppendAfterRun(a: string, b: string)
    requires a != [] && IsLetter(a[|a| - 1]) && !IsLetter(a[0])
    requires Collapse(a[RunEnd(a)..] + b) == Collapse(a[RunEnd(a)..]) + Collapse(b)
    ensures Collapse(a + b) == Collapse(a) + Collapse(b)
  {
    var n := RunEnd(a);
    assert n < |a|;
    RunEndUnique(a + b, n);
    assert (a + b)[n..] == a[n..] + b;
    assert Collapse(a + b) == "-" + Collapse(a[n..] + b);
    assert Collapse(a) == "-" + Collapse(a[n..]);
  }

  /** The replacement works piecewise across a boundary that follows a letter. */
  lemma {:induction false} CollapseAppend(a: string, b: string)
    requires a != [] && IsLetter(a[|a| - 1])
    ensures Collapse(a + b) == Collapse(a) + Collapse(b)
    decreases |a|
  {
    if |a| == 1 {
      assert (a + b)[1..] == b;
    } else if IsLetter(a[0]) {
      CollapseAppend(a[1..], b);
      AppendAfterLetter(a, b);
    } else {
      var t := a[RunEnd(a)..];
      assert t[|t| - 1] == a[|a| - 1];
      CollapseAppend(t, b);
      AppendAfterRun(a, b);
    }
  }

  /** A leading run of non-letters becomes exactly one '-'. */
  lemma CollapseRun(r: string, w: string)
    requires r != [] && forall i :: 0 <= i < |r| ==> !IsLetter(r[i])
    requires w == [] || IsLetter(w[0])
    ensures Collapse(r + w) == "-" + Collapse(w)
  {
    RunEndUnique(r + w, |r|);
    assert (r + w)[|r|..] == w;
  }

  /** Two words joined by a run of non-letters. */
  lemma TwoWords(a: string, sep: string, b: string)
    requires a != [] && forall i :: 0 <= i < |a| ==> IsLetter(a[i])
    requires sep != [] && forall i :: 0 <= i < |sep| ==> !IsLetter(sep[i])
    requires b != [] && forall i :: 0 <= i < |b| ==> IsLetter(b[i])
    ensures Collapse(a + sep + b) == a + "-" + b
  {
    assert a + sep + b == a + (sep + b);
    CollapseAppend(a, sep + b);
    CollapseWord(a);
    CollapseRun(sep, b);
    CollapseWord(b);
  }

  /** A one-word name: its lower-cased form, unchanged. */
  lemma SlugOfWord(name: string, w: string)
    requires Lower(name) == w && forall i :: 0 <= i < |w| ==> IsLetter(w[i])
    ensures Slug(name) == w
  {
    CollapseWord(w);
  }

  /** A two-word name: the lower-cased words joined by one '-'. */
  lemma SlugOfTwoWords(name: string, a: string, sep: string, b: string)
    requires Lower(name) == a + sep + b
    requires a != [] && forall i :: 0 <= i < |a| ==> IsLetter(a[i])
    requires sep != [] && forall i :: 0 <= i < |sep| ==> !IsLetter(sep[i])
    requires b != [] && forall i :: 0 <= i < |b| ==> IsLetter(b[i])
    ensures Slug(name) == a + "-" + b
  {
    TwoWords(a, sep, b);
  }

  lemma LowerOfId(id: string)
    requires forall i :: 0 <= i < |id| ==> IsIdChar(id[i])
    ensures Lower(id) == id
  {
  }

  /** `Slug` applied to its own output returns it unchanged. */
  lemma SlugIdempotent(name: string)
    ensures Slug(Slug(name)) == Slug(name)
  {
    LowerOfId(Slug(name));
    CollapseIdempotent(Lower(name));
  }
  /** A word followed by anything: the word is kept as it stands. */
  lemma WordThen(w: string, rest: string)
    requires w != [] && forall i :: 0 <= i < |w| ==> IsLetter(w[i])
    ensures Collapse(w + rest) == w + Collapse(rest)
  {
    CollapseAppend(w, rest);
    CollapseWord(w);
  }

  /** A run of non-letters, a word, then anything: one '-' and the word. */
  lemma RunWordThen(r: string, w: string, rest: string)
    requires r != [] && forall i :: 0 <= i < |r| ==> !IsLetter(r[i])
    requires w != [] && forall i :: 0 <= i < |w| ==> IsLetter(w[i])
    ensures Collapse(r + w + rest) == "-" + w + Collapse(rest)
  {
    assert (r + w)[|r + w| - 1] == w[|w| - 1];
    CollapseAppend(r + w, rest);
    CollapseRun(r, w);
    CollapseWord(w);
  }

  /** A trailing run of non-letters is kept as one '-', not trimmed. */
  lemma TrailingRun(r: string)
    requires r != [] && forall i :: 0 <= i < |r| ==> !IsLetter(r[i])
    ensures Collapse(r) == "-"
  {
    assert r == r + [];
    CollapseRun(r, []);
  }

  /** The name of data.js:472: one word, lower-cased. */
  lemma SlugOfFlatMap(name: string)
    requires name == "flatMap"
    ensures Slug(name) == "flatmap"
  {
    assert Lower(name) == "flatmap";
    SlugOfWord(name, "flatmap");
  }

  /** The replacement on the lower-cased name of data.js:482, in pieces. */
  lemma CollapseSimpleFor(quote: string, rest: string)
    requires quote == "\"" && rest == " \"" + "loop" + quote
    ensures Collapse("simple" + (" " + "for" + rest)) == "simple" + ("-" + "for" + ("-" + "loop" + "-"))
  {
    TrailingRun(quote);
    RunWordThen(" \"", "loop", quote);
    RunWordThen(" ", "for", rest);
    WordThen("simple", " " + "for" + rest);
  }

  /** The name of data.js:482, lower-cased. */
  lemma LowerSimpleFor(name: string)
    requires name == "Simple for \"loop\""
    ensures Lower(name) == "simple for \"loop\""
  {
  }

  /** The name of data.js:482: the closing quote becomes a trailing '-'. */
  lemma SlugOfSimpleFor(name: string)
    requires name == "Simple for \"loop\""
    ensures Slug(name) == "simple-for-loop-"
  {
    var quote := "\"";
    var rest := " \"" + "loop" + quote;
    LowerSimpleFor(name);
    assert "simple for \"loop\"" == "simple" + (" " + "for" + rest);
    CollapseSimpleFor(quote, rest);
    assert "simple" + ("-" + "for" + ("-" + "loop" + "-")) == "simple-for-loop-";
  }
}
