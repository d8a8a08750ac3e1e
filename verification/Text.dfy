/**
  Strings as the Go sources use them: concatenation of fragments, splitting
  and joining on one separator, and trimming of surrounding characters.
 */
module Text {
  import opened Seqs

  /** All fragments, one after the other. */
  function Concat(fragments: seq<string>): string {
    if fragments == [] then "" else fragments[0] + Concat(fragments[1..])
  }

  lemma {:induction false} ConcatAppend(a: seq<string>, b: seq<string>)
    ensures Concat(a + b) == Concat(a) + Concat(b)
  {
    if a == [] {
      NothingMore(b);
    } else {
      AppendRest(a, b);
      ConcatAppend(a[1..], b);
      Assoc(a[0], Concat(a[1..]), Concat(b));
    }
  }

  lemma ConcatSnoc(a: seq<string>, s: string)
    ensures Concat(a + [s]) == Concat(a) + s
  {
    ConcatAppend(a, [s]);
    assert Concat([s]) == s + Concat([]);
  }

  lemma ConcatLast(fs: seq<string>)
    requires fs != []
    ensures Concat(fs) == Concat(fs[..|fs| - 1]) + fs[|fs| - 1]
  {
    ConcatSnoc(fs[..|fs| - 1], fs[|fs| - 1]);
    InitLast(fs);
  }

  /** The pieces of s between occurrences of c: one more than there are separators. */
  function SplitOn(c: char, s: string): (parts: seq<string>)
    ensures |parts| > 0
  {
    if s == "" then [""]
    else
      var rest := SplitOn(c, s[1..]);
      if s[0] == c then [""] + rest
      else [[s[0]] + rest[0]] + rest[1..]
  }

  /** The pieces with a separator between neighbours. */
  function JoinWith(c: char, parts: seq<string>): string
    requires |parts| > 0
  {
    if |parts| == 1 then parts[0] else parts[0] + [c] + JoinWith(c, parts[1..])
  }

  function Occurrences(c: char, s: string): nat {
    if s == "" then 0 else (if s[0] == c then 1 else 0) + Occurrences(c, s[1..])
  }

  lemma {:induction false} SplitJoin(c: char, s: string)
    ensures JoinWith(c, SplitOn(c, s)) == s
  {
    if s != "" {
      SplitJoin(c, s[1..]);
      var rest, parts := SplitOn(c, s[1..]), SplitOn(c, s);
      assert s == [s[0]] + s[1..];
      assert parts[1..] == if s[0] == c then rest else rest[1..];
    }
  }

  lemma {:induction false} SplitFree(c: char, s: string, i: nat)
    requires i < |SplitOn(c, s)|
    ensures c !in SplitOn(c, s)[i]
    ensures |SplitOn(c, s)| == Occurrences(c, s) + 1
  {
    if s != "" {
      SplitFree(c, s[1..], if s[0] == c && i > 0 then i - 1 else if s[0] == c then 0 else i);
    }
  }

  lemma {:induction false} SplitHead(c: char, p: string, s: string)
    requires c !in p
    ensures SplitOn(c, p + [c] + s) == [p] + SplitOn(c, s)
  {
    var t := p + [c] + s;
    if p == "" {
      assert t[1..] == s;
    } else {
      assert t[1..] == p[1..] + [c] + s;
      SplitHead(c, p[1..], s);
      assert p == [p[0]] + p[1..];
    }
  }

  lemma {:induction false} SplitNone(c: char, p: string)
    requires c !in p
    ensures SplitOn(c, p) == [p]
  {
    if p != "" {
      SplitNone(c, p[1..]);
      assert p == [p[0]] + p[1..];
    }
  }

  lemma {:induction false} JoinSplit(c: char, parts: seq<string>)
    requires |parts| > 0
    requires forall i :: 0 <= i < |parts| ==> c !in parts[i]
    ensures SplitOn(c, JoinWith(c, parts)) == parts
  {
    if |parts| == 1 {
      SplitNone(c, parts[0]);
    } else {
      assert forall i :: 0 <= i < |parts[1..]| ==> parts[1..][i] == parts[i + 1];
      JoinSplit(c, parts[1..]);
      SplitHead(c, parts[0], JoinWith(c, parts[1..]));
    }
  }

  lemma {:induction false} JoinSnoc(c: char, parts: seq<string>, p: string)
    requires |parts| > 0
    ensures JoinWith(c, parts + [p]) == JoinWith(c, parts) + [c] + p
  {
    assert (parts + [p])[1..] == parts[1..] + [p];
    if |parts| > 1 {
      JoinSnoc(c, parts[1..], p);
    }
  }

  /** The suffix of s that remains once leading characters satisfying p are gone. */
  function TrimLeft(p: char -> bool, s: string): string {
    if s != "" && p(s[0]) then TrimLeft(p, s[1..]) else s
  }

  function TrimRight(p: char -> bool, s: string): string {
    if s != "" && p(s[|s| - 1]) then TrimRight(p, s[..|s| - 1]) else s
  }

  function Trim(p: char -> bool, s: string): string {
    TrimRight(p, TrimLeft(p, s))
  }

  ghost predicate All(p: char -> bool, s: string) {
    forall i :: 0 <= i < |s| ==> p(s[i])
  }

  predicate Trimmed(p: char -> bool, s: string) {
    s == "" || (!p(s[0]) && !p(s[|s| - 1]))
  }

  lemma {:induction false} TrimLeftPadded(p: char -> bool, a: string, s: string)
    requires All(p, a)
    ensures TrimLeft(p, a + s) == TrimLeft(p, s)
  {
    if a == "" {
      assert a + s == s;
    } else {
      assert (a + s)[1..] == a[1..] + s;
      TrimLeftPadded(p, a[1..], s);
    }
  }

  lemma {:induction false} TrimRightPadded(p: char -> bool, s: string, b: string)
    requires All(p, b)
    ensures TrimRight(p, s + b) == TrimRight(p, s)
  {
    if b == "" {
      assert s + b == s;
    } else {
      assert (s + b)[..|s + b| - 1] == s + b[..|b| - 1];
      TrimRightPadded(p, s, b[..|b| - 1]);
    }
  }

  /** Trimming a padded string gives the string back: the inverse of padding. */
  lemma TrimPadded(p: char -> bool, a: string, s: string, b: string)
    requires All(p, a) && All(p, b) && Trimmed(p, s)
    ensures Trim(p, a + s + b) == s
  {
    assert a + s + b == a + (s + b);
    TrimLeftPadded(p, a, s + b);
    if s == "" {
      assert s + b == b + "";
      TrimLeftPadded(p, b, "");
    } else {
      TrimRightPadded(p, s, b);
    }
  }

  lemma {:induction false} TrimLeftShape(p: char -> bool, s: string)
    ensures var t := TrimLeft(p, s); |t| <= |s| && t == s[|s| - |t|..] && (t == "" || !p(t[0]))
  {
    if s != "" && p(s[0]) {
      TrimLeftShape(p, s[1..]);
    }
  }

  lemma {:induction false} TrimRightShape(p: char -> bool, s: string)
    ensures TrimRight(p, s) <= s
    ensures TrimRight(p, s) == "" || !p(TrimRight(p, s)[|TrimRight(p, s)| - 1])
  {
    if s != "" && p(s[|s| - 1]) {
      TrimRightShape(p, s[..|s| - 1]);
    }
  }

  lemma TrimLength(p: char -> bool, s: string)
    ensures |Trim(p, s)| <= |s|
    ensures |Trim(p, s)| == |s| ==> Trim(p, s) == s
  {
    var t := TrimLeft(p, s);
    TrimLeftShape(p, s);
    TrimRightShape(p, t);
    if |Trim(p, s)| == |s| {
      assert t == s;
    }
  }

  lemma TrimTrimmed(p: char -> bool, s: string)
    ensures Trimmed(p, Trim(p, s))
  {
    var t := TrimLeft(p, s);
    var u := TrimRight(p, t);
    TrimLeftShape(p, s);
    TrimRightShape(p, t);
    if u != "" {
      assert u[0] == t[0];
    }
  }

  lemma TrimFixed(p: char -> bool, s: string)
    requires Trimmed(p, s)
    ensures Trim(p, s) == s
  {
  }

  /** Trimming changes exactly the strings that are not trimmed, and those it shortens. */
  lemma TrimShape(p: char -> bool, s: string)
    ensures |Trim(p, s)| <= |s|
    ensures |Trim(p, s)| == |s| <==> Trim(p, s) == s
    ensures Trim(p, s) == s <==> Trimmed(p, s)
  {
    TrimLength(p, s);
    TrimTrimmed(p, s);
    if Trimmed(p, s) {
      TrimFixed(p, s);
    }
  }

  lemma AllAppend(p: char -> bool, a: string, b: string)
    ensures All(p, a + b) <==> All(p, a) && All(p, b)
  {
    assert forall i :: 0 <= i < |a| ==> (a + b)[i] == a[i];
    assert forall i :: 0 <= i < |b| ==> (a + b)[|a| + i] == b[i];
  }

  lemma {:induction false} TrimRightEmpty(p: char -> bool, s: string)
    ensures TrimRight(p, s) == "" <==> All(p, s)
  {
    if s != "" && p(s[|s| - 1]) {
      TrimRightEmpty(p, s[..|s| - 1]);
    }
  }

  /** Trimming leaves nothing exactly of the strings that have nothing but what is trimmed. */
  lemma {:induction false} TrimEmpty(p: char -> bool, s: string)
    ensures Trim(p, s) == "" <==> All(p, s)
  {
    if s != "" && p(s[0]) {
      TrimEmpty(p, s[1..]);
      assert forall i :: 1 <= i < |s| ==> s[i] == s[1..][i - 1];
    } else {
      TrimRightEmpty(p, s);
    }
  }
}
