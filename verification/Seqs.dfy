/**
  Facts about sequences that the verifier does not see by itself, stated once.
 */
module Seqs {

  lemma Assoc<T>(a: seq<T>, b: seq<T>, c: seq<T>)
    ensures (a + b) + c == a + (b + c)
  {
  }

  lemma NothingMore<T>(s: seq<T>)
    ensures s + [] == s && [] + s == s
  {
  }

  lemma InitLast<T>(s: seq<T>)
    requires s != []
    ensures s[..|s| - 1] + [s[|s| - 1]] == s
  {
  }

  /** What was appended is the last element; the rest is as it was. */
  lemma Snoc<T>(s: seq<T>, x: T)
    ensures (s + [x])[..|s|] == s && (s + [x])[|s|] == x && |s + [x]| - 1 == |s|
  {
  }

  lemma AppendInit<T>(s: seq<T>, t: seq<T>)
    requires t != []
    ensures (s + t)[..|s + t| - 1] == s + t[..|t| - 1]
    ensures (s + t)[|s + t| - 1] == t[|t| - 1]
  {
  }

  lemma AppendRest<T>(s: seq<T>, t: seq<T>)
    requires s != []
    ensures (s + t)[1..] == s[1..] + t
    ensures (s + t)[0] == s[0]
  {
  }

  lemma SuffixInit<T>(s: seq<T>, k: nat)
    requires k < |s|
    ensures s[k..][..|s[k..]| - 1] == s[..|s| - 1][k..]
    ensures s[k..][|s[k..]| - 1] == s[|s| - 1]
  {
  }

  lemma SuffixHead<T>(s: seq<T>, k: nat)
    requires k < |s|
    ensures s[k..] == [s[k]] + s[k + 1..]
  {
  }

  lemma PrefixInit<T>(s: seq<T>, k: nat)
    requires k < |s|
    ensures s[..k + 1] == s[..k] + [s[k]]
    ensures s[..k + 1][..|s[..k + 1]| - 1] == s[..k] && s[..k + 1][|s[..k + 1]| - 1] == s[k]
  {
  }

  /** Two concatenations whose first halves have the same length are equal half by half. */
  lemma SameHalves<T>(a: seq<T>, b: seq<T>, c: seq<T>, d: seq<T>)
    requires |a| == |c|
    ensures a + b == c + d <==> a == c && b == d
  {
    if a + b == c + d {
      assert a == (a + b)[..|a|] && c == (c + d)[..|c|] && b == (a + b)[|a|..] && d == (c + d)[|c|..];
    }
  }

  // ---- Counting in a sequence ----

  /** How many of the first n elements satisfy p. */
  function Count<T>(p: T -> bool, xs: seq<T>, n: nat): nat
    requires n <= |xs|
  {
    if n == 0 then 0 else Count(p, xs, n - 1) + if p(xs[n - 1]) then 1 else 0
  }

  lemma {:induction false} CountInit<T>(p: T -> bool, xs: seq<T>, n: nat)
    requires n < |xs|
    ensures Count(p, xs[..|xs| - 1], n) == Count(p, xs, n)
  {
    if n > 0 {
      CountInit(p, xs, n - 1);
    }
  }

  lemma {:induction false} CountBelow<T>(p: T -> bool, xs: seq<T>, i: nat, n: nat)
    requires i < n <= |xs| && p(xs[i])
    ensures Count(p, xs, i) < Count(p, xs, n)
  {
    if i < n - 1 {
      CountBelow(p, xs, i, n - 1);
    }
  }

  // ---- Sums over a sequence ----

  function Sum<T>(f: T -> nat, xs: seq<T>): nat {
    if xs == [] then 0 else f(xs[0]) + Sum(f, xs[1..])
  }

  lemma {:induction false} SumUpdate<T>(f: T -> nat, xs: seq<T>, i: nat, x: T)
    requires i < |xs|
    ensures Sum(f, xs[i := x]) + f(xs[i]) == Sum(f, xs) + f(x)
  {
    if i == 0 {
      assert xs[0 := x][1..] == xs[1..];
    } else {
      assert xs[i := x][1..] == xs[1..][i - 1 := x];
      SumUpdate(f, xs[1..], i - 1, x);
    }
  }

  lemma {:induction false} SumSnoc<T>(f: T -> nat, xs: seq<T>, x: T)
    ensures Sum(f, xs + [x]) == Sum(f, xs) + f(x)
  {
    if xs == [] {
      assert [x][1..] == [] && xs + [x] == [x];
    } else {
      assert (xs + [x])[1..] == xs[1..] + [x];
      SumSnoc(f, xs[1..], x);
    }
  }

  lemma {:induction false} SumBelow<T(!new)>(f: T -> nat, g: T -> nat, xs: seq<T>)
    requires forall x :: f(x) <= g(x)
    ensures Sum(f, xs) <= Sum(g, xs)
  {
    if xs != [] {
      SumBelow(f, g, xs[1..]);
    }
  }

  lemma {:induction false} SumConstant<T>(f: T -> nat, xs: seq<T>, n: nat)
    requires forall i :: 0 <= i < |xs| ==> f(xs[i]) == n
    ensures Sum(f, xs) == n * |xs|
  {
    if xs != [] {
      assert forall i :: 0 <= i < |xs[1..]| ==> xs[1..][i] == xs[i + 1];
      SumConstant(f, xs[1..], n);
    }
  }

  lemma {:induction false} SumAtLeast<T>(f: T -> nat, xs: seq<T>, i: nat)
    requires i < |xs|
    ensures Sum(f, xs) >= f(xs[i])
  {
    if i > 0 {
      SumAtLeast(f, xs[1..], i - 1);
    }
  }
}
