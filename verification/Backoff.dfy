/**
  The delay before a retry, in nanoseconds: exponential, capped, with a quarter of
  jitter either way. All the floating-point products here are exact.
 */
module Backoff {

  const BASE: nat := 500_000_000
  const MAX: nat := 30_000_000_000
  const INT64_LIMIT: nat := 0x8000_0000_0000_0000

  function Pow2(n: nat): (p: nat)
    ensures p > 0
  {
    if n == 0 then 1 else 2 * Pow2(n - 1)
  }

  /** The uncapped delay, which is converted to a 64-bit duration before it is capped. */
  function Exponential(attempt: nat): nat
    requires attempt >= 1
  {
    BASE * Pow2(attempt - 1)
  }

  predicate Convertible(attempt: nat)
    requires attempt >= 1
  {
    Exponential(attempt) < INT64_LIMIT
  }

  lemma {:induction false} Pow2Monotone(a: nat, b: nat)
    requires a <= b
    ensures Pow2(a) <= Pow2(b)
  {
    if a < b {
      Pow2Monotone(a, b - 1);
    }
  }

  lemma Pow2At34()
    ensures Pow2(34) == 17_179_869_184
  {
    assert Pow2(8) == 256;
    assert Pow2(16) == 65_536;
    assert Pow2(24) == 16_777_216;
    assert Pow2(32) == 4_294_967_296;
  }

  /** The conversion to int64 is safe for the first 35 retries and for no later one. */
  lemma SafeAttempts(attempt: nat)
    requires attempt >= 1
    ensures Convertible(attempt) <==> attempt <= 35
  {
    Pow2At34();
    assert Pow2(35) == 2 * Pow2(34);
    if attempt <= 35 {
      Pow2Monotone(attempt - 1, 34);
    } else {
      Pow2Monotone(35, attempt - 1);
    }
  }

  function Delay(attempt: nat): nat
    requires attempt >= 1
  {
    if Exponential(attempt) > MAX then MAX else Exponential(attempt)
  }

  /** The nominal delays: half a second, doubling up to 16 seconds, then 30 seconds each. */
  lemma NominalDelays(attempt: nat)
    requires attempt >= 1
    ensures attempt <= 6 ==>
              Delay(attempt) == [500_000_000, 1_000_000_000, 2_000_000_000, 4_000_000_000, 8_000_000_000,
                                 16_000_000_000][attempt - 1]
    ensures attempt > 6 ==> Delay(attempt) == 30_000_000_000
  {
    assert Pow2(1) == 2 && Pow2(2) == 4 && Pow2(3) == 8 && Pow2(4) == 16 && Pow2(5) == 32 && Pow2(6) == 64;
    if attempt > 6 {
      Pow2Monotone(6, attempt - 1);
    }
  }

  /** The argument of the random draw, which must be positive. */
  function DrawRange(attempt: nat): nat
    requires attempt >= 1
  {
    Delay(attempt) / 2
  }

  /** The wait before retry `attempt`, for a draw below DrawRange. */
  function Backoff(attempt: nat, draw: nat): int
    requires attempt >= 1 && Convertible(attempt) && draw < DrawRange(attempt)
  {
    Delay(attempt) + draw - Delay(attempt) / 4
  }

  lemma DelayDivisible(attempt: nat)
    requires attempt >= 1
    ensures Delay(attempt) % 4 == 0 && BASE <= Delay(attempt) <= MAX
  {
    var p := Pow2(attempt - 1);
    assert Exponential(attempt) == 4 * (125_000_000 * p) && p >= 1;
  }

  /** The wait lies within a quarter of the nominal delay, up to either bound, and there is always something to draw from. */
  lemma WithinQuarter(attempt: nat, draw: nat)
    requires 1 <= attempt <= 35
    ensures Convertible(attempt) && DrawRange(attempt) > 0
    ensures draw < DrawRange(attempt) ==>
              3 * Delay(attempt) <= 4 * Backoff(attempt, draw) < 5 * Delay(attempt)
    ensures 4 * Backoff(attempt, 0) == 3 * Delay(attempt)
    ensures 4 * Backoff(attempt, DrawRange(attempt) - 1) == 5 * Delay(attempt) - 4
  {
    SafeAttempts(attempt);
    DelayDivisible(attempt);
  }

  // ---- Total wait ----

  /** The draws of n retries, each within its range. */
  ghost predicate Draws(draws: seq<nat>) {
    |draws| <= 35 && forall i :: 0 <= i < |draws| ==> draws[i] < DrawRange(i + 1)
  }

  function TotalWait(draws: seq<nat>): int
    requires Draws(draws)
  {
    if draws == [] then 0
    else
      var n := |draws|;
      SafeAttempts(n);
      TotalWait(draws[..n - 1]) + Backoff(n, draws[n - 1])
  }

  /** The nominal total: doubling from half a second for six retries, then half a minute each. */
  function NominalTotal(n: nat): nat {
    if n <= 6 then (Pow2(n) - 1) * BASE else 63 * BASE + MAX * (n - 6)
  }

  lemma NominalStep(n: nat)
    requires n >= 1
    ensures NominalTotal(n) == NominalTotal(n - 1) + Delay(n)
  {
    assert Pow2(6) == 64 && Pow2(5) == 32;
    if n <= 6 {
      Pow2Monotone(n - 1, 5);
      assert Pow2(n) == 2 * Pow2(n - 1);
    } else {
      Pow2Monotone(6, n - 1);
    }
  }

  /** Over n retries the total wait lies within a quarter of the nominal total. */
  lemma {:induction false} TotalWithinQuarter(draws: seq<nat>)
    requires Draws(draws) && draws != []
    ensures 3 * NominalTotal(|draws|) <= 4 * TotalWait(draws) < 5 * NominalTotal(|draws|)
  {
    var n := |draws|;
    WithinQuarter(n, draws[n - 1]);
    NominalStep(n);
    if n > 1 {
      TotalWithinQuarter(draws[..n - 1]);
    } else {
      assert draws[..0] == [] && NominalTotal(0) == 0 by {
        assert Pow2(0) == 1;
      }
    }
  }
}
