/**
  The limiter of concurrent requests, as a sequential caller sees it. The
  interleaved steps behind these methods are in LimiterSteps.
 */
module Limiter {

  const DEFAULT_MAX_CONCURRENCY: nat := 10

  function CapacityFor(n: int): (c: nat)
    ensures c > 0 && (c == n <==> n > 0)
    ensures n <= 0 ==> c == 10
  {
    if n <= 0 then DEFAULT_MAX_CONCURRENCY else n
  }

  datatype Stats = Stats(maxConcurrency: nat, active: int, total: int, dropped: int)

  class Limiter {
    const capacity: nat
    /** How many elements the channel holds. */
    var slots: nat
    var active: int
    var total: int
    var dropped: int

    predicate Valid()
      reads this
    {
      slots <= capacity && capacity > 0
    }

    constructor (n: int)
      ensures Valid() && capacity == CapacityFor(n)
      ensures slots == 0 && Snapshot() == Stats(capacity, 0, 0, 0)
    {
      capacity := CapacityFor(n);
      slots, active, total, dropped := 0, 0, 0, 0;
    }

    /** The select takes one of its ready cases: sending needs a free slot, otherwise the context is done. */
    method Acquire(send: bool) returns (ok: bool)
      requires Valid() && (send ==> slots < capacity)
      modifies this
      ensures Valid() && ok == send
      ensures slots == old(slots) + if ok then 1 else 0
      ensures var s := old(Snapshot());
              Snapshot() == if ok then s.(active := s.active + 1, total := s.total + 1)
                            else s.(dropped := s.dropped + 1)
    {
      if send {
        slots := slots + 1;
        active := active + 1;
        total := total + 1;
        ok := true;
      } else {
        dropped := dropped + 1;
        ok := false;
      }
    }

    /** The receive needs an element in the channel. */
    method Release()
      requires Valid() && slots > 0
      modifies this
      ensures Valid() && slots == old(slots) - 1
      ensures var s := old(Snapshot()); Snapshot() == s.(active := s.active - 1)
    {
      active := active - 1;
      slots := slots - 1;
    }

    function Snapshot(): Stats
      reads this
    {
      Stats(capacity, active, total, dropped)
    }
  }
}
