/**
  The limiter under any number of goroutines, one atomic step at a time: a channel
  send, two counter updates, the guarded call, one counter update, a channel receive.
 */
module LimiterSteps {
  import opened Seqs
  import L = Limiter

  /** Where one request stands. */
  datatype PC =
    | Waiting      // in the select of Acquire
    | Sent         // holds a slot; `active` not yet incremented
    | Counted      // `active` incremented; `total` not yet
    | Inside       // Acquire has returned; the guarded call runs
    | Leaving      // Release has decremented `active`; the slot is still held
    | Released
    | Cancelling   // the select took the done context; `dropped` not yet incremented
    | Failed

  datatype Sys = Sys(capacity: nat, slots: nat, active: int, total: int, dropped: int, procs: seq<PC>)

  /** A new request, the next step of a request, or a waiting request whose context is done. */
  datatype Action = Spawn | Advance(i: nat) | Cancel(i: nat)

  function Init(n: int): Sys {
    Sys(L.CapacityFor(n), 0, 0, 0, 0, [])
  }

  predicate Finished(pc: PC) {
    pc.Released? || pc.Failed?
  }

  /** A send blocks while the channel is full, a receive while it is empty. */
  predicate Enabled(s: Sys, a: Action) {
    match a
    case Spawn => true
    case Cancel(i) => i < |s.procs| && s.procs[i].Waiting?
    case Advance(i) =>
      && i < |s.procs| && !Finished(s.procs[i])
      && (s.procs[i].Waiting? ==> s.slots < s.capacity)
      && (s.procs[i].Leaving? ==> s.slots > 0)
  }

  function Apply(s: Sys, a: Action): Sys
    requires Enabled(s, a)
  {
    match a
    case Spawn => s.(procs := s.procs + [Waiting])
    case Cancel(i) => s.(procs := s.procs[i := Cancelling])
    case Advance(i) =>
      match s.procs[i]
      case Waiting => s.(slots := s.slots + 1, procs := s.procs[i := Sent])
      case Sent => s.(active := s.active + 1, procs := s.procs[i := Counted])
      case Counted => s.(total := s.total + 1, procs := s.procs[i := Inside])
      case Inside => s.(active := s.active - 1, procs := s.procs[i := Leaving])
      case Leaving => s.(slots := s.slots - 1, procs := s.procs[i := Released])
      case Cancelling => s.(dropped := s.dropped + 1, procs := s.procs[i := Failed])
  }

  /** The actions lead from s to t, each enabled when it is taken. */
  ghost predicate Leads(s: Sys, actions: seq<Action>, t: Sys)
    decreases |actions|
  {
    if actions == [] then s == t
    else Enabled(s, actions[0]) && Leads(Apply(s, actions[0]), actions[1..], t)
  }

  // ---- Counting requests ----

  function Holds(pc: PC): nat { if pc.Sent? || pc.Counted? || pc.Inside? || pc.Leaving? then 1 else 0 }

  function Active(pc: PC): nat { if pc.Counted? || pc.Inside? then 1 else 0 }

  function Guarded(pc: PC): nat { if pc.Inside? then 1 else 0 }

  function Admitted(pc: PC): nat { if pc.Inside? || pc.Leaving? || pc.Released? then 1 else 0 }

  function Dropped(pc: PC): nat { if pc.Failed? then 1 else 0 }

  /** Steps a request can still take. */
  function Remaining(pc: PC): nat {
    match pc
    case Waiting => 5
    case Sent => 4
    case Counted => 3
    case Inside => 2
    case Leaving => 1
    case Cancelling => 1
    case Released => 0
    case Failed => 0
  }

  /** The channel and the counters say exactly where the requests stand. */
  ghost predicate Inv(s: Sys) {
    && 0 < s.capacity && s.slots <= s.capacity
    && s.slots == Sum(Holds, s.procs)
    && s.active == Sum(Active, s.procs)
    && s.total == Sum(Admitted, s.procs)
    && s.dropped == Sum(Dropped, s.procs)
  }

  /** A step of one request changes the sums by what it changes for that request. */
  lemma InvMoved(s: Sys, i: nat, t: Sys)
    requires Inv(s) && i < |s.procs| == |t.procs| && t.procs == s.procs[i := t.procs[i]]
    requires t.capacity == s.capacity && t.slots <= t.capacity
    requires t.slots - s.slots == Holds(t.procs[i]) - Holds(s.procs[i])
    requires t.active - s.active == Active(t.procs[i]) - Active(s.procs[i])
    requires t.total - s.total == Admitted(t.procs[i]) - Admitted(s.procs[i])
    requires t.dropped - s.dropped == Dropped(t.procs[i]) - Dropped(s.procs[i])
    ensures Inv(t)
  {
    SumUpdate(Holds, s.procs, i, t.procs[i]);
    SumUpdate(Active, s.procs, i, t.procs[i]);
    SumUpdate(Admitted, s.procs, i, t.procs[i]);
    SumUpdate(Dropped, s.procs, i, t.procs[i]);
  }

  lemma InvSpawned(s: Sys)
    requires Inv(s)
    ensures Inv(Apply(s, Spawn))
  {
    SumSnoc(Holds, s.procs, Waiting);
    SumSnoc(Active, s.procs, Waiting);
    SumSnoc(Admitted, s.procs, Waiting);
    SumSnoc(Dropped, s.procs, Waiting);
  }

  lemma InvKept(s: Sys, a: Action)
    requires Inv(s) && Enabled(s, a)
    ensures Inv(Apply(s, a)) && Apply(s, a).capacity == s.capacity
  {
    match a
    case Spawn => InvSpawned(s);
    case Cancel(i) => InvMoved(s, i, Apply(s, a));
    case Advance(i) => InvMoved(s, i, Apply(s, a));
  }

  lemma {:induction false} InvAlong(s: Sys, actions: seq<Action>, t: Sys)
    requires Inv(s) && Leads(s, actions, t)
    ensures Inv(t) && t.capacity == s.capacity
    decreases |actions|
  {
    if actions != [] {
      InvKept(s, actions[0]);
      InvAlong(Apply(s, actions[0]), actions[1..], t);
    }
  }

  lemma Reached(n: int, actions: seq<Action>, t: Sys)
    requires Leads(Init(n), actions, t)
    ensures Inv(t) && t.capacity == L.CapacityFor(n)
  {
    InvAlong(Init(n), actions, t);
  }

  /**
    In every reachable state of any number of goroutines: the counter of active
    requests is never above the slots taken, those never above the capacity, and no
    more requests than the capacity are inside the guarded call.
   */
  lemma Safety(n: int, actions: seq<Action>, t: Sys)
    requires Leads(Init(n), actions, t)
    ensures 0 <= t.active <= t.slots <= t.capacity == L.CapacityFor(n)
    ensures t.slots == Sum(Holds, t.procs) && t.active == Sum(Active, t.procs)
    ensures Sum(Guarded, t.procs) <= t.active
  {
    Reached(n, actions, t);
    SumBelow(Active, Holds, t.procs);
    SumBelow(Guarded, Active, t.procs);
  }

  /** A request that leaves never waits for the channel, nor does any request past the select. */
  lemma ReleaseNeverBlocks(n: int, actions: seq<Action>, t: Sys, i: nat)
    requires Leads(Init(n), actions, t)
    requires i < |t.procs| && !t.procs[i].Waiting? && !Finished(t.procs[i])
    ensures Enabled(t, Advance(i))
  {
    Reached(n, actions, t);
    SumAtLeast(Holds, t.procs, i);
  }

  /** While a request is unfinished some request can take a step; nobody needs to be cancelled for that. */
  lemma Progress(n: int, actions: seq<Action>, t: Sys, i: nat)
    requires Leads(Init(n), actions, t)
    requires i < |t.procs| && !Finished(t.procs[i])
    ensures exists j :: Enabled(t, Advance(j))
  {
    Reached(n, actions, t);
    if j :| 0 <= j < |t.procs| && !t.procs[j].Waiting? && !Finished(t.procs[j]) {
      ReleaseNeverBlocks(n, actions, t, j);
    } else {
      SumConstant(Holds, t.procs, 0);
      assert Enabled(t, Advance(i));
    }
  }

  function Spawns(actions: seq<Action>): nat {
    if actions == [] then 0 else (if actions[0].Spawn? then 1 else 0) + Spawns(actions[1..])
  }

  lemma StepCosts(s: Sys, a: Action)
    requires Enabled(s, a)
    ensures if a.Spawn? then Sum(Remaining, Apply(s, a).procs) == Sum(Remaining, s.procs) + 5
            else Sum(Remaining, Apply(s, a).procs) < Sum(Remaining, s.procs)
    ensures |Apply(s, a).procs| == |s.procs| + if a.Spawn? then 1 else 0
  {
    match a
    case Spawn => SumSnoc(Remaining, s.procs, Waiting);
    case Cancel(i) => SumUpdate(Remaining, s.procs, i, Cancelling);
    case Advance(i) => SumUpdate(Remaining, s.procs, i, Apply(s, a).procs[i]);
  }

  lemma {:induction false} Accounting(s: Sys, actions: seq<Action>, t: Sys)
    requires Leads(s, actions, t)
    ensures |actions| - Spawns(actions) + Sum(Remaining, t.procs) <= Sum(Remaining, s.procs) + 5 * Spawns(actions)
    ensures |t.procs| == |s.procs| + Spawns(actions)
    decreases |actions|
  {
    if actions != [] {
      StepCosts(s, actions[0]);
      Accounting(Apply(s, actions[0]), actions[1..], t);
    }
  }

  /** Finitely many requests take finitely many steps: at most five each, besides being made. */
  lemma RunsAreBounded(n: int, actions: seq<Action>, t: Sys)
    requires Leads(Init(n), actions, t)
    ensures |actions| <= 6 * Spawns(actions)
  {
    Accounting(Init(n), actions, t);
  }

  /**
    A run that can go no further has finished every request. Then nothing is active,
    every slot is free, and each call of Acquire was either admitted or dropped.
   */
  lemma Quiescence(n: int, actions: seq<Action>, t: Sys)
    requires Leads(Init(n), actions, t)
    requires forall i :: !Enabled(t, Advance(i))
    ensures forall i :: 0 <= i < |t.procs| ==> Finished(t.procs[i])
    ensures t.active == 0 && t.slots == 0 && t.total + t.dropped == Spawns(actions)
  {
    forall i | 0 <= i < |t.procs| ensures Finished(t.procs[i]) {
      if !Finished(t.procs[i]) {
        Progress(n, actions, t, i);
      }
    }
    Reached(n, actions, t);
    Accounting(Init(n), actions, t);
    SumConstant(Holds, t.procs, 0);
    SumConstant(Active, t.procs, 0);
    AdmittedOrDropped(t.procs);
  }

  lemma {:induction false} AdmittedOrDropped(procs: seq<PC>)
    requires forall i :: 0 <= i < |procs| ==> Finished(procs[i])
    ensures Sum(Admitted, procs) + Sum(Dropped, procs) == |procs|
  {
    if procs != [] {
      assert forall i :: 0 <= i < |procs[1..]| ==> procs[1..][i] == procs[i + 1];
      AdmittedOrDropped(procs[1..]);
    }
  }

  /** Undisturbed, the steps of one request are the sequential limiter's Acquire and Release. */
  lemma Undisturbed(s: Sys, i: nat)
    requires Inv(s) && i < |s.procs| && s.procs[i].Waiting? && s.slots < s.capacity
    ensures var t := s.(slots := s.slots + 1, active := s.active + 1, total := s.total + 1, procs := s.procs[i := Inside]);
            && Leads(s, [Advance(i), Advance(i), Advance(i)], t)
            && Leads(t, [Advance(i), Advance(i)], s.(total := s.total + 1, procs := s.procs[i := Released]))
  {
    var a := Advance(i);
    var s1 := Apply(s, a);
    var s2 := Apply(s1, a);
    var s3 := Apply(s2, a);
    var s4 := Apply(s3, a);
    var s5 := Apply(s4, a);
    assert s3.procs == s.procs[i := Inside] && s5.procs == s.procs[i := Released];
    assert [a, a, a][1..] == [a, a] && [a, a][1..] == [a] && [a][1..] == [];
    assert Leads(s2, [a], s3) && Leads(s1, [a, a], s3) && Leads(s4, [a], s5);
  }
}
