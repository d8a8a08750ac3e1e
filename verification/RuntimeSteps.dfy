/**
  Closes and reloads of one runtime by any number of goroutines, one step at a time:
  the once-guard of Close and the write lock of the agent swap.
 */
module RuntimeSteps {
  import opened Llm
  import opened Seqs

  datatype Thread =
    | Closing                    // about to enter the once-guard
    | RunningClosers             // inside it
    | Closed                     // Close has returned
    | Reloading(version: nat)    // Reload has been called with this Agentfile
    | Built(version: nat)        // its agent is built
    | Locked(version: nat)       // holds the write lock; nothing assigned
    | HalfSwapped(version: nat)  // agent assigned, Agentfile not yet
    | Swapped(version: nat)      // both assigned, lock still held
    | Reloaded
    | ReloadFailed

  datatype Once = Idle | Running(runner: nat, next: nat) | Done

  /** Agentfiles are known by a version; an agent by the version it was built from. */
  datatype Sys = Sys(closers: seq<nat>, once: Once, ran: seq<nat>, agentfile: nat, agent: Option<nat>,
                     lock: Option<nat>, threads: seq<Thread>)

  datatype Action = CallClose | CallReload(version: nat) | Advance(i: nat) | FailBuild(i: nat)

  /**
    After Init: its agent, if any, is the current Agentfile's. A failed Init may have
    called Close itself; then the closers have been run.
   */
  datatype Start = Start(closers: seq<nat>, agentfile: nat, hasAgent: bool, closed: bool)

  function Init(st: Start): Sys {
    Sys(if st.closed then [] else st.closers, if st.closed then Done else Idle, if st.closed then st.closers else [],
        st.agentfile, if st.hasAgent then Some(st.agentfile) else None, None, [])
  }

  predicate Finished(t: Thread) {
    t.Closed? || t.Reloaded? || t.ReloadFailed?
  }

  predicate Enabled(s: Sys, a: Action) {
    match a
    case CallClose => true
    case CallReload(_) => true
    case FailBuild(i) => i < |s.threads| && s.threads[i].Reloading?
    case Advance(i) =>
      && i < |s.threads| && !Finished(s.threads[i])
      && (s.threads[i].Closing? ==> !s.once.Running?)
      && (s.threads[i].RunningClosers? ==> s.once.Running?)
      && (s.threads[i].Built? ==> s.lock.None?)
  }

  function Become(s: Sys, i: nat, t: Thread): Sys
    requires i < |s.threads|
  {
    s.(threads := s.threads[i := t])
  }

  function Apply(s: Sys, a: Action): Sys
    requires Enabled(s, a)
  {
    match a
    case CallClose => s.(threads := s.threads + [Closing])
    case CallReload(v) => s.(threads := s.threads + [Reloading(v)])
    case FailBuild(i) => Become(s, i, ReloadFailed)
    case Advance(i) =>
      match s.threads[i]
      case Closing =>
        if s.once.Done? then Become(s, i, Closed) else Become(s, i, RunningClosers).(once := Running(i, 0))
      case RunningClosers =>
        var k := s.once.next;
        if k < |s.closers| then s.(ran := s.ran + [s.closers[k]], once := s.once.(next := k + 1))
        else Become(s, i, Closed).(closers := [], once := Done)
      case Reloading(v) => Become(s, i, Built(v))
      case Built(v) => Become(s, i, Locked(v)).(lock := Some(i))
      case Locked(v) => Become(s, i, HalfSwapped(v)).(agent := Some(v))
      case HalfSwapped(v) => Become(s, i, Swapped(v)).(agentfile := v)
      case Swapped(_) => Become(s, i, Reloaded).(lock := None)
  }

  ghost predicate Leads(s: Sys, actions: seq<Action>, t: Sys)
    decreases |actions|
  {
    if actions == [] then s == t
    else Enabled(s, actions[0]) && Leads(Apply(s, actions[0]), actions[1..], t)
  }

  predicate HoldsLock(t: Thread) {
    t.Locked? || t.HalfSwapped? || t.Swapped?
  }

  /** What holds of the once-guard, given all the closers there were. */
  ghost predicate OnceInv(s: Sys, all: seq<nat>) {
    && (forall i :: 0 <= i < |s.threads| ==> (s.threads[i].RunningClosers? <==> s.once.Running? && s.once.runner == i))
    && (forall i :: 0 <= i < |s.threads| && s.threads[i].Closed? ==> s.once.Done?)
    && match s.once
       case Idle => s.ran == [] && s.closers == all
       case Running(runner, next) => runner < |s.threads| && next <= |all| && s.ran == all[..next] && s.closers == all
       case Done => s.ran == all && s.closers == []
  }

  /** What holds of the agent and the Agentfile: only the lock's holder may find them apart. */
  ghost predicate SwapInv(s: Sys) {
    && (forall i :: 0 <= i < |s.threads| ==> (HoldsLock(s.threads[i]) <==> s.lock == Some(i)))
    && (s.lock.Some? ==> s.lock.value < |s.threads|)
    && if s.lock.Some? && s.threads[s.lock.value].HalfSwapped?
       then s.agent == Some(s.threads[s.lock.value].version)
       else s.agent.Some? ==> s.agent.value == s.agentfile
  }

  lemma OnceKept(s: Sys, all: seq<nat>, a: Action)
    requires OnceInv(s, all) && Enabled(s, a)
    ensures OnceInv(Apply(s, a), all)
  {
    var t := Apply(s, a);
    forall i | 0 <= i < |t.threads|
      ensures t.threads[i].RunningClosers? <==> t.once.Running? && t.once.runner == i
      ensures t.threads[i].Closed? ==> t.once.Done?
    {
      if i < |s.threads| {
        assert s.threads[i].RunningClosers? <==> s.once.Running? && s.once.runner == i;
      }
    }
  }

  lemma SwapKept(s: Sys, a: Action)
    requires SwapInv(s) && Enabled(s, a)
    ensures SwapInv(Apply(s, a))
  {
  }

  lemma {:induction false} KeptAlong(s: Sys, all: seq<nat>, actions: seq<Action>, t: Sys)
    requires OnceInv(s, all) && SwapInv(s) && Leads(s, actions, t)
    ensures OnceInv(t, all) && SwapInv(t)
    decreases |actions|
  {
    if actions != [] {
      OnceKept(s, all, actions[0]);
      SwapKept(s, actions[0]);
      KeptAlong(Apply(s, actions[0]), all, actions[1..], t);
    }
  }

  /**
    In every reachable state: the closers run so far are the first ones, each once and in
    order; a Close that has returned means all have run; and unless a reload is between
    its two assignments under the lock, the agent is the current Agentfile's.
   */
  lemma Safety(st: Start, actions: seq<Action>, t: Sys)
    requires Leads(Init(st), actions, t)
    ensures t.ran <= st.closers
    ensures (exists i :: 0 <= i < |t.threads| && t.threads[i].Closed?) ==> t.ran == st.closers
    ensures t.lock.None? && t.agent.Some? ==> t.agent.value == t.agentfile
    ensures forall i, j :: 0 <= i < j < |t.threads| ==> !(HoldsLock(t.threads[i]) && HoldsLock(t.threads[j]))
  {
    KeptAlong(Init(st), st.closers, actions, t);
  }

  /** While some call is unfinished, some call can go on: neither the guard nor the lock is ever held in vain. */
  lemma Progress(st: Start, actions: seq<Action>, t: Sys, i: nat)
    requires Leads(Init(st), actions, t)
    requires i < |t.threads| && !Finished(t.threads[i])
    ensures exists j :: Enabled(t, Advance(j))
  {
    KeptAlong(Init(st), st.closers, actions, t);
    var j := if t.threads[i].Closing? && t.once.Running? then t.once.runner
             else if t.threads[i].Built? && t.lock.Some? then t.lock.value
             else i;
    assert Enabled(t, Advance(j));
  }

  /** Once nothing can go on, a single Close among the calls suffices for every closer to have run, once. */
  lemma Quiescence(st: Start, actions: seq<Action>, t: Sys)
    requires Leads(Init(st), actions, t)
    requires forall i :: !Enabled(t, Advance(i))
    ensures CallClose in actions || st.closed ==> t.ran == st.closers && t.closers == []
    ensures t.lock == None && (t.agent.Some? ==> t.agent.value == t.agentfile)
  {
    forall i | 0 <= i < |t.threads| ensures Finished(t.threads[i]) {
      if !Finished(t.threads[i]) {
        Progress(st, actions, t, i);
      }
    }
    KeptAlong(Init(st), st.closers, actions, t);
    if CallClose in actions {
      CloseIsThere(Init(st), actions, t);
    } else if st.closed {
      StaysDone(Init(st), actions, t);
    }
  }

  predicate OfClose(t: Thread) {
    t.Closing? || t.RunningClosers? || t.Closed?
  }

  lemma {:induction false} StaysOfClose(s: Sys, actions: seq<Action>, t: Sys, i: nat)
    requires Leads(s, actions, t) && i < |s.threads| && OfClose(s.threads[i])
    ensures i < |t.threads| && OfClose(t.threads[i])
    decreases |actions|
  {
    if actions != [] {
      StaysOfClose(Apply(s, actions[0]), actions[1..], t, i);
    }
  }

  lemma {:induction false} StaysDone(s: Sys, actions: seq<Action>, t: Sys)
    requires Leads(s, actions, t) && s.once.Done? && forall i :: 0 <= i < |s.threads| ==> !s.threads[i].RunningClosers?
    ensures t.once.Done?
    decreases |actions|
  {
    if actions != [] {
      StaysDone(Apply(s, actions[0]), actions[1..], t);
    }
  }

  lemma {:induction false} CloseIsThere(s: Sys, actions: seq<Action>, t: Sys)
    requires Leads(s, actions, t) && CallClose in actions
    ensures exists i :: 0 <= i < |t.threads| && OfClose(t.threads[i])
    decreases |actions|
  {
    var next := Apply(s, actions[0]);
    if actions[0].CallClose? {
      StaysOfClose(next, actions[1..], t, |s.threads|);
    } else {
      CloseIsThere(next, actions[1..], t);
    }
  }

  // ---- Runs end ----

  /** Steps a call can still take, not counting the closers it runs. */
  function Remaining(t: Thread): nat {
    match t
    case Closing => 2
    case RunningClosers => 1
    case Closed => 0
    case Reloading(_) => 5
    case Built(_) => 4
    case Locked(_) => 3
    case HalfSwapped(_) => 2
    case Swapped(_) => 1
    case Reloaded => 0
    case ReloadFailed => 0
  }

  /** What is left to do: the steps of the calls, and the closers that have not been run. */
  function Left(s: Sys, all: seq<nat>): int {
    Sum(Remaining, s.threads) + |all| - |s.ran|
  }

  predicate IsCall(a: Action) {
    a.CallClose? || a.CallReload?
  }

  function Calls(actions: seq<Action>): nat {
    if actions == [] then 0 else (if IsCall(actions[0]) then 1 else 0) + Calls(actions[1..])
  }

  /** An advance runs one closer, or brings the call itself at least one step on. */
  lemma AdvanceCosts(s: Sys, i: nat)
    requires Enabled(s, Advance(i))
    ensures var t := Apply(s, Advance(i));
            && |t.threads| == |s.threads| && t.threads == s.threads[i := t.threads[i]]
            && if |t.ran| == |s.ran| then Remaining(t.threads[i]) < Remaining(s.threads[i])
               else |t.ran| == |s.ran| + 1 && t.threads[i] == s.threads[i]
  {
  }

  lemma StepCosts(s: Sys, all: seq<nat>, a: Action)
    requires Enabled(s, a)
    ensures Left(Apply(s, a), all) <= Left(s, all) + if IsCall(a) then 5 else -1
  {
    match a
    case CallClose => SumSnoc(Remaining, s.threads, Closing);
    case CallReload(v) => SumSnoc(Remaining, s.threads, Reloading(v));
    case FailBuild(i) => SumUpdate(Remaining, s.threads, i, ReloadFailed);
    case Advance(i) =>
      AdvanceCosts(s, i);
      SumUpdate(Remaining, s.threads, i, Apply(s, a).threads[i]);
  }

  lemma {:induction false} Accounting(s: Sys, all: seq<nat>, actions: seq<Action>, t: Sys)
    requires Leads(s, actions, t)
    ensures |actions| - Calls(actions) + Left(t, all) <= Left(s, all) + 5 * Calls(actions)
    decreases |actions|
  {
    if actions != [] {
      StepCosts(s, all, actions[0]);
      Accounting(Apply(s, actions[0]), all, actions[1..], t);
    }
  }

  /** Finitely many calls take finitely many steps: at most five each besides being made, and one for each closer. */
  lemma RunsAreBounded(st: Start, actions: seq<Action>, t: Sys)
    requires Leads(Init(st), actions, t)
    ensures |actions| <= 6 * Calls(actions) + |st.closers|
  {
    KeptAlong(Init(st), st.closers, actions, t);
    Accounting(Init(st), st.closers, actions, t);
  }

  // ---- One call alone ----

  function Repeat(a: Action, n: nat): seq<Action> {
    seq(n, _ => a)
  }

  lemma LeadsOn(s: Sys, a: Action, n: nat, t: Sys)
    requires n > 0 && Enabled(s, a) && Leads(Apply(s, a), Repeat(a, n - 1), t)
    ensures Leads(s, Repeat(a, n), t)
  {
    assert Repeat(a, n)[1..] == Repeat(a, n - 1);
  }

  /** A call of Close that has entered the guard runs the closers that are left, in order. */
  lemma {:induction false} ClosersRun(s: Sys, i: nat, next: nat)
    requires i < |s.threads| && s.threads[i].RunningClosers? && s.once == Running(i, next) && next <= |s.closers|
    ensures Leads(s, Repeat(Advance(i), |s.closers| - next + 1),
                  s.(closers := [], once := Done, ran := s.ran + s.closers[next..], threads := s.threads[i := Closed]))
    decreases |s.closers| - next
  {
    var a := Advance(i);
    var t := Apply(s, a);
    if next < |s.closers| {
      ClosersRun(t, i, next + 1);
      Assoc(s.ran, [s.closers[next]], s.closers[next + 1..]);
      assert [s.closers[next]] + s.closers[next + 1..] == s.closers[next..];
    } else {
      NothingMore(s.ran);
      assert Leads(t, Repeat(a, 0), t);
    }
    LeadsOn(s, a, |s.closers| - next + 1,
            s.(closers := [], once := Done, ran := s.ran + s.closers[next..], threads := s.threads[i := Closed]));
  }

  /** Alone, the steps of one Close are the sequential Close: the first runs every closer, a later one does nothing. */
  lemma CloseAlone(s: Sys, i: nat)
    requires i < |s.threads| && s.threads[i].Closing?
    ensures s.once.Idle? ==>
              Leads(s, Repeat(Advance(i), |s.closers| + 2),
                    s.(closers := [], once := Done, ran := s.ran + s.closers, threads := s.threads[i := Closed]))
    ensures s.once.Done? ==> Leads(s, Repeat(Advance(i), 1), s.(threads := s.threads[i := Closed]))
  {
    var a := Advance(i);
    if s.once.Idle? {
      var t := Apply(s, a);
      ClosersRun(t, i, 0);
      assert s.closers[0..] == s.closers && t.threads[i := Closed] == s.threads[i := Closed];
      LeadsOn(s, a, |s.closers| + 2,
              s.(closers := [], once := Done, ran := s.ran + s.closers, threads := s.threads[i := Closed]));
    } else if s.once.Done? {
      var t := Apply(s, a);
      assert Leads(t, Repeat(a, 0), t);
      LeadsOn(s, a, 1, t);
    }
  }

  /** Alone, the steps of one Reload are the sequential Reload. */
  lemma ReloadAlone(s: Sys, i: nat, v: nat)
    requires i < |s.threads| && s.threads[i] == Reloading(v) && s.lock.None?
    ensures Leads(s, Repeat(Advance(i), 5), s.(agent := Some(v), agentfile := v, threads := s.threads[i := Reloaded]))
    ensures Leads(s, [FailBuild(i)], s.(threads := s.threads[i := ReloadFailed]))
  {
    var a := Advance(i);
    var s1 := Apply(s, a);
    var s2 := Apply(s1, a);
    var s3 := Apply(s2, a);
    var s4 := Apply(s3, a);
    var s5 := Apply(s4, a);
    assert s5.threads == s.threads[i := Reloaded];
    assert Leads(s5, Repeat(a, 0), s5);
    LeadsOn(s4, a, 1, s5);
    LeadsOn(s3, a, 2, s5);
    LeadsOn(s2, a, 3, s5);
    LeadsOn(s1, a, 4, s5);
    LeadsOn(s, a, 5, s5);
    assert [FailBuild(i)][1..] == [];
  }
}
