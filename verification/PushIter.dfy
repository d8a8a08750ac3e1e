/**
  Go's push iterators (iter.Seq2): a producer calls `yield` once per element
  and must return as soon as `yield` answers false.

  A consumer is an arbitrary policy on what it has received so far. A producer
  that reads elements of its own is a machine: a state, and a step that may put
  out several elements and may finish. The lemmas here hold for any machine, so
  the event reader and both providers share them.
 */
module PushIter {
  import opened Seqs

  /** The consumer side of one `for range` loop. */
  class Sink<T> {
    /** Does the loop body go on, having received these elements (at least one)? */
    const wants: seq<T> -> bool
    var delivered: seq<T>
    var open: bool

    /** `yield` may still be called: it has never answered false. */
    ghost predicate Live()
      reads this
    {
      open && forall j :: 0 < j <= |delivered| ==> wants(delivered[..j])
    }

    /** `yield` has just answered false, for the first time. */
    ghost predicate Stopped()
      reads this
    {
      && |delivered| > 0 && !wants(delivered)
      && forall j :: 0 < j < |delivered| ==> wants(delivered[..j])
    }

    constructor (wants: seq<T> -> bool)
      ensures this.wants == wants && delivered == [] && Live()
    {
      this.wants := wants;
      delivered := [];
      open := true;
    }

    /** One call of `yield`. Its precondition is the iterator protocol. */
    method Yield(x: T) returns (more: bool)
      requires Live()
      modifies this
      ensures delivered == old(delivered) + [x]
      ensures more == wants(delivered) == open
      ensures if more then Live() else Stopped()
    {
      delivered := delivered + [x];
      more := wants(delivered);
      open := more;
      assert forall j :: 0 < j <= |old(delivered)| ==> delivered[..j] == old(delivered)[..j];
      assert delivered[..|delivered|] == delivered;
    }
  }

  /** r is what a consumer with policy `wants` receives of xs: all of it, or up to the first refusal. */
  ghost predicate IsCut<T>(r: seq<T>, xs: seq<T>, wants: seq<T> -> bool) {
    && r <= xs
    && (forall j :: 0 < j < |r| ==> wants(xs[..j]))
    && (|r| < |xs| ==> |r| > 0 && !wants(r))
  }

  /** A producer that returns when refused, having put out no more than `full`, delivers the cut. */
  lemma StoppedIsCut<T>(sink: Sink<T>, full: seq<T>)
    requires sink.Stopped() && sink.delivered <= full
    ensures IsCut(sink.delivered, full, sink.wants)
  {
    assert forall j :: 0 <= j <= |sink.delivered| ==> full[..j] == sink.delivered[..j];
  }

  /** A producer that is never refused delivers everything. */
  lemma LiveIsCut<T>(sink: Sink<T>, full: seq<T>)
    requires sink.Live() && sink.delivered == full
    ensures IsCut(sink.delivered, full, sink.wants)
  {
    assert forall j :: 0 < j < |full| ==> sink.wants(sink.delivered[..j]);
  }

  /** A producer of one element, whether the consumer wants more or not. */
  method YieldOnly<T>(x: T, sink: Sink<T>)
    requires sink.Live() && sink.delivered == []
    modifies sink
    ensures sink.delivered == [x] && IsCut(sink.delivered, [x], sink.wants)
  {
    var more := sink.Yield(x);
    if more {
      LiveIsCut(sink, [x]);
    } else {
      StoppedIsCut(sink, [x]);
    }
  }

  lemma CutUnique<T>(r: seq<T>, q: seq<T>, xs: seq<T>, wants: seq<T> -> bool)
    requires IsCut(r, xs, wants) && IsCut(q, xs, wants)
    ensures r == q
  {
    assert r == xs[..|r|] && q == xs[..|q|];
  }

  /** Once the consumer refuses, output it would have received later makes no difference. */
  lemma CutWithin<T>(r: seq<T>, few: seq<T>, many: seq<T>, wants: seq<T> -> bool, j: nat)
    requires few <= many && 0 < j <= |few| && !wants(few[..j])
    ensures IsCut(r, few, wants) <==> IsCut(r, many, wants)
  {
    assert forall i :: 0 <= i <= |few| ==> few[..i] == many[..i];
    if IsCut(r, few, wants) || IsCut(r, many, wants) {
      assert |r| <= j;
      assert |r| == j ==> r == few[..j];
    }
  }

  /** A consumer that never refuses receives everything. */
  lemma CutAll<T(!new)>(r: seq<T>, xs: seq<T>, wants: seq<T> -> bool)
    requires forall q: seq<T> :: wants(q)
    ensures IsCut(r, xs, wants) <==> r == xs
  {
  }

  /** What one input does to a machine: its new state, what it puts out, and whether it is done. */
  datatype Step<S, O> = Step(state: S, out: seq<O>, done: bool)

  function Then<S, E, O>(step: (S, E) -> Step<S, O>, r: Step<S, O>, e: E): Step<S, O> {
    if r.done then r
    else
      var q := step(r.state, e);
      Step(q.state, r.out + q.out, q.done)
  }

  /** A whole run: every input until the machine is done, with all it put out. */
  function Run<S, E, O>(step: (S, E) -> Step<S, O>, s: S, es: seq<E>): Step<S, O> {
    if es == [] then Step(s, [], false)
    else Then(step, Run(step, s, es[..|es| - 1]), es[|es| - 1])
  }

  lemma RunSnoc<S, E, O>(step: (S, E) -> Step<S, O>, s: S, es: seq<E>, k: nat)
    requires k < |es|
    ensures Run(step, s, es[..k + 1]) == Then(step, Run(step, s, es[..k]), es[k])
  {
    assert es[..k + 1][..k] == es[..k];
  }

  /** An input that puts out nothing leaves the output as it was. */
  lemma RunSilent<S, E, O>(step: (S, E) -> Step<S, O>, s: S, es: seq<E>)
    requires es != []
    requires step(Run(step, s, es[..|es| - 1]).state, es[|es| - 1]).out == []
    ensures Run(step, s, es).out == Run(step, s, es[..|es| - 1]).out
  {
    NothingMore(Run(step, s, es[..|es| - 1]).out);
  }

  /** Continue a run with more input. */
  function Resume<S, E, O>(step: (S, E) -> Step<S, O>, r: Step<S, O>, es: seq<E>): Step<S, O> {
    if r.done then r
    else
      var q := Run(step, r.state, es);
      Step(q.state, r.out + q.out, q.done)
  }

  lemma {:induction false} RunAppend<S, E, O>(step: (S, E) -> Step<S, O>, s: S, es: seq<E>, fs: seq<E>)
    ensures Run(step, s, es + fs) == Resume(step, Run(step, s, es), fs)
  {
    var r := Run(step, s, es);
    if fs == [] {
      NothingMore(es);
      NothingMore(r.out);
    } else {
      var gs := fs[..|fs| - 1];
      AppendInit(es, fs);
      RunAppend(step, s, es, gs);
      var q := Run(step, r.state, gs);
      Assoc(r.out, q.out, step(q.state, fs[|fs| - 1]).out);
    }
  }

  lemma RunOne<S, E, O>(step: (S, E) -> Step<S, O>, s: S, e: E)
    ensures Run(step, s, [e]) == step(s, e)
  {
    assert [e][..0] == [];
    NothingMore(step(s, e).out);
  }

  /** More input never takes back output; a finished machine ignores it. */
  lemma RunPrefix<S, E, O>(step: (S, E) -> Step<S, O>, s: S, es: seq<E>, k: nat)
    requires k <= |es|
    ensures Run(step, s, es[..k]).out <= Run(step, s, es).out
    ensures Run(step, s, es[..k]).done ==> Run(step, s, es) == Run(step, s, es[..k])
  {
    assert es == es[..k] + es[k..];
    RunAppend(step, s, es[..k], es[k..]);
  }

  lemma RunWithin<S, E, O>(step: (S, E) -> Step<S, O>, s: S, few: seq<E>, many: seq<E>)
    requires few <= many
    ensures Run(step, s, few).out <= Run(step, s, many).out
    ensures Run(step, s, few).done ==> Run(step, s, many) == Run(step, s, few)
  {
    assert many[..|few|] == few;
    RunPrefix(step, s, many, |few|);
  }

  /**
    The loop body of a machine, seen as the consumer of its own input: it asks for
    more exactly while the machine is not done and its own consumer still wants more.
   */
  predicate Asks<S, E, O>(step: (S, E) -> Step<S, O>, s: S, wants: seq<O> -> bool, es: seq<E>) {
    var r := Run(step, s, es);
    !r.done && forall j :: 0 < j <= |r.out| ==> wants(r.out[..j])
  }

  function Body<S, E, O>(step: (S, E) -> Step<S, O>, s: S, wants: seq<O> -> bool): seq<E> -> bool {
    es => Asks(step, s, wants, es)
  }

  /** The loop body has asked for more after each of the first i inputs. */
  ghost predicate Reading<S, E, O>(step: (S, E) -> Step<S, O>, s: S, wants: seq<O> -> bool, es: seq<E>, i: nat) {
    i <= |es| && forall j :: 0 <= j <= i ==> Asks(step, s, wants, es[..j])
  }

  /** Having given all it put out to a consumer that still wants more, the loop body goes on. */
  lemma ReadOn<S, E, O>(step: (S, E) -> Step<S, O>, s: S, es: seq<E>, i: nat, sink: Sink<O>)
    requires i < |es| && Reading(step, s, sink.wants, es, i) && sink.Live()
    requires !Run(step, s, es[..i + 1]).done && Run(step, s, es[..i + 1]).out == sink.delivered
    ensures Reading(step, s, sink.wants, es, i + 1)
  {
    assert Asks(step, s, sink.wants, es[..i + 1]);
  }

  /** The loop body that took input i returned: the machine was done, or the consumer refused. */
  ghost predicate Ended<S, E, O>(step: (S, E) -> Step<S, O>, s: S, es: seq<E>, i: nat, sink: Sink<O>)
    requires i < |es|
    reads sink
  {
    var r := Run(step, s, es[..i + 1]);
    if sink.open then sink.Live() && sink.delivered == r.out && r.done
    else sink.Stopped() && sink.delivered <= r.out
  }

  lemma EndedRefuses<S, E, O>(step: (S, E) -> Step<S, O>, s: S, es: seq<E>, i: nat, sink: Sink<O>)
    requires i < |es| && Ended(step, s, es, i, sink)
    ensures !Asks(step, s, sink.wants, es[..i + 1])
    ensures IsCut(sink.delivered, Run(step, s, es).out, sink.wants)
  {
    var r := Run(step, s, es[..i + 1]);
    RunPrefix(step, s, es, i + 1);
    if sink.open {
      LiveIsCut(sink, r.out);
    } else {
      StoppedIsCut(sink, Run(step, s, es).out);
      assert r.out[..|sink.delivered|] == sink.delivered;
    }
  }

  /** A loop body that returns has read the cut of its input; its consumer has the cut of its output. */
  lemma ReadStops<S, E, O>(step: (S, E) -> Step<S, O>, s: S, es: seq<E>, i: nat, sink: Sink<O>)
    requires i < |es| && Reading(step, s, sink.wants, es, i) && Ended(step, s, es, i, sink)
    ensures IsCut(es[..i + 1], es, Body(step, s, sink.wants))
    ensures IsCut(sink.delivered, Run(step, s, es).out, sink.wants)
  {
    EndedRefuses(step, s, es, i, sink);
  }

  /** A loop body that reads to the end of its input. */
  lemma ReadToEnd<S, E, O>(step: (S, E) -> Step<S, O>, s: S, es: seq<E>, sink: Sink<O>)
    requires Reading(step, s, sink.wants, es, |es|) && sink.Live()
    requires Run(step, s, es).out == sink.delivered
    ensures IsCut(es[..|es|], es, Body(step, s, sink.wants))
    ensures IsCut(sink.delivered, Run(step, s, es).out, sink.wants)
  {
    LiveIsCut(sink, sink.delivered);
    assert es[..|es|] == es;
  }

  /**
    Composition of two nested loops. If the upstream producer stops as soon as the
    machine's loop body refuses, the machine's consumer cannot tell: it receives
    exactly what it would have received had the machine been given all the input.
   */
  lemma NestedCut<S, E, O>(step: (S, E) -> Step<S, O>, s: S, es: seq<E>, read: seq<E>,
                           wants: seq<O> -> bool, r: seq<O>)
    requires IsCut(read, es, Body(step, s, wants))
    ensures IsCut(r, Run(step, s, read).out, wants) <==> IsCut(r, Run(step, s, es).out, wants)
  {
    var some, all := Run(step, s, read), Run(step, s, es);
    assert es[..|read|] == read;
    RunPrefix(step, s, es, |read|);
    if |read| == |es| {
      assert read == es;
    } else if !some.done {
      assert !Asks(step, s, wants, read);
      var j :| 0 < j <= |some.out| && !wants(some.out[..j]);
      CutWithin(r, some.out, all.out, wants, j);
    }
  }

  /** Input k is the first that finishes the machine, whatever its state. */
  ghost predicate FinishesFirst<S(!new), E, O>(step: (S, E) -> Step<S, O>, es: seq<E>, k: nat) {
    && k <= |es|
    && (forall i, t :: 0 <= i < k ==> !step(t, es[i]).done)
    && (k < |es| ==> forall t :: step(t, es[k]).done)
  }

  lemma {:induction false} RunsOn<S(!new), E, O>(step: (S, E) -> Step<S, O>, s: S, es: seq<E>)
    requires forall i, t :: 0 <= i < |es| ==> !step(t, es[i]).done
    ensures !Run(step, s, es).done
  {
    if es != [] {
      RunsOn(step, s, es[..|es| - 1]);
    }
  }

  lemma RunEndsAt<S, E, O>(step: (S, E) -> Step<S, O>, s: S, es: seq<E>, k: nat)
    requires k < |es| && !Run(step, s, es[..k]).done && step(Run(step, s, es[..k]).state, es[k]).done
    ensures Run(step, s, es).out == Run(step, s, es[..k]).out + step(Run(step, s, es[..k]).state, es[k]).out
  {
    RunSnoc(step, s, es, k);
    RunPrefix(step, s, es, k + 1);
  }

  /** The run up to the finishing input, and what that puts out; nothing later counts. */
  lemma RunFinishes<S(!new), E, O>(step: (S, E) -> Step<S, O>, s: S, es: seq<E>, k: nat)
    requires FinishesFirst(step, es, k)
    ensures var r := Run(step, s, es[..k]);
            && !r.done
            && (k < |es| ==> Run(step, s, es).out == r.out + step(r.state, es[k]).out)
            && (k == |es| ==> Run(step, s, es) == r)
  {
    RunsOn(step, s, es[..k]);
    if k < |es| {
      RunEndsAt(step, s, es, k);
    } else {
      assert es[..k] == es;
    }
  }

  /** What every step puts out, every run does. */
  lemma {:induction false} RunEvery<S(!new), E(!new), O>(step: (S, E) -> Step<S, O>, s: S, es: seq<E>, p: O -> bool)
    requires forall t, e, i :: 0 <= i < |step(t, e).out| ==> p(step(t, e).out[i])
    ensures forall i :: 0 <= i < |Run(step, s, es).out| ==> p(Run(step, s, es).out[i])
  {
    if es != [] {
      RunEvery(step, s, es[..|es| - 1], p);
    }
  }

  /** No element is a closing one. */
  ghost predicate Open<T>(xs: seq<T>, closing: T -> bool) {
    forall i :: 0 <= i < |xs| ==> !closing(xs[i])
  }

  lemma OpenAppend<T>(a: seq<T>, b: seq<T>, closing: T -> bool)
    ensures Open(a + b, closing) <==> Open(a, closing) && Open(b, closing)
  {
    forall i | 0 <= i < |a| ensures (a + b)[i] == a[i] {
    }
    forall i | 0 <= i < |b| ensures (a + b)[|a| + i] == b[i] {
    }
  }

  /** Nothing follows a closing element, so there is at most one. */
  ghost predicate ClosesOnce<T>(xs: seq<T>, closing: T -> bool) {
    forall i :: 0 <= i < |xs| - 1 ==> !closing(xs[i])
  }

  ghost predicate StepCloses<S, O>(q: Step<S, O>, closing: O -> bool) {
    && ClosesOnce(q.out, closing)
    && (!q.done ==> Open(q.out, closing))
  }

  /** A machine that puts out a closing element only as the last thing it does closes at most once. */
  lemma {:induction false} RunClosesOnce<S(!new), E(!new), O>(step: (S, E) -> Step<S, O>, s: S, es: seq<E>,
                                                              closing: O -> bool)
    requires forall t, e :: StepCloses(step(t, e), closing)
    ensures StepCloses(Run(step, s, es), closing)
  {
    if es != [] {
      var r, e := Run(step, s, es[..|es| - 1]), es[|es| - 1];
      RunClosesOnce(step, s, es[..|es| - 1], closing);
      assert StepCloses(step(r.state, e), closing);
    }
  }

  lemma CutClosesOnce<T>(r: seq<T>, xs: seq<T>, wants: seq<T> -> bool, closing: T -> bool)
    requires IsCut(r, xs, wants) && ClosesOnce(xs, closing)
    ensures ClosesOnce(r, closing)
  {
  }
}
