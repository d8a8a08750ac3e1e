/**
  The decorators around a model: logging inside, rate limiting outside. A model is
  what it would deliver to a consumer that never stops; a decorator hands it on.
 */
module Middleware {
  import opened PushIter
  import opened Seqs
  import opened Llm
  import opened Limiter

  // ---- Logging ----

  /** The summary line that is logged after an undisturbed turn. */
  datatype Summary = Summary(chunks: nat, usage: Option<UsageMetadata>, calls: seq<string>)

  /** The logger's variables: elements seen, the last response, errors logged. */
  datatype Log = Log(chunks: nat, last: Option<Response>, errors: nat)

  const NO_LOG := Log(0, None, 0)

  function Note(log: Log, i: Item): Log {
    Log(log.chunks + 1, if i.response.Some? then i.response else log.last,
        log.errors + if i.error.Some? then 1 else 0)
  }

  function LogStep(log: Log, i: Item): Step<Log, Item> {
    Step(Note(log, i), [i], false)
  }

  function CallNames(parts: seq<Part>): seq<string> {
    if parts == [] then []
    else
      var last := parts[|parts| - 1];
      CallNames(parts[..|parts| - 1]) + if last.CallPart? then [last.name] else []
  }

  function IsCall(): Part -> bool {
    (p: Part) => p.CallPart?
  }

  /** The call at position i is named after as many others as there are calls before it. */
  ghost predicate NamesCalls(names: seq<string>, parts: seq<Part>) {
    && |names| == Count(IsCall(), parts, |parts|)
    && forall i :: 0 <= i < |parts| && parts[i].CallPart? ==>
         Count(IsCall(), parts, i) < |names| && names[Count(IsCall(), parts, i)] == parts[i].name
  }

  lemma NamesNext(names: seq<string>, init: seq<Part>, last: Part)
    requires NamesCalls(names, init)
    ensures NamesCalls(names + if last.CallPart? then [last.name] else [], init + [last])
  {
    var parts := init + [last];
    Snoc(init, last);
    forall i | 0 <= i <= |init| ensures Count(IsCall(), parts, i) == Count(IsCall(), init, i) {
      CountInit(IsCall(), parts, i);
    }
  }

  lemma {:induction false} CallNamesExact(parts: seq<Part>)
    ensures NamesCalls(CallNames(parts), parts)
  {
    if parts != [] {
      CallNamesExact(parts[..|parts| - 1]);
      NamesNext(CallNames(parts[..|parts| - 1]), parts[..|parts| - 1], parts[|parts| - 1]);
      InitLast(parts);
    }
  }

  function Summarise(log: Log): Summary {
    var last := log.last;
    Summary(log.chunks,
            if last.Some? then last.value.usage else None,
            if last.Some? && last.value.content.Some? then CallNames(last.value.content.value) else [])
  }

  lemma {:induction false} LogPasses(items: seq<Item>)
    ensures var r := Run(LogStep, NO_LOG, items); r.out == items && !r.done
  {
    if items != [] {
      LogPasses(items[..|items| - 1]);
      InitLast(items);
    }
  }

  /** The errors among the items. */
  function Errors(items: seq<Item>): nat {
    if items == [] then 0 else Errors(items[..|items| - 1]) + if items[|items| - 1].error.Some? then 1 else 0
  }

  /** The last response among the items. */
  function LastResponse(items: seq<Item>): Option<Response> {
    if items == [] then None
    else if items[|items| - 1].response.Some? then items[|items| - 1].response
    else LastResponse(items[..|items| - 1])
  }

  lemma {:induction false} LogOf(items: seq<Item>)
    ensures Run(LogStep, NO_LOG, items).state == Log(|items|, LastResponse(items), Errors(items))
  {
    if items != [] {
      LogOf(items[..|items| - 1]);
      LogPasses(items[..|items| - 1]);
    }
  }

  /** The logger's variables after it has handed on these items. */
  function LogAfter(items: seq<Item>): Log {
    Run(LogStep, NO_LOG, items).state
  }

  lemma LogNext(items: seq<Item>, i: Item)
    ensures LogAfter(items + [i]) == Note(LogAfter(items), i)
  {
    Snoc(items, i);
    LogPasses(items);
  }

  /** The summary of these items: their number, the usage of the last response, and the functions it calls, in order. */
  ghost predicate Sums(s: Summary, items: seq<Item>) {
    var last := LastResponse(items);
    && s.chunks == |items|
    && s.usage == (if last.Some? then last.value.usage else None)
    && NamesCalls(s.calls, if last.Some? && last.value.content.Some? then last.value.content.value else [])
  }

  lemma SummaryExact(items: seq<Item>)
    ensures Sums(Summarise(LogAfter(items)), items)
  {
    LogOf(items);
    var last := LastResponse(items);
    if last.Some? && last.value.content.Some? {
      CallNamesExact(last.value.content.value);
    }
  }

  /**
    loggingModel: hands on the inner model's items, and logs one line for each error it
    hands on, and the summary only if it was neither stopped nor handed an error.
   */
  method Logged(inner: seq<Item>, sink: Sink<Item>) returns (errors: nat, summary: Option<Summary>)
    requires sink.Live() && sink.delivered == []
    modifies sink
    ensures IsCut(sink.delivered, inner, sink.wants)
    ensures errors == Errors(sink.delivered)
    ensures summary.Some? <==> sink.open && errors == 0
    ensures summary.Some? ==> Sums(summary.value, inner)
  {
    var lastResp: Option<Response>, chunks, hadError := None, 0, false;
    errors, summary := 0, None;
    LogOf([]);
    for i := 0 to |inner|
      invariant sink.Live() && sink.delivered == inner[..i]
      invariant LogAfter(inner[..i]) == Log(chunks, lastResp, errors) && (hadError <==> errors > 0)
    {
      var item := inner[i];
      LogNext(inner[..i], item);
      PrefixInit(inner, i);
      chunks := chunks + 1;
      if item.error.Some? {
        hadError := true;
        errors := errors + 1;
      }
      if item.response.Some? {
        lastResp := item.response;
      }
      var more := sink.Yield(item);
      if !more {
        LogOf(sink.delivered);
        StoppedIsCut(sink, inner);
        return;
      }
    }
    assert inner[..|inner|] == inner;
    LogOf(inner);
    LiveIsCut(sink, inner);
    if hadError {
      return;
    }
    SummaryExact(inner);
    summary := Some(Summarise(Log(chunks, lastResp, 0)));
  }

  // ---- Rate limiting ----

  function PassStep(s: (), i: Item): Step<(), Item> {
    Step(s, [i], false)
  }

  lemma {:induction false} PassPasses(items: seq<Item>)
    ensures var r := Run(PassStep, (), items); r.out == items && !r.done
  {
    if items != [] {
      PassPasses(items[..|items| - 1]);
      InitLast(items);
    }
  }

  /** What the limited model delivers: the inner model's items, or one error if no slot was acquired. */
  function Limited(acquired: bool, inner: seq<Item>): seq<Item> {
    if acquired then inner else [Failure("rate limit exceeded")]
  }

  /**
    rateLimitedModel: transparent when a slot is acquired, one error otherwise. On every
    exit the slot is back, whether the inner model ended or the consumer stopped.
   */
  method RateLimited(limiter: Limiter, send: bool, inner: seq<Item>, sink: Sink<Item>)
    requires limiter.Valid() && (send ==> limiter.slots < limiter.capacity)
    requires sink.Live() && sink.delivered == []
    modifies limiter, sink
    ensures IsCut(sink.delivered, Limited(send, inner), sink.wants)
    ensures !send ==> sink.delivered == [Item(None, Some("rate limit exceeded"))]
    ensures limiter.Valid() && limiter.slots == old(limiter.slots)
    ensures var s := old(limiter.Snapshot());
            limiter.Snapshot() == if send then s.(total := s.total + 1) else s.(dropped := s.dropped + 1)
  {
    var ok := limiter.Acquire(send);
    if !ok {
      YieldOnly(Failure("rate limit exceeded"), sink);
      return;
    }
    for i := 0 to |inner|
      invariant sink.Live() && sink.delivered == inner[..i]
      invariant limiter.Valid() && limiter.slots == old(limiter.slots) + 1
      invariant var s := old(limiter.Snapshot());
                limiter.Snapshot() == s.(active := s.active + 1, total := s.total + 1)
    {
      var more := sink.Yield(inner[i]);
      assert sink.delivered == inner[..i + 1];
      if !more {
        limiter.Release();
        StoppedIsCut(sink, inner);
        return;
      }
    }
    assert inner[..|inner|] == inner;
    LiveIsCut(sink, inner);
    limiter.Release();
  }
}
