/**
  The whole stack of one streaming request: the event reader under a provider, under
  the logger, under the limiter, under a consumer that may stop at any element.
 */
module Stack {
  import opened PushIter
  import opened Seqs
  import opened Llm
  import opened Sse
  import opened Limiter
  import opened Middleware
  import opened SseFormat
  import Anthropic
  import OpenAI
  import A = AnthropicStream
  import O = OpenAIStream

  /** The logger's and the limiter's loop bodies, as consumers of what they wrap. */
  function LimiterBody(wants: seq<Item> -> bool): seq<Item> -> bool {
    Body(PassStep, (), wants)
  }

  function LoggerBody(wants: seq<Item> -> bool): seq<Item> -> bool {
    Body(LogStep, NO_LOG, LimiterBody(wants))
  }

  lemma CutThroughLimiter(full: seq<Item>, logged: seq<Item>, received: seq<Item>, wants: seq<Item> -> bool)
    requires IsCut(logged, full, LimiterBody(wants)) && IsCut(received, logged, wants)
    ensures IsCut(received, full, wants)
  {
    PassPasses(logged);
    PassPasses(full);
    NestedCut(PassStep, (), full, logged, wants, received);
  }

  lemma CutThroughLogger(full: seq<Item>, provided: seq<Item>, logged: seq<Item>, wants: seq<Item> -> bool)
    requires IsCut(provided, full, LoggerBody(wants)) && IsCut(logged, provided, LimiterBody(wants))
    ensures IsCut(logged, full, LimiterBody(wants))
  {
    LogPasses(provided);
    LogPasses(full);
    NestedCut(LogStep, NO_LOG, full, provided, LimiterBody(wants), logged);
  }

  /** The decorators are transparent: stopped or not, the consumer has the cut of the provider's output. */
  lemma DecoratorsTransparent(full: seq<Item>, provided: seq<Item>, logged: seq<Item>, received: seq<Item>,
                              wants: seq<Item> -> bool)
    requires IsCut(provided, full, LoggerBody(wants))
    requires IsCut(logged, provided, LimiterBody(wants))
    requires IsCut(received, logged, wants)
    ensures IsCut(received, full, wants)
  {
    CutThroughLogger(full, provided, logged, wants);
    CutThroughLimiter(full, logged, received, wants);
  }

  /** What the provider's output is, for either provider, given all the reader delivers. */
  datatype Provider = UsesAnthropic(a: Anthropic.Wire) | UsesOpenAI(o: OpenAI.Wire) {
    function Output(opening: Opening): seq<Item> {
      match this
      case UsesAnthropic(w) => Anthropic.StreamAll(w, opening)
      case UsesOpenAI(w) => OpenAI.StreamAll(w, opening)
    }

    /** The provider's loop body, as the consumer of the event reader. */
    function ReaderBody(wants: seq<Item> -> bool): seq<Delivery> -> bool {
      match this
      case UsesAnthropic(w) => Body(Anthropic.OnDelivery(w), Anthropic.INITIAL, wants)
      case UsesOpenAI(w) => Body(OpenAI.OnDelivery(w), OpenAI.INITIAL, wants)
    }
  }

  /** A provider that stops the reader early puts out, for its consumer, what it would have put out anyway. */
  lemma ReaderStopped(p: Provider, all: seq<Delivery>, read: seq<Delivery>, wants: seq<Item> -> bool, r: seq<Item>)
    requires IsCut(read, all, p.ReaderBody(wants))
    ensures IsCut(r, p.Output(Opened(read)), wants) <==> IsCut(r, p.Output(Opened(all)), wants)
  {
    match p
    case UsesAnthropic(w) => NestedCut(Anthropic.OnDelivery(w), Anthropic.INITIAL, all, read, wants, r);
    case UsesOpenAI(w) => NestedCut(OpenAI.OnDelivery(w), OpenAI.INITIAL, all, read, wants, r);
  }

  lemma OutputClosesOnce(p: Provider, opening: Opening)
    ensures ClosesOnce(p.Output(opening), Closing)
  {
    match p
    case UsesAnthropic(w) => Anthropic.StreamClosesOnce(w, opening);
    case UsesOpenAI(w) => OpenAI.StreamClosesOnce(w, opening);
  }

  /** A streaming request to the provider: refused, or answered with a body. */
  datatype Answer = Rejected(reason: string) | Streaming(body: Stream)

  function AllOf(answer: Answer): Opening {
    match answer
    case Rejected(reason) => Refused(reason)
    case Streaming(body) => Opened(ReadAll(body))
  }

  /** All that a request yields to a consumer that never stops. */
  function Everything(p: Provider, acquired: bool, answer: Answer): seq<Item> {
    Limited(acquired, p.Output(AllOf(answer)))
  }

  /** The opening gives the provider what it would have asked for of all there is. */
  ghost predicate Suffices(p: Provider, opening: Opening, answer: Answer, wants: seq<Item> -> bool) {
    match answer
    case Rejected(reason) => opening == Refused(reason)
    case Streaming(body) => opening.Opened? && IsCut(opening.deliveries, ReadAll(body), p.ReaderBody(wants))
  }

  /** The event reader, consumed by the provider's loop body. */
  method Open(p: Provider, answer: Answer, wants: seq<Item> -> bool) returns (opening: Opening)
    ensures Suffices(p, opening, answer, wants)
  {
    match answer {
      case Rejected(reason) =>
        opening := Refused(reason);
      case Streaming(body) =>
        var reader := new Sink<Delivery>(p.ReaderBody(wants));
        Read(body, reader);
        opening := Opened(reader.delivered);
    }
  }

  method Generate(p: Provider, opening: Opening, sink: Sink<Item>)
    requires sink.Live() && sink.delivered == []
    modifies sink
    ensures IsCut(sink.delivered, p.Output(opening), sink.wants)
  {
    match p {
      case UsesAnthropic(w) =>
        var _ := Anthropic.GenerateStreaming(w, opening, sink);
      case UsesOpenAI(w) =>
        var _ := OpenAI.GenerateStreaming(w, opening, sink);
    }
  }

  lemma ProviderCut(p: Provider, opening: Opening, answer: Answer, wants: seq<Item> -> bool, r: seq<Item>)
    requires Suffices(p, opening, answer, wants) && IsCut(r, p.Output(opening), wants)
    ensures IsCut(r, p.Output(AllOf(answer)), wants)
  {
    if answer.Streaming? {
      ReaderStopped(p, ReadAll(answer.body), opening.deliveries, wants, r);
    }
  }

  /**
    One request through the whole stack. Every loop body is the consumer of the loop it
    runs over, so each producer is stopped as soon as its own loop body returns. For
    every stream and every stopping point of the consumer: the consumer receives the cut
    of everything; nothing follows an error, a completed turn or its own refusal; and
    the slot is back.
   */
  method Serve(limiter: Limiter, send: bool, p: Provider, answer: Answer, sink: Sink<Item>)
    requires limiter.Valid() && (send ==> limiter.slots < limiter.capacity)
    requires sink.Live() && sink.delivered == []
    modifies limiter, sink
    ensures IsCut(sink.delivered, Everything(p, send, answer), sink.wants)
    ensures !send ==> sink.delivered == [Item(None, Some("rate limit exceeded"))]
    ensures send && answer.Rejected? ==> sink.delivered == [Item(None, Some(answer.reason))]
    ensures ClosesOnce(sink.delivered, Closing)
    ensures limiter.Valid() && limiter.slots == old(limiter.slots)
    ensures var s := old(limiter.Snapshot());
            limiter.Snapshot() == if send then s.(total := s.total + 1) else s.(dropped := s.dropped + 1)
  {
    if !send {
      RateLimited(limiter, false, [], sink);
    } else {
      var opening := Open(p, answer, LoggerBody(sink.wants));
      var provider := new Sink<Item>(LoggerBody(sink.wants));
      Generate(p, opening, provider);
      ProviderCut(p, opening, answer, LoggerBody(sink.wants), provider.delivered);
      var logger := new Sink<Item>(LimiterBody(sink.wants));
      var _, _ := Logged(provider.delivered, logger);
      RateLimited(limiter, true, logger.delivered, sink);
      DecoratorsTransparent(p.Output(AllOf(answer)), provider.delivered, logger.delivered, sink.delivered, sink.wants);
      OutputClosesOnce(p, AllOf(answer));
    }
    CutClosesOnce(sink.delivered, Everything(p, send, answer), sink.wants, Closing);
  }

  // ---- The same request, interleaved ----

  /** One delivery: each item it makes is logged and handed to the consumer before the next one is. */
  method Feed<S>(step: (S, Delivery) -> Step<S, Item>, st: S, d: Delivery, log: Log, sink: Sink<Item>)
    returns (next: S, more: bool, now: Log)
    requires sink.Live() && log == LogAfter(sink.delivered)
    modifies sink
    ensures now == LogAfter(sink.delivered)
    ensures var q := step(st, d);
            if more then next == q.state && sink.delivered == old(sink.delivered) + q.out && sink.Live() && !q.done
            else if sink.open then sink.delivered == old(sink.delivered) + q.out && sink.Live() && q.done
            else sink.Stopped() && sink.delivered <= old(sink.delivered) + q.out
  {
    var q := step(st, d);
    next, more, now := q.state, !q.done, log;
    for k := 0 to |q.out|
      invariant sink.Live() && sink.delivered == old(sink.delivered) + q.out[..k] && now == LogAfter(sink.delivered)
    {
      LogNext(sink.delivered, q.out[k]);
      now := Note(now, q.out[k]);
      PrefixInit(q.out, k);
      Assoc(old(sink.delivered), q.out[..k], [q.out[k]]);
      var wanted := sink.Yield(q.out[k]);
      if !wanted {
        more := false;
        return;
      }
    }
    assert q.out[..|q.out|] == q.out;
  }

  /** The state of the loops after these deliveries, if none of them has returned. */
  ghost predicate Going<S>(step: (S, Delivery) -> Step<S, Item>, s0: S, past: seq<Delivery>, st: S, sink: Sink<Item>)
    reads sink
  {
    Run(step, s0, past) == Step(st, sink.delivered, false) && sink.Live()
  }

  /** The loops have returned within these deliveries: at the end of the turn, or because the consumer refused. */
  ghost predicate Returned<S>(step: (S, Delivery) -> Step<S, Item>, s0: S, past: seq<Delivery>, sink: Sink<Item>)
    reads sink
  {
    var r := Run(step, s0, past);
    if sink.open then sink.Live() && sink.delivered == r.out && r.done else sink.Stopped() && sink.delivered <= r.out
  }

  lemma ReturnedWithin<S>(step: (S, Delivery) -> Step<S, Item>, s0: S, few: seq<Delivery>, many: seq<Delivery>,
                          sink: Sink<Item>)
    requires Returned(step, s0, few, sink) && few <= many
    ensures Returned(step, s0, many, sink)
  {
    RunWithin(step, s0, few, many);
  }

  lemma ReturnedIsCut<S>(step: (S, Delivery) -> Step<S, Item>, s0: S, all: seq<Delivery>, sink: Sink<Item>)
    requires Returned(step, s0, all, sink)
    ensures IsCut(sink.delivered, Run(step, s0, all).out, sink.wants)
  {
    if sink.open {
      LiveIsCut(sink, Run(step, s0, all).out);
    } else {
      StoppedIsCut(sink, Run(step, s0, all).out);
    }
  }

  /** The deliveries of one line, one after the other. */
  method FeedAll<S>(step: (S, Delivery) -> Step<S, Item>, ghost s0: S, ghost past: seq<Delivery>, st: S, ds: seq<Delivery>,
                    log: Log, sink: Sink<Item>)
    returns (next: S, more: bool, now: Log)
    requires Going(step, s0, past, st, sink) && log == LogAfter(sink.delivered)
    modifies sink
    ensures now == LogAfter(sink.delivered)
    ensures if more then Going(step, s0, past + ds, next, sink) else Returned(step, s0, past + ds, sink)
  {
    next, more, now := st, true, log;
    NothingMore(past);
    assert ds[..0] == [];
    for k := 0 to |ds|
      invariant Going(step, s0, past + ds[..k], next, sink) && now == LogAfter(sink.delivered) && more
    {
      PrefixInit(ds, k);
      Assoc(past, ds[..k], [ds[k]]);
      Snoc(past + ds[..k], ds[k]);
      next, more, now := Feed(step, next, ds[k], now, sink);
      if !more {
        ReturnedWithin(step, s0, past + ds[..k + 1], past + ds, sink);
        return;
      }
    }
    assert ds[..|ds|] == ds;
  }

  /** The state of all loops when line i is about to be read. */
  ghost predicate AtLine<S>(step: (S, Delivery) -> Step<S, Item>, s0: S, lines: seq<string>, i: nat,
                            event: Event, past: seq<Delivery>, st: S, sink: Sink<Item>)
    reads sink
  {
    && i <= |lines| && Run(ReadLine, NO_EVENT, lines[..i]) == Step(event, past, false)
    && Going(step, s0, past, st, sink)
  }

  /** After the first n lines the provider's loop still goes on, and so does the consumer. */
  ghost predicate WantsLine<S>(step: (S, Delivery) -> Step<S, Item>, s0: S, lines: seq<string>, wants: seq<Item> -> bool,
                               n: nat)
  {
    n <= |lines| && Asks(step, s0, wants, Run(ReadLine, NO_EVENT, lines[..n]).out)
  }

  /** All of the first n lines were wanted. */
  ghost predicate AllWanted<S>(step: (S, Delivery) -> Step<S, Item>, s0: S, lines: seq<string>, wants: seq<Item> -> bool,
                               n: nat)
  {
    forall k :: 0 <= k < n ==> WantsLine(step, s0, lines, wants, k)
  }

  lemma GoingWants<S>(step: (S, Delivery) -> Step<S, Item>, s0: S, lines: seq<string>, i: nat,
                      event: Event, past: seq<Delivery>, st: S, sink: Sink<Item>)
    requires AtLine(step, s0, lines, i, event, past, st, sink) && AllWanted(step, s0, lines, sink.wants, i)
    ensures AllWanted(step, s0, lines, sink.wants, i + 1)
  {
    assert WantsLine(step, s0, lines, sink.wants, i);
  }

  /** One line, the event it completes, and all that follows from that. */
  method TakeLine<S>(step: (S, Delivery) -> Step<S, Item>, ghost s0: S, scanned: Scanned, i: nat,
                     event: Event, ghost past: seq<Delivery>, st: S, log: Log, sink: Sink<Item>)
    returns (pending: Event, ghost sent: seq<Delivery>, next: S, more: bool, now: Log)
    requires i < |scanned.lines| && AtLine(step, s0, scanned.lines, i, event, past, st, sink)
    requires log == LogAfter(sink.delivered)
    modifies sink
    ensures now == LogAfter(sink.delivered)
    ensures if more then AtLine(step, s0, scanned.lines, i + 1, pending, sent, next, sink)
            else Returned(step, s0, ReadLines(scanned), sink)
  {
    var q := ReadLine(event, scanned.lines[i]);
    AfterLine(scanned, i, event, past);
    next, more, now := FeedAll(step, s0, past, st, q.out, log, sink);
    pending, sent := q.state, past + q.out;
    if !more {
      ReturnedWithin(step, s0, sent, ReadLines(scanned), sink);
    }
  }

  /** The end of the input: what is pending is flushed. */
  method TakeEnd<S>(step: (S, Delivery) -> Step<S, Item>, ghost s0: S, scanned: Scanned,
                    event: Event, ghost past: seq<Delivery>, st: S, log: Log, sink: Sink<Item>)
    returns (now: Log)
    requires AtLine(step, s0, scanned.lines, |scanned.lines|, event, past, st, sink) && log == LogAfter(sink.delivered)
    modifies sink
    ensures now == LogAfter(sink.delivered)
    ensures IsCut(sink.delivered, Run(step, s0, ReadLines(scanned)).out, sink.wants)
  {
    assert scanned.lines[..|scanned.lines|] == scanned.lines;
    var _, m, l := FeedAll(step, s0, past, st, Flush(event, scanned.failed), log, sink);
    now := l;
    if m {
      LiveIsCut(sink, Run(step, s0, ReadLines(scanned)).out);
    } else {
      ReturnedIsCut(step, s0, ReadLines(scanned), sink);
    }
  }

  /**
    The loops interleaved as they run: a line is read, the provider takes the event it
    completes, and each item goes through the logger and the limiter to the consumer
    before anything else is done. The consumer receives the same cut as from the loops one
    by one, and no line is read that anyone still running did not ask for.
   */
  method Interleaved<S>(step: (S, Delivery) -> Step<S, Item>, s0: S, body: Stream, sink: Sink<Item>)
    returns (read: nat, log: Log)
    requires sink.Live() && sink.delivered == []
    modifies sink
    ensures IsCut(sink.delivered, Run(step, s0, ReadAll(body)).out, sink.wants)
    ensures log == LogAfter(sink.delivered)
    ensures AllWanted(step, s0, Scan(body).lines, sink.wants, read)
  {
    var scanned := Scan(body);
    var event, st, more := NO_EVENT, s0, true;
    ghost var past: seq<Delivery> := [];
    read, log := 0, NO_LOG;
    while read < |scanned.lines|
      invariant AtLine(step, s0, scanned.lines, read, event, past, st, sink) && log == LogAfter(sink.delivered)
      invariant AllWanted(step, s0, scanned.lines, sink.wants, read)
    {
      GoingWants(step, s0, scanned.lines, read, event, past, st, sink);
      event, past, st, more, log := TakeLine(step, s0, scanned, read, event, past, st, log, sink);
      read := read + 1;
      if !more {
        ReturnedIsCut(step, s0, ReadAll(body), sink);
        return;
      }
    }
    log := TakeEnd(step, s0, scanned, event, past, st, log, sink);
  }

  /**
    An admitted request of either provider, interleaved: the slot is taken before anything
    is read and held until the last loop has returned, and what the consumer receives is
    what Serve delivers.
   */
  method ServeInterleaved(limiter: Limiter, p: Provider, body: Stream, sink: Sink<Item>)
    requires limiter.Valid() && limiter.slots < limiter.capacity
    requires sink.Live() && sink.delivered == []
    modifies limiter, sink
    ensures IsCut(sink.delivered, Everything(p, true, Streaming(body)), sink.wants)
    ensures ClosesOnce(sink.delivered, Closing)
    ensures limiter.Valid() && limiter.slots == old(limiter.slots)
    ensures var s := old(limiter.Snapshot()); limiter.Snapshot() == s.(total := s.total + 1)
  {
    var _ := limiter.Acquire(true);
    match p {
      case UsesAnthropic(w) =>
        var _, _ := Interleaved(Anthropic.OnDelivery(w), Anthropic.INITIAL, body, sink);
      case UsesOpenAI(w) =>
        var _, _ := Interleaved(OpenAI.OnDelivery(w), OpenAI.INITIAL, body, sink);
    }
    limiter.Release();
    OutputClosesOnce(p, Opened(ReadAll(body)));
    CutClosesOnce(sink.delivered, Everything(p, true, Streaming(body)), sink.wants, Closing);
  }

  // ---- Answers through the whole stack ----

  /** What any consumer that never stops receives of an admitted request. */
  ghost predicate Receives(p: Provider, body: Stream, received: seq<Item>) {
    exists wants: seq<Item> -> bool ::
      (forall q: seq<Item> :: wants(q)) && IsCut(received, Everything(p, true, Streaming(body)), wants)
  }

  lemma ReceivesAll(p: Provider, body: Stream, received: seq<Item>)
    requires Receives(p, body, received)
    ensures received == p.Output(Opened(ReadAll(body)))
  {
    var wants: seq<Item> -> bool :|
      (forall q: seq<Item> :: wants(q)) && IsCut(received, Everything(p, true, Streaming(body)), wants);
    CutAll(received, Everything(p, true, Streaming(body)), wants);
  }

  /** An Anthropic answer reaches a consumer that never stops as the answer of the one-shot conversion. */
  lemma AnthropicAnswer(w: Anthropic.Wire, enc: A.Encoder, ps: seq<A.Piece>, t: Anthropic.MessageDelta,
                        ms: seq<Anthropic.Message>, more: seq<Anthropic.Message>, ls: seq<Line>, received: seq<Item>)
    requires A.Faithful(w, enc) && A.Transmits(ls, enc, ms + more)
    requires A.AllWellFormed(ps) && A.Core(ms) == A.TurnMessages(ps, t)
    ensures Receives(UsesAnthropic(w), Stream(Assemble(ls), false), received) ==>
              (A.Agrees(received, A.SyncOf(ps, t)) <==> A.AllSpell(w, ps))
  {
    if Receives(UsesAnthropic(w), Stream(Assemble(ls), false), received) {
      ReceivesAll(UsesAnthropic(w), Stream(Assemble(ls), false), received);
      A.EndToEnd(w, enc, ps, t, ms, more, ls);
    }
  }

  /** An OpenAI answer likewise, unless it has both text and calls or the usage comes late. */
  lemma OpenAIAnswer(w: OpenAI.Wire, encode: OpenAI.StreamChunk -> string, cs: seq<OpenAI.StreamChunk>, k: nat,
                     ch: OpenAI.Choice, usage: Option<OpenAI.Usage>, more: seq<OpenAI.Message>, ls: seq<Line>,
                     received: seq<Item>)
    requires O.Faithful(w, encode) && O.Transmits(ls, encode, O.Messages(cs) + more)
    requires O.Fragmented(cs, k, ch)
    ensures Receives(UsesOpenAI(w), Stream(Assemble(ls), false), received) ==> O.Rebuilds(w, received, cs, k, ch, usage)
  {
    if Receives(UsesOpenAI(w), Stream(Assemble(ls), false), received) {
      ReceivesAll(UsesOpenAI(w), Stream(Assemble(ls), false), received);
      O.EndToEnd(w, encode, cs, k, ch, usage, more, ls);
    }
  }
}
