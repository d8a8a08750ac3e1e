/**
  The OpenAI provider: its stream of chunks folded into responses, and its
  one-shot response converted at once.
 */
module OpenAI {
  import opened PushIter
  import opened Seqs
  import opened Llm
  import opened Sse

  // ---- Wire types ----

  datatype Usage = Usage(prompt: int, completion: int, total: int)

  datatype CallDelta = CallDelta(index: nat, id: string, name: string, arguments: string)

  datatype StreamChoice = StreamChoice(content: string, calls: seq<CallDelta>, finish: Option<string>)

  datatype StreamChunk = StreamChunk(choices: seq<StreamChoice>, usage: Option<Usage>)

  /** JSON decoding of a chunk and of call arguments; None is a decoding error. */
  datatype Wire = Wire(chunk: string -> Option<StreamChunk>, json: string -> Option<Json>)

  datatype Message = Chunked(c: StreamChunk) | EndMark | Malformed | Broken

  function Decode(w: Wire, d: Delivery): Message {
    if d.Lost? then Broken
    else if d.event.data == "[DONE]" then EndMark
    else match w.chunk(d.event.data) case Some(c) => Chunked(c) case None => Malformed
  }

  // ---- Streaming ----

  datatype ToolCall = ToolCall(id: string, name: string, arguments: string)

  const NO_CALL := ToolCall("", "", "")

  datatype State = State(calls: seq<ToolCall>, usage: Option<Usage>)

  const INITIAL := State([], None)

  function MapFinishReason(reason: string): FinishReason {
    if reason == "stop" then Stop
    else if reason == "tool_calls" then Stop
    else if reason == "length" then MaxTokens
    else if reason == "content_filter" then Safety
    else Stop
  }

  /** A finish reason in terms of the server's word for it. */
  ghost predicate FinishesAs(finish: FinishReason, reason: string) {
    && (finish.MaxTokens? <==> reason == "length")
    && (finish.Safety? <==> reason == "content_filter")
    && (finish.Stop? <==> reason != "length" && reason != "content_filter")
  }

  function Metadata(usage: Option<Usage>): Option<UsageMetadata> {
    match usage
    case None => None
    case Some(u) => Some(UsageMetadata(ToInt32(u.prompt), ToInt32(u.completion), ToInt32(u.total)))
  }

  /** The usage in 32 bits. */
  ghost predicate Reports(reported: Option<UsageMetadata>, usage: Option<Usage>) {
    && (reported.Some? <==> usage.Some?)
    && (usage.Some? ==>
          var u, r := usage.value, reported.value;
          r.prompt == ToInt32(u.prompt) && r.candidates == ToInt32(u.completion) && r.total == ToInt32(u.total))
  }

  /** The usage is reported as counted exactly if its three counts fit 32 bits. */
  lemma UsageExact(u: Usage)
    ensures Metadata(Some(u)) == Some(UsageMetadata(u.prompt, u.completion, u.total)) <==>
            FitsInt32(u.prompt) && FitsInt32(u.completion) && FitsInt32(u.total)
  {
  }

  function Update(call: ToolCall, d: CallDelta): ToolCall {
    ToolCall(if d.id != "" then d.id else call.id, if d.name != "" then d.name else call.name,
             call.arguments + d.arguments)
  }

  function Accumulate(calls: seq<ToolCall>, d: CallDelta): (r: seq<ToolCall>)
    ensures d.index < |r|
  {
    var grown := Grow(calls, d.index, NO_CALL);
    grown[d.index := Update(grown[d.index], d)]
  }

  function AccumulateAll(calls: seq<ToolCall>, ds: seq<CallDelta>): seq<ToolCall> {
    if ds == [] then calls else Accumulate(AccumulateAll(calls, ds[..|ds| - 1]), ds[|ds| - 1])
  }

  function CallPartOf(w: Wire, call: ToolCall): Part {
    CallPart(call.name, ObjectOf(w.json(call.arguments)))
  }

  function CallParts(w: Wire, calls: seq<ToolCall>): seq<Part> {
    if calls == [] then [] else CallParts(w, calls[..|calls| - 1]) + [CallPartOf(w, calls[|calls| - 1])]
  }

  function FinalOf(w: Wire, st: State, reason: string): Item {
    Reply(Response(if |st.calls| > 0 then Some(CallParts(w, st.calls)) else None,
                   true, MapFinishReason(reason), Metadata(st.usage)))
  }

  function TextOf(c: StreamChoice): seq<Item> {
    if c.content != "" then [Chunk(TextPart(c.content))] else []
  }

  function HandleChoice(w: Wire, st: State, c: StreamChoice): Step<State, Item> {
    var next := st.(calls := AccumulateAll(st.calls, c.calls));
    match c.finish
    case None => Step(next, TextOf(c), false)
    case Some(reason) => Step(next, TextOf(c) + [FinalOf(w, next, reason)], true)
  }

  function WithUsage(st: State, c: StreamChunk): State {
    st.(usage := if c.usage.Some? then c.usage else st.usage)
  }

  function Handle(w: Wire, st: State, m: Message): Step<State, Item> {
    match m
    case Broken => Step(st, [Failure("reading openai stream")], true)
    case EndMark => Step(st, [], true)
    case Malformed => Step(st, [Failure("parsing openai stream chunk")], true)
    case Chunked(c) =>
      var next := WithUsage(st, c);
      if c.choices == [] then Step(next, [], false) else HandleChoice(w, next, c.choices[0])
  }

  function OnMessage(w: Wire): (State, Message) -> Step<State, Item> {
    (st, m) => Handle(w, st, m)
  }

  function OnDelivery(w: Wire): (State, Delivery) -> Step<State, Item> {
    (st, d) => Handle(w, st, Decode(w, d))
  }

  /** All that a consumer that never stops receives. */
  function StreamAll(w: Wire, opening: Opening): seq<Item> {
    match opening
    case Refused(reason) => [Failure(reason)]
    case Opened(ds) => Run(OnDelivery(w), INITIAL, ds).out
  }

  /** The body of the loop over the events: the variables it captures, and one iteration. */
  class LoopBody {
    const w: Wire
    const sink: Sink<Item>
    var toolCalls: seq<ToolCall>
    var finalUsage: Option<Usage>

    function Current(): State
      reads this
    {
      State(toolCalls, finalUsage)
    }

    constructor (w: Wire, sink: Sink<Item>)
      ensures this.w == w && this.sink == sink && Current() == INITIAL
    {
      this.w, this.sink := w, sink;
      toolCalls, finalUsage := [], None;
    }

    /** The inner loop over the call deltas of one chunk. */
    method TakeCalls(ds: seq<CallDelta>)
      modifies this`toolCalls
      ensures toolCalls == AccumulateAll(old(toolCalls), ds)
    {
      for i := 0 to |ds|
        invariant toolCalls == AccumulateAll(old(toolCalls), ds[..i])
      {
        assert ds[..i + 1][..i] == ds[..i];
        var d := ds[i];
        ghost var before := toolCalls;
        while |toolCalls| <= d.index
          invariant Grow(toolCalls, d.index, NO_CALL) == Grow(before, d.index, NO_CALL)
        {
          toolCalls := toolCalls + [NO_CALL];
        }
        var call := toolCalls[d.index];
        if d.id != "" {
          call := call.(id := d.id);
        }
        if d.name != "" {
          call := call.(name := d.name);
        }
        call := call.(arguments := call.arguments + d.arguments);
        toolCalls := toolCalls[d.index := call];
      }
      assert ds[..|ds|] == ds;
    }

    /** The loop that builds the final content. */
    method BuildParts() returns (parts: seq<Part>)
      ensures parts == CallParts(w, toolCalls)
    {
      parts := [];
      for i := 0 to |toolCalls|
        invariant parts == CallParts(w, toolCalls[..i])
      {
        assert toolCalls[..i + 1][..i] == toolCalls[..i];
        parts := parts + [CallPartOf(w, toolCalls[i])];
      }
      assert toolCalls[..|toolCalls|] == toolCalls;
    }

    method TakeChoice(c: StreamChoice) returns (more: bool)
      requires sink.Live()
      modifies this`toolCalls, sink
      ensures var q := HandleChoice(w, old(Current()), c);
              if more then
                Current() == q.state && sink.delivered == old(sink.delivered) + q.out && sink.Live() && !q.done
              else if sink.open then
                sink.delivered == old(sink.delivered) + q.out && sink.Live() && q.done
              else
                sink.Stopped() && sink.delivered <= old(sink.delivered) + q.out
    {
      if c.content != "" {
        more := sink.Yield(Chunk(TextPart(c.content)));
        if !more {
          return;
        }
      }
      TakeCalls(c.calls);
      if c.finish.Some? {
        var content: Option<seq<Part>> := None;
        if |toolCalls| > 0 {
          var parts := BuildParts();
          content := Some(parts);
        }
        var final := Response(content, true, MapFinishReason(c.finish.value), Metadata(finalUsage));
        var _ := sink.Yield(Reply(final));
        return false;
      }
      more := true;
    }

    /** One event. The answer is whether the loop goes on. */
    method Take(d: Delivery) returns (more: bool)
      requires sink.Live()
      modifies this, sink
      ensures var q := Handle(w, old(Current()), Decode(w, d));
              if more then
                Current() == q.state && sink.delivered == old(sink.delivered) + q.out && sink.Live() && !q.done
              else if sink.open then
                sink.delivered == old(sink.delivered) + q.out && sink.Live() && q.done
              else
                sink.Stopped() && sink.delivered <= old(sink.delivered) + q.out
    {
      match Decode(w, d) {
        case Broken =>
          var _ := sink.Yield(Failure("reading openai stream"));
          more := false;
        case EndMark =>
          more := false;
        case Malformed =>
          var _ := sink.Yield(Failure("parsing openai stream chunk"));
          more := false;
        case Chunked(c) =>
          if c.usage.Some? {
            finalUsage := c.usage;
          }
          if |c.choices| == 0 {
            more := true;
          } else {
            more := TakeChoice(c.choices[0]);
          }
      }
    }
  }

  /**
    The streaming iterator. Besides what it yields, `read` is how many deliveries its
    loop body takes before it returns: the event reader is stopped there.
   */
  method GenerateStreaming(w: Wire, opening: Opening, sink: Sink<Item>) returns (read: nat)
    requires sink.Live() && sink.delivered == []
    modifies sink
    ensures IsCut(sink.delivered, StreamAll(w, opening), sink.wants)
    ensures opening.Refused? ==> sink.delivered == [Item(None, Some(opening.reason))]
    ensures opening.Opened? ==> read <= |opening.deliveries|
    ensures opening.Opened? ==>
              IsCut(opening.deliveries[..read], opening.deliveries, Body(OnDelivery(w), INITIAL, sink.wants))
  {
    read := 0;
    if opening.Refused? {
      YieldOnly(Failure(opening.reason), sink);
      return;
    }
    var ds := opening.deliveries;
    ghost var step := OnDelivery(w);
    var body := new LoopBody(w, sink);
    while read < |ds|
      invariant read <= |ds| && sink.Live() && body.sink == sink && body.w == w
      invariant Run(step, INITIAL, ds[..read]) == Step(body.Current(), sink.delivered, false)
      invariant Reading(step, INITIAL, sink.wants, ds, read)
    {
      RunSnoc(step, INITIAL, ds, read);
      var more := body.Take(ds[read]);
      if !more {
        ReadStops(step, INITIAL, ds, read, sink);
        read := read + 1;
        return;
      }
      ReadOn(step, INITIAL, ds, read, sink);
      read := read + 1;
    }
    assert ds[..read] == ds;
    ReadToEnd(step, INITIAL, ds, sink);
  }

  // ---- The one-shot response ----

  datatype SyncMessage = SyncMessage(content: string, calls: seq<ToolCall>)

  datatype Choice = Choice(message: SyncMessage, finish: string)

  datatype ChatResponse = ChatResponse(choices: seq<Choice>, usage: Option<Usage>)

  /** One function call for each call, by name and with the arguments it spells. */
  ghost predicate PartsFit(w: Wire, parts: seq<Part>, calls: seq<ToolCall>) {
    |parts| == |calls| &&
    forall i :: 0 <= i < |calls| ==> parts[i] == CallPart(calls[i].name, ObjectOf(w.json(calls[i].arguments)))
  }

  lemma {:induction false} CallPartsFit(w: Wire, calls: seq<ToolCall>)
    ensures PartsFit(w, CallParts(w, calls), calls)
  {
    if calls != [] {
      CallPartsFit(w, calls[..|calls| - 1]);
    }
  }

  function SyncParts(w: Wire, m: SyncMessage): seq<Part> {
    if |m.calls| > 0 then CallParts(w, m.calls)
    else if m.content != "" then [TextPart(m.content)]
    else []
  }

  function SyncResponse(w: Wire, resp: ChatResponse): Response {
    if resp.choices == [] then Response(None, true, Stop, None)
    else
      var ch := resp.choices[0];
      Response(Some(SyncParts(w, ch.message)), true, MapFinishReason(ch.finish), Metadata(resp.usage))
  }

  method ConvertSyncResponse(w: Wire, resp: ChatResponse) returns (r: Response)
    ensures r == SyncResponse(w, resp)
    ensures resp.choices == [] ==> r.content.None? && r.turnComplete && r.finish.Stop? && r.usage.None?
    ensures resp.choices != [] ==> r.content.Some? && r.turnComplete && Reports(r.usage, resp.usage)
    ensures resp.choices != [] ==>
              var m, parts := resp.choices[0].message, r.content.value;
              && FinishesAs(r.finish, resp.choices[0].finish)
              && if m.calls != [] then PartsFit(w, parts, m.calls)
                 else parts == if m.content == "" then [] else [TextPart(m.content)]
  {
    if |resp.choices| == 0 {
      return Response(None, true, Stop, None);
    }
    var ch := resp.choices[0];
    CallPartsFit(w, ch.message.calls);
    var parts: seq<Part> := [];
    if |ch.message.calls| > 0 {
      var calls := ch.message.calls;
      for i := 0 to |calls|
        invariant parts == CallParts(w, calls[..i])
      {
        assert calls[..i + 1][..i] == calls[..i];
        parts := parts + [CallPartOf(w, calls[i])];
      }
      assert calls[..|calls|] == calls;
    } else if ch.message.content != "" {
      parts := [TextPart(ch.message.content)];
    }
    r := Response(Some(parts), true, MapFinishReason(ch.finish), Metadata(resp.usage));
  }

  // ---- Protocol ----

  lemma HandleCloses(w: Wire, st: State, m: Message)
    ensures StepCloses(Handle(w, st, m), Closing)
  {
  }

  /** In every stream nothing follows an error or the response that completes the turn. */
  lemma StreamClosesOnce(w: Wire, opening: Opening)
    ensures ClosesOnce(StreamAll(w, opening), Closing)
  {
    if opening.Opened? {
      forall st, d ensures StepCloses(OnDelivery(w)(st, d), Closing) {
        HandleCloses(w, st, Decode(w, d));
      }
      RunClosesOnce(OnDelivery(w), INITIAL, opening.deliveries, Closing);
    }
  }

  lemma HandleItems(w: Wire, st: State, m: Message)
    ensures forall i :: 0 <= i < |Handle(w, st, m).out| ==> IsTurnItem(Handle(w, st, m).out[i])
  {
  }

  /** What the stream yields is chunks, errors and completions, each as it should be. */
  lemma StreamItems(w: Wire, ds: seq<Delivery>)
    ensures forall i :: 0 <= i < |StreamAll(w, Opened(ds))| ==> IsTurnItem(StreamAll(w, Opened(ds))[i])
  {
    forall st, d, i | 0 <= i < |OnDelivery(w)(st, d).out| ensures IsTurnItem(OnDelivery(w)(st, d).out[i]) {
      HandleItems(w, st, Decode(w, d));
    }
    RunEvery(OnDelivery(w), INITIAL, ds, IsTurnItem);
  }

  // ---- How a stream ends, in terms of what was read ----

  /** The event's data is neither the end mark nor a chunk. */
  predicate Undecodable(w: Wire, e: Event) {
    e.data != "[DONE]" && w.chunk(e.data).None?
  }

  /** The event is a chunk whose first choice has a finish reason. */
  predicate Finishing(w: Wire, e: Event) {
    && e.data != "[DONE]" && w.chunk(e.data).Some?
    && (var c := w.chunk(e.data).value; c.choices != [] && c.choices[0].finish.Some?)
  }

  /** The loop returns at this delivery: a read error, the end mark, an undecodable chunk or a finish reason. */
  predicate Last(w: Wire, d: Delivery) {
    d.Lost? || d.event.data == "[DONE]" || Undecodable(w, d.event) || Finishing(w, d.event)
  }

  /** The first delivery at which the loop returns; the number of deliveries if it never does. */
  function FirstLast(w: Wire, ds: seq<Delivery>): (k: nat)
    ensures k <= |ds| && (k < |ds| ==> Last(w, ds[k]))
    ensures forall i :: 0 <= i < k ==> !Last(w, ds[i])
  {
    if ds == [] || Last(w, ds[0]) then 0 else 1 + FirstLast(w, ds[1..])
  }

  /** What the consumer is told at such a delivery: the error in words, or how the turn finished; of the end mark nothing. */
  ghost predicate Tells(w: Wire, d: Delivery, out: seq<Item>)
    requires Last(w, d)
  {
    if d.Lost? then out == [Item(None, Some("reading openai stream"))]
    else if d.event.data == "[DONE]" then out == []
    else if Undecodable(w, d.event) then out == [Item(None, Some("parsing openai stream chunk"))]
    else
      && out != [] && IsCompletion(out[|out| - 1])
      && FinishesAs(out[|out| - 1].response.value.finish, w.chunk(d.event.data).value.choices[0].finish.value)
  }

  lemma LastStep(w: Wire, st: State, d: Delivery)
    ensures var q := OnDelivery(w)(st, d);
            && (q.done <==> Last(w, d))
            && (Last(w, d) ==> Tells(w, d, q.out) && (!Open(q.out, Closing) <==> d.Lost? || d.event.data != "[DONE]"))
            && (!Last(w, d) ==> Open(q.out, Closing))
  {
    var q := OnDelivery(w)(st, d);
    if Last(w, d) && (d.Lost? || d.event.data != "[DONE]") {
      assert Closing(q.out[|q.out| - 1]);
    }
  }

  lemma {:induction false} OpenBefore(w: Wire, ds: seq<Delivery>)
    requires forall i :: 0 <= i < |ds| ==> !Last(w, ds[i])
    ensures Open(Run(OnDelivery(w), INITIAL, ds).out, Closing)
  {
    if ds != [] {
      var r := Run(OnDelivery(w), INITIAL, ds[..|ds| - 1]);
      OpenBefore(w, ds[..|ds| - 1]);
      LastStep(w, r.state, ds[|ds| - 1]);
      OpenAppend(r.out, OnDelivery(w)(r.state, ds[|ds| - 1]).out, Closing);
    }
  }

  /** The loop returns at the first such delivery, whatever was read before. */
  lemma ReturnsFirst(w: Wire, ds: seq<Delivery>)
    ensures FinishesFirst(OnDelivery(w), ds, FirstLast(w, ds))
  {
    var k := FirstLast(w, ds);
    forall i, st | 0 <= i < k ensures !OnDelivery(w)(st, ds[i]).done {
      LastStep(w, st, ds[i]);
    }
    forall st | k < |ds| ensures OnDelivery(w)(st, ds[k]).done {
      LastStep(w, st, ds[k]);
    }
  }

  /** What a stream puts out: nothing closing before the delivery at which the loop returns, then what that one makes. */
  lemma EndsWithLast(w: Wire, ds: seq<Delivery>)
    ensures var k := FirstLast(w, ds); var r := Run(OnDelivery(w), INITIAL, ds[..k]);
            && Open(r.out, Closing)
            && StreamAll(w, Opened(ds)) == r.out + if k < |ds| then OnDelivery(w)(r.state, ds[k]).out else []
  {
    var k := FirstLast(w, ds);
    ReturnsFirst(w, ds);
    RunFinishes(OnDelivery(w), INITIAL, ds, k);
    OpenBefore(w, ds[..k]);
    NothingMore(Run(OnDelivery(w), INITIAL, ds[..k]).out);
  }

  /**
    The consumer is told how a stream ended exactly if the first thing that ended it was a
    read error, an undecodable chunk or a finish reason, and is told just that, last;
    after the end mark it hears nothing more.
   */
  lemma EndReported(w: Wire, ds: seq<Delivery>)
    ensures var k, out := FirstLast(w, ds), StreamAll(w, Opened(ds));
            && (!Open(out, Closing) <==> k < |ds| && (ds[k].Lost? || ds[k].event.data != "[DONE]"))
            && (k < |ds| ==> exists before, after :: out == before + after && Open(before, Closing) && Tells(w, ds[k], after))
  {
    var k := FirstLast(w, ds);
    var r := Run(OnDelivery(w), INITIAL, ds[..k]);
    EndsWithLast(w, ds);
    if k < |ds| {
      LastStep(w, r.state, ds[k]);
      OpenAppend(r.out, OnDelivery(w)(r.state, ds[k]).out, Closing);
    } else {
      NothingMore(r.out);
    }
  }
}
