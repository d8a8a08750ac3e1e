/**
  The Anthropic provider: its stream of content blocks folded into responses,
  and its one-shot response converted at once.
 */
module Anthropic {
  import opened PushIter
  import opened Seqs
  import opened Llm
  import opened Sse

  // ---- Wire types ----

  datatype StartEvent = StartEvent(index: nat, kind: string, id: string, name: string)

  datatype DeltaEvent = DeltaEvent(index: nat, kind: string, text: string, json: string)

  datatype Usage = Usage(input: int, output: int)

  datatype MessageDelta = MessageDelta(stopReason: string, usage: Option<Usage>)

  /** JSON decoding, one function for each type it decodes into; None is a decoding error. */
  datatype Wire = Wire(
    start: string -> Option<StartEvent>,
    delta: string -> Option<DeltaEvent>,
    stop: string -> Option<nat>,
    message: string -> Option<MessageDelta>,
    json: string -> Option<Json>)

  /** What one delivery of the event reader means. */
  datatype Message =
    | BlockStart(s: StartEvent)
    | BlockDelta(d: DeltaEvent)
    | BlockStop(index: nat)
    | TurnDelta(m: MessageDelta)
    | TurnStop
    | Other(kind: string)
    | Malformed(kind: string)
    | Broken

  function Decode(w: Wire, d: Delivery): Message {
    if d.Lost? then Broken
    else
      var kind, data := d.event.kind, d.event.data;
      if kind == "content_block_start" then
        (match w.start(data) case Some(s) => BlockStart(s) case None => Malformed(kind))
      else if kind == "content_block_delta" then
        (match w.delta(data) case Some(x) => BlockDelta(x) case None => Malformed(kind))
      else if kind == "content_block_stop" then
        (match w.stop(data) case Some(i) => BlockStop(i) case None => Malformed(kind))
      else if kind == "message_delta" then
        (match w.message(data) case Some(m) => TurnDelta(m) case None => Malformed(kind))
      else if kind == "message_stop" then TurnStop
      else Other(kind)
  }

  // ---- Streaming ----

  datatype Block = Block(kind: string, id: string, name: string, input: string)

  const NO_BLOCK := Block("", "", "", "")

  datatype State = State(blocks: seq<Block>, usage: Option<Usage>, stopReason: string)

  const INITIAL := State([], None, "")

  function MapStopReason(reason: string): FinishReason {
    if reason == "end_turn" then Stop
    else if reason == "tool_use" then Stop
    else if reason == "max_tokens" then MaxTokens
    else Stop
  }

  function Metadata(usage: Option<Usage>): Option<UsageMetadata> {
    match usage
    case None => None
    case Some(u) => Some(UsageMetadata(ToInt32(u.input), ToInt32(u.output), ToInt32(u.input + u.output)))
  }

  /** The usage in 32 bits: what went in, what came out, and their sum. */
  ghost predicate Reports(reported: Option<UsageMetadata>, usage: Option<Usage>) {
    && (reported.Some? <==> usage.Some?)
    && (usage.Some? ==>
          var u, r := usage.value, reported.value;
          r.prompt == ToInt32(u.input) && r.candidates == ToInt32(u.output) && r.total == ToInt32(u.input + u.output))
  }

  /** The usage is reported as counted exactly if both counts and their sum fit 32 bits. */
  lemma UsageExact(u: Usage)
    ensures Metadata(Some(u)) == Some(UsageMetadata(u.input, u.output, u.input + u.output)) <==>
            FitsInt32(u.input) && FitsInt32(u.output) && FitsInt32(u.input + u.output)
  {
  }

  function CallOf(w: Wire, b: Block): Item {
    Chunk(CallPart(b.name, ObjectOf(w.json(b.input))))
  }

  function FinalOf(st: State): Item {
    Reply(Response(None, true, MapStopReason(st.stopReason), Metadata(st.usage)))
  }

  function Handle(w: Wire, st: State, m: Message): Step<State, Item> {
    match m
    case BlockStart(s) =>
      var blocks := Grow(st.blocks, s.index, NO_BLOCK);
      Step(st.(blocks := blocks[s.index := Block(s.kind, s.id, s.name, "")]), [], false)
    case BlockDelta(d) =>
      if d.kind == "text_delta" then Step(st, [Chunk(TextPart(d.text))], false)
      else if d.kind == "input_json_delta" && d.index < |st.blocks| then
        var b := st.blocks[d.index];
        Step(st.(blocks := st.blocks[d.index := b.(input := b.input + d.json)]), [], false)
      else Step(st, [], false)
    case BlockStop(i) =>
      if i < |st.blocks| && st.blocks[i].kind == "tool_use" then Step(st, [CallOf(w, st.blocks[i])], false)
      else Step(st, [], false)
    case TurnDelta(t) =>
      Step(st.(stopReason := t.stopReason, usage := if t.usage.Some? then t.usage else st.usage), [], false)
    case TurnStop => Step(st, [FinalOf(st)], true)
    case Other(_) => Step(st, [], false)
    case Malformed(kind) => Step(st, [Failure("parsing " + kind)], true)
    case Broken => Step(st, [Failure("reading anthropic stream")], true)
  }

  function OnMessage(w: Wire): (State, Message) -> Step<State, Item> {
    (st, m) => Handle(w, st, m)
  }

  function OnDelivery(w: Wire): (State, Delivery) -> Step<State, Item> {
    (st, d) => Handle(w, st, Decode(w, d))
  }

  /** All that a consumer that never stops receives. */
  function StreamAll(w: Wire, opening: Opening): seq<Item> {
    match opening
    case Refused(reason) => [Failure(reason)]
    case Opened(ds) => Run(OnDelivery(w), INITIAL, ds).out
  }

  /** The body of the loop over the events: the variables it captures, and one iteration. */
  class LoopBody {
    const w: Wire
    const sink: Sink<Item>
    var activeBlocks: seq<Block>
    var finalUsage: Option<Usage>
    var stopReason: string

    function Current(): State
      reads this
    {
      State(activeBlocks, finalUsage, stopReason)
    }

    constructor (w: Wire, sink: Sink<Item>)
      ensures this.w == w && this.sink == sink && Current() == INITIAL
    {
      this.w, this.sink := w, sink;
      activeBlocks, finalUsage, stopReason := [], None, "";
    }

    method StartBlock(s: StartEvent)
      modifies this
      ensures Current() == Handle(w, old(Current()), BlockStart(s)).state
    {
      while |activeBlocks| <= s.index
        invariant Grow(activeBlocks, s.index, NO_BLOCK) == Grow(old(activeBlocks), s.index, NO_BLOCK)
        invariant finalUsage == old(finalUsage) && stopReason == old(stopReason)
      {
        activeBlocks := activeBlocks + [NO_BLOCK];
      }
      activeBlocks := activeBlocks[s.index := Block(s.kind, s.id, s.name, "")];
    }

    /** One event. The answer is whether the loop goes on. */
    method Take(d: Delivery) returns (more: bool)
      requires sink.Live()
      modifies this, sink
      ensures var q := Handle(w, old(Current()), Decode(w, d));
              && Current() == q.state
              && sink.delivered == old(sink.delivered) + q.out
              && (if more then sink.Live() && !q.done
                  else if sink.open then sink.Live() && q.done
                  else sink.Stopped())
    {
      more := true;
      match Decode(w, d) {
        case BlockStart(s) =>
          StartBlock(s);
        case BlockDelta(x) =>
          if x.kind == "text_delta" {
            more := sink.Yield(Chunk(TextPart(x.text)));
          } else if x.kind == "input_json_delta" {
            if x.index < |activeBlocks| {
              var b := activeBlocks[x.index];
              activeBlocks := activeBlocks[x.index := b.(input := b.input + x.json)];
            }
          }
        case BlockStop(index) =>
          if index < |activeBlocks| && activeBlocks[index].kind == "tool_use" {
            more := sink.Yield(CallOf(w, activeBlocks[index]));
          }
        case TurnDelta(t) =>
          stopReason := t.stopReason;
          if t.usage.Some? {
            finalUsage := t.usage;
          }
        case TurnStop =>
          var _ := sink.Yield(FinalOf(Current()));
          more := false;
        case Other(_) =>
        case Malformed(kind) =>
          var _ := sink.Yield(Failure("parsing " + kind));
          more := false;
        case Broken =>
          var _ := sink.Yield(Failure("reading anthropic stream"));
          more := false;
      }
    }
  }

  /**
    The streaming iterator. Besides what it yields, `read` is how many deliveries its
    loop body takes before it returns: the event reader is stopped there.
   */
  method GenerateStreaming(w: Wire, opening: Opening, sink: Sink<Item>) returns (read: nat)
    requires sink.Live() && sink.delivered == []
    modifies sink
    ensures IsCut(sink.delivered, StreamAll(w, opening), sink.wants)
    ensures opening.Refused? ==> sink.delivered == [Item(None, Some(opening.reason))]
    ensures opening.Opened? ==> read <= |opening.deliveries|
    ensures opening.Opened? ==>
              IsCut(opening.deliveries[..read], opening.deliveries, Body(OnDelivery(w), INITIAL, sink.wants))
  {
    read := 0;
    if opening.Refused? {
      YieldOnly(Failure(opening.reason), sink);
      return;
    }
    var ds := opening.deliveries;
    ghost var step := OnDelivery(w);
    var body := new LoopBody(w, sink);
    while read < |ds|
      invariant read <= |ds| && sink.Live() && body.sink == sink && body.w == w
      invariant Run(step, INITIAL, ds[..read]) == Step(body.Current(), sink.delivered, false)
      invariant Reading(step, INITIAL, sink.wants, ds, read)
    {
      RunSnoc(step, INITIAL, ds, read);
      var more := body.Take(ds[read]);
      if !more {
        ReadStops(step, INITIAL, ds, read, sink);
        read := read + 1;
        return;
      }
      ReadOn(step, INITIAL, ds, read, sink);
      read := read + 1;
    }
    assert ds[..read] == ds;
    ReadToEnd(step, INITIAL, ds, sink);
  }

  // ---- The one-shot response ----

  datatype ContentBlock = ContentBlock(kind: string, text: string, name: string, input: Json)

  datatype MessagesResponse = MessagesResponse(content: seq<ContentBlock>, stopReason: string, usage: Option<Usage>)

  /** An object is taken as it is; anything else is marshalled and fails to unmarshal into a map. */
  function ConvertInput(input: Json): Args {
    ObjectOf(Some(input))
  }

  function SyncPart(b: ContentBlock): seq<Part> {
    if b.kind == "text" then [TextPart(b.text)]
    else if b.kind == "tool_use" then [CallPart(b.name, ConvertInput(b.input))]
    else []
  }

  function SyncParts(blocks: seq<ContentBlock>): seq<Part> {
    if blocks == [] then [] else SyncParts(blocks[..|blocks| - 1]) + SyncPart(blocks[|blocks| - 1])
  }

  method ConvertSyncResponse(resp: MessagesResponse) returns (r: Response)
    ensures r == Response(Some(SyncParts(resp.content)), true, MapStopReason(resp.stopReason), Metadata(resp.usage))
    ensures r.finish == (if resp.stopReason == "max_tokens" then MaxTokens else Stop) && Reports(r.usage, resp.usage)
  {
    var parts: seq<Part> := [];
    for i := 0 to |resp.content|
      invariant parts == SyncParts(resp.content[..i])
    {
      assert resp.content[..i + 1][..i] == resp.content[..i];
      var block := resp.content[i];
      if block.kind == "text" {
        parts := parts + [TextPart(block.text)];
      } else if block.kind == "tool_use" {
        parts := parts + [CallPart(block.name, ConvertInput(block.input))];
      }
    }
    assert resp.content[..|resp.content|] == resp.content;
    r := Response(Some(parts), true, MapStopReason(resp.stopReason), Metadata(resp.usage));
  }

  // ---- Protocol ----

  lemma HandleCloses(w: Wire, st: State, m: Message)
    ensures StepCloses(Handle(w, st, m), Closing)
  {
  }

  /** In every stream nothing follows an error or the response that completes the turn. */
  lemma StreamClosesOnce(w: Wire, opening: Opening)
    ensures ClosesOnce(StreamAll(w, opening), Closing)
  {
    if opening.Opened? {
      forall st, d ensures StepCloses(OnDelivery(w)(st, d), Closing) {
        HandleCloses(w, st, Decode(w, d));
      }
      RunClosesOnce(OnDelivery(w), INITIAL, opening.deliveries, Closing);
    }
  }

  lemma HandleItems(w: Wire, st: State, m: Message)
    ensures forall i :: 0 <= i < |Handle(w, st, m).out| ==> IsTurnItem(Handle(w, st, m).out[i])
  {
  }

  /** What the stream yields is chunks, errors and completions, each as it should be. */
  lemma StreamItems(w: Wire, ds: seq<Delivery>)
    ensures forall i :: 0 <= i < |StreamAll(w, Opened(ds))| ==> IsTurnItem(StreamAll(w, Opened(ds))[i])
  {
    forall st, d, i | 0 <= i < |OnDelivery(w)(st, d).out| ensures IsTurnItem(OnDelivery(w)(st, d).out[i]) {
      HandleItems(w, st, Decode(w, d));
    }
    RunEvery(OnDelivery(w), INITIAL, ds, IsTurnItem);
  }

  // ---- How a stream ends, in terms of what was read ----

  /** The event's data is not what its type announces. */
  predicate Undecodable(w: Wire, e: Event) {
    || (e.kind == "content_block_start" && w.start(e.data).None?)
    || (e.kind == "content_block_delta" && w.delta(e.data).None?)
    || (e.kind == "content_block_stop" && w.stop(e.data).None?)
    || (e.kind == "message_delta" && w.message(e.data).None?)
  }

  /** The loop returns at this delivery: a read error, an undecodable event, or the end of the message. */
  predicate Last(w: Wire, d: Delivery) {
    d.Lost? || Undecodable(w, d.event) || d.event.kind == "message_stop"
  }

  /** The first delivery at which the loop returns; the number of deliveries if it never does. */
  function FirstLast(w: Wire, ds: seq<Delivery>): (k: nat)
    ensures k <= |ds| && (k < |ds| ==> Last(w, ds[k]))
    ensures forall i :: 0 <= i < k ==> !Last(w, ds[i])
  {
    if ds == [] || Last(w, ds[0]) then 0 else 1 + FirstLast(w, ds[1..])
  }

  /** What the consumer is told at such a delivery: the error in words, or that the turn is complete. */
  ghost predicate Tells(d: Delivery, i: Item) {
    if d.Lost? then i == Item(None, Some("reading anthropic stream"))
    else if d.event.kind == "message_stop" then IsCompletion(i)
    else i == Item(None, Some("parsing " + d.event.kind))
  }

  /** The last item tells it. */
  ghost predicate TellsLast(d: Delivery, out: seq<Item>) {
    |out| > 0 && Tells(d, out[|out| - 1])
  }

  lemma LastStep(w: Wire, st: State, d: Delivery)
    ensures var q := OnDelivery(w)(st, d);
            && (q.done <==> Last(w, d))
            && (Last(w, d) ==> |q.out| == 1 && Tells(d, q.out[0]))
            && (!Last(w, d) ==> Open(q.out, Closing))
  {
  }

  lemma {:induction false} OpenBefore(w: Wire, ds: seq<Delivery>)
    requires forall i :: 0 <= i < |ds| ==> !Last(w, ds[i])
    ensures Open(Run(OnDelivery(w), INITIAL, ds).out, Closing)
  {
    if ds != [] {
      var r := Run(OnDelivery(w), INITIAL, ds[..|ds| - 1]);
      OpenBefore(w, ds[..|ds| - 1]);
      LastStep(w, r.state, ds[|ds| - 1]);
      OpenAppend(r.out, OnDelivery(w)(r.state, ds[|ds| - 1]).out, Closing);
    }
  }

  lemma ToldByLast(w: Wire, st: State, d: Delivery, before: seq<Item>)
    requires Last(w, d)
    ensures var out := before + OnDelivery(w)(st, d).out;
            TellsLast(d, out) && !Open(out, Closing)
  {
    var q := OnDelivery(w)(st, d);
    LastStep(w, st, d);
    assert q.out == [q.out[0]];
    Snoc(before, q.out[0]);
    assert Closing((before + q.out)[|before|]);
  }

  /** The loop returns at the first such delivery, whatever was read before. */
  lemma ReturnsFirst(w: Wire, ds: seq<Delivery>)
    ensures FinishesFirst(OnDelivery(w), ds, FirstLast(w, ds))
  {
    var k := FirstLast(w, ds);
    forall i, st | 0 <= i < k ensures !OnDelivery(w)(st, ds[i]).done {
      LastStep(w, st, ds[i]);
    }
    forall st | k < |ds| ensures OnDelivery(w)(st, ds[k]).done {
      LastStep(w, st, ds[k]);
    }
  }

  /** What a stream puts out: nothing closing before the delivery at which the loop returns, then what that one makes. */
  lemma EndsWithLast(w: Wire, ds: seq<Delivery>)
    ensures var k := FirstLast(w, ds); var r := Run(OnDelivery(w), INITIAL, ds[..k]);
            && Open(r.out, Closing)
            && StreamAll(w, Opened(ds)) == r.out + if k < |ds| then OnDelivery(w)(r.state, ds[k]).out else []
  {
    var k := FirstLast(w, ds);
    ReturnsFirst(w, ds);
    RunFinishes(OnDelivery(w), INITIAL, ds, k);
    OpenBefore(w, ds[..k]);
    NothingMore(Run(OnDelivery(w), INITIAL, ds[..k]).out);
  }

  /**
    The consumer is told how a stream ended exactly if something ended it: a read error,
    an undecodable event or the end of the message. It is told last, by the first of
    these: of an error in words, of the end of the message by the response that completes
    the turn.
   */
  lemma EndReported(w: Wire, ds: seq<Delivery>)
    ensures var k, out := FirstLast(w, ds), StreamAll(w, Opened(ds));
            && (!Open(out, Closing) <==> k < |ds|)
            && (k < |ds| ==> TellsLast(ds[k], out))
  {
    var k := FirstLast(w, ds);
    var r := Run(OnDelivery(w), INITIAL, ds[..k]);
    EndsWithLast(w, ds);
    if k < |ds| {
      ToldByLast(w, r.state, ds[k], r.out);
    } else {
      NothingMore(r.out);
    }
  }
}
