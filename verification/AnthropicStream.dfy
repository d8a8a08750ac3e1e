/**
  What the Anthropic stream means: which history of fragments a function call
  stands for, and that a fragmented answer is the one-shot answer.
 */
module AnthropicStream {
  import opened PushIter
  import opened Seqs
  import opened Text
  import opened Llm
  import opened Sse
  import opened SseFormat
  import opened Anthropic

  // ---- The history behind a function call ----

  /** The position of the last start of block i; -1 if it was never started. */
  function LatestStart(ms: seq<Message>, i: nat): (p: int)
    ensures -1 <= p < |ms|
    ensures p >= 0 ==> ms[p].BlockStart? && ms[p].s.index == i
  {
    if ms == [] then -1
    else if ms[|ms| - 1].BlockStart? && ms[|ms| - 1].s.index == i then |ms| - 1
    else LatestStart(ms[..|ms| - 1], i)
  }

  lemma {:induction false} NoLaterStart(ms: seq<Message>, i: nat, q: nat)
    requires LatestStart(ms, i) < q < |ms|
    ensures !(ms[q].BlockStart? && ms[q].s.index == i)
  {
    if q < |ms| - 1 {
      NoLaterStart(ms[..|ms| - 1], i, q);
    }
  }

  /** The argument fragments sent for block i, in order. */
  function Fragments(ms: seq<Message>, i: nat): seq<string> {
    if ms == [] then []
    else
      Fragments(ms[..|ms| - 1], i) + FragmentOf(ms[|ms| - 1], i)
  }

  function FragmentOf(m: Message, i: nat): seq<string> {
    if m.BlockDelta? && m.d.index == i && m.d.kind == "input_json_delta" then [m.d.json] else []
  }

  /** The fragments for block i since its latest start, accumulated message by message. */
  function Since(ms: seq<Message>, i: nat): seq<string> {
    if ms == [] then []
    else
      var last := ms[|ms| - 1];
      if last.BlockStart? && last.s.index == i then [] else Since(ms[..|ms| - 1], i) + FragmentOf(last, i)
  }

  lemma FragmentsFrom(ms: seq<Message>, i: nat, k: nat)
    requires k < |ms|
    ensures Fragments(ms[k..], i) == Fragments(ms[..|ms| - 1][k..], i) + FragmentOf(ms[|ms| - 1], i)
  {
    SuffixInit(ms, k);
  }

  lemma {:induction false} SinceIs(ms: seq<Message>, i: nat)
    requires LatestStart(ms, i) >= 0
    ensures Since(ms, i) == Fragments(ms[LatestStart(ms, i) + 1..], i)
  {
    var p := LatestStart(ms, i);
    if p < |ms| - 1 {
      SinceIs(ms[..|ms| - 1], i);
      FragmentsFrom(ms, i, p + 1);
    }
  }

  /** Accumulator i holds its latest start and the fragments since; without a start it can yield nothing. */
  ghost predicate Reflects(blocks: seq<Block>, ms: seq<Message>, i: nat) {
    var p := LatestStart(ms, i);
    if p < 0 then i < |blocks| ==> blocks[i].kind == ""
    else i < |blocks| && blocks[i] == Block(ms[p].s.kind, ms[p].s.id, ms[p].s.name, Concat(Since(ms, i)))
  }

  /** A message that does not start block i leaves its latest start and may add a fragment. */
  lemma HistoryNext(ms: seq<Message>, m: Message, i: nat)
    requires !(m.BlockStart? && m.s.index == i)
    ensures var all, p := ms + [m], LatestStart(ms, i);
            && LatestStart(all, i) == p && (p >= 0 ==> all[p] == ms[p])
            && Concat(Since(all, i)) == Concat(Since(ms, i)) + Concat(FragmentOf(m, i))
  {
    Snoc(ms, m);
    ConcatAppend(Since(ms, i), FragmentOf(m, i));
  }

  /** What a message does to accumulator i: replaces it, adds a fragment to it, or leaves it. */
  lemma BlockNext(w: Wire, st: State, m: Message, i: nat)
    ensures var blocks := Handle(w, st, m).state.blocks;
            && |blocks| >= |st.blocks|
            && if m.BlockStart? && m.s.index == i then
                 i < |blocks| && blocks[i] == Block(m.s.kind, m.s.id, m.s.name, "")
               else if i >= |st.blocks| then i < |blocks| ==> blocks[i] == NO_BLOCK
               else blocks[i] == st.blocks[i].(input := st.blocks[i].input + Concat(FragmentOf(m, i)))
  {
    if FragmentOf(m, i) != [] {
      ConcatSnoc([], m.d.json);
    } else if i < |st.blocks| {
      NothingMore(st.blocks[i].input);
    }
  }

  lemma StartedNext(ms: seq<Message>, m: Message, i: nat)
    requires m.BlockStart? && m.s.index == i
    ensures LatestStart(ms + [m], i) == |ms| && (ms + [m])[|ms|] == m && Since(ms + [m], i) == []
  {
    Snoc(ms, m);
  }

  lemma ReflectsNext(w: Wire, st: State, ms: seq<Message>, m: Message, i: nat)
    requires Reflects(st.blocks, ms, i)
    ensures Reflects(Handle(w, st, m).state.blocks, ms + [m], i)
  {
    BlockNext(w, st, m, i);
    if m.BlockStart? && m.s.index == i {
      StartedNext(ms, m, i);
    } else {
      HistoryNext(ms, m, i);
    }
  }

  /** After any interleaving of blocks, every accumulator reflects its own history. */
  lemma {:induction false} HistoryReflected(w: Wire, ms: seq<Message>, i: nat)
    requires !Run(OnMessage(w), INITIAL, ms).done
    ensures Reflects(Run(OnMessage(w), INITIAL, ms).state.blocks, ms, i)
  {
    if ms != [] {
      var init := ms[..|ms| - 1];
      HistoryReflected(w, init, i);
      ReflectsNext(w, Run(OnMessage(w), INITIAL, init).state, init, ms[|ms| - 1], i);
      InitLast(ms);
    }
  }

  /** The call that a block stands for, given its start and its fragments; none unless it is a tool use. */
  function CallFor(w: Wire, s: StartEvent, fragments: seq<string>): seq<Item> {
    if s.kind == "tool_use" then [Chunk(CallPart(s.name, ObjectOf(w.json(Concat(fragments)))))] else []
  }

  lemma StopStep(w: Wire, st: State, i: nat, s: StartEvent, fragments: seq<string>)
    requires i < |st.blocks| && st.blocks[i] == Block(s.kind, s.id, s.name, Concat(fragments))
    ensures Handle(w, st, BlockStop(i)).out == CallFor(w, s, fragments)
  {
  }

  lemma StopAfter(w: Wire, ms: seq<Message>, i: nat, call: seq<Item>)
    requires !Run(OnMessage(w), INITIAL, ms).done
    requires Handle(w, Run(OnMessage(w), INITIAL, ms).state, BlockStop(i)).out == call
    ensures Run(OnMessage(w), INITIAL, ms + [BlockStop(i)]).out == Run(OnMessage(w), INITIAL, ms).out + call
  {
    Snoc(ms, BlockStop(i));
  }

  /**
    The stop of block i yields a call exactly when the block's latest start is a tool
    use: its name, and the arguments that the fragments since that start spell.
   */
  lemma CallAtStop(w: Wire, ms: seq<Message>, i: nat)
    requires !Run(OnMessage(w), INITIAL, ms).done
    ensures var p := LatestStart(ms, i);
            Run(OnMessage(w), INITIAL, ms + [BlockStop(i)]).out ==
            Run(OnMessage(w), INITIAL, ms).out + if p < 0 then [] else CallFor(w, ms[p].s, Fragments(ms[p + 1..], i))
  {
    HistoryReflected(w, ms, i);
    var p, st := LatestStart(ms, i), Run(OnMessage(w), INITIAL, ms).state;
    if p < 0 {
      StopAfter(w, ms, i, []);
    } else {
      SinceIs(ms, i);
      StopStep(w, st, i, ms[p].s, Since(ms, i));
      StopAfter(w, ms, i, CallFor(w, ms[p].s, Since(ms, i)));
    }
  }

  ghost predicate HasCall(items: seq<Item>) {
    exists i :: 0 <= i < |items| && exists p :: p in PartsOf(items[i]) && p.CallPart?
  }

  /** No other message yields a call. */
  lemma OnlyStopsCall(w: Wire, st: State, m: Message)
    requires HasCall(Handle(w, st, m).out)
    ensures m.BlockStop?
  {
  }

  // ---- The stop reason and the usage of a turn ----

  /** The stop reason of the last message_delta; empty if there was none. */
  function LastReason(ms: seq<Message>): string {
    if ms == [] then ""
    else if ms[|ms| - 1].TurnDelta? then ms[|ms| - 1].m.stopReason
    else LastReason(ms[..|ms| - 1])
  }

  /** The last usage that a message_delta carried. */
  function LastUsage(ms: seq<Message>): Option<Usage> {
    if ms == [] then None
    else if ms[|ms| - 1].TurnDelta? && ms[|ms| - 1].m.usage.Some? then ms[|ms| - 1].m.usage
    else LastUsage(ms[..|ms| - 1])
  }

  lemma {:induction false} TurnReflected(w: Wire, ms: seq<Message>)
    requires !Run(OnMessage(w), INITIAL, ms).done
    ensures var st := Run(OnMessage(w), INITIAL, ms).state;
            st.stopReason == LastReason(ms) && st.usage == LastUsage(ms)
  {
    if ms != [] {
      TurnReflected(w, ms[..|ms| - 1]);
    }
  }

  /** What a message_stop after these messages tells: how the turn ended, and what it used. */
  ghost predicate Completes(i: Item, reason: string, usage: Option<Usage>) {
    && i.error.None? && i.response.Some?
    && (var r := i.response.value;
        && r.content.None? && r.turnComplete
        && r.finish == (if reason == "max_tokens" then MaxTokens else Stop)
        && Reports(r.usage, usage))
  }

  /** The end of the message completes the turn with the last stop reason and the last usage sent before it. */
  lemma TurnCompleted(w: Wire, ms: seq<Message>)
    requires !Run(OnMessage(w), INITIAL, ms).done
    ensures var before, out := Run(OnMessage(w), INITIAL, ms).out, Run(OnMessage(w), INITIAL, ms + [TurnStop]).out;
            |out| == |before| + 1 && before <= out && Completes(out[|before|], LastReason(ms), LastUsage(ms))
  {
    TurnReflected(w, ms);
    Snoc(ms, TurnStop);
  }

  // ---- How a stream ends ----

  predicate Ends(m: Message) {
    m.TurnStop? || m.Malformed? || m.Broken?
  }

  ghost predicate SomeEnds(ms: seq<Message>) {
    exists i :: 0 <= i < |ms| && Ends(ms[i])
  }

  /**
    The consumer is told how a stream ended exactly if the end of the message, a decoding
    error or a read error was met: one that just breaks off ends without a word.
   */
  lemma {:induction false} EndIsTold(w: Wire, ms: seq<Message>)
    ensures var r := Run(OnMessage(w), INITIAL, ms);
            (r.done <==> SomeEnds(ms)) && (!Open(r.out, Closing) <==> SomeEnds(ms))
  {
    if ms != [] {
      var init, last := ms[..|ms| - 1], ms[|ms| - 1];
      EndIsTold(w, init);
      assert SomeEnds(ms) <==> SomeEnds(init) || Ends(last) by {
        assert forall i :: 0 <= i < |init| ==> ms[i] == init[i];
      }
      var r := Run(OnMessage(w), INITIAL, init);
      var q := Handle(w, r.state, last);
      OpenAppend(r.out, q.out, Closing);
      if Ends(last) {
        assert Closing(q.out[0]);
      }
    }
  }

  /** A stream that breaks off after a text: the text is all the consumer gets. */
  lemma SilentEnd(w: Wire, k: nat, text: string)
    ensures Run(OnMessage(w), INITIAL, [TextDelta(k, text)]).out == [Chunk(TextPart(text))]
    ensures Open([Chunk(TextPart(text))], Closing)
  {
    RunOne(OnMessage(w), INITIAL, TextDelta(k, text));
  }

  // ---- Deliveries and messages ----

  function DecodeAll(w: Wire, ds: seq<Delivery>): seq<Message> {
    seq(|ds|, i requires 0 <= i < |ds| => Decode(w, ds[i]))
  }

  lemma {:induction false} RunDecoded(w: Wire, st: State, ds: seq<Delivery>)
    ensures Run(OnDelivery(w), st, ds) == Run(OnMessage(w), st, DecodeAll(w, ds))
  {
    if ds != [] {
      var init := ds[..|ds| - 1];
      RunDecoded(w, st, init);
      assert DecodeAll(w, ds)[..|ds| - 1] == DecodeAll(w, init);
    }
  }

  /** The messages that are not pings, `message_start` or unknown events. */
  function Core(ms: seq<Message>): seq<Message> {
    if ms == [] then []
    else Core(ms[..|ms| - 1]) + if ms[|ms| - 1].Other? then [] else [ms[|ms| - 1]]
  }

  /** One more message: a run of the core goes on with it, or it was none of the core's. */
  lemma CoreNext(w: Wire, st: State, core: seq<Message>, m: Message)
    ensures Then(OnMessage(w), Run(OnMessage(w), st, core), m) ==
            Run(OnMessage(w), st, core + if m.Other? then [] else [m])
  {
    if m.Other? {
      NothingMore(core);
      NothingMore(Run(OnMessage(w), st, core).out);
    } else {
      Snoc(core, m);
    }
  }

  lemma {:induction false} RunCore(w: Wire, st: State, ms: seq<Message>)
    ensures Run(OnMessage(w), st, ms) == Run(OnMessage(w), st, Core(ms))
  {
    if ms != [] {
      RunCore(w, st, ms[..|ms| - 1]);
      CoreNext(w, st, Core(ms[..|ms| - 1]), ms[|ms| - 1]);
    }
  }

  // ---- An answer, block by block ----

  /** A block of a complete answer and how it is cut into fragments. */
  datatype Piece =
    | TextPiece(fragments: seq<string>)
    | ToolPiece(id: string, name: string, input: Json, fragments: seq<string>)
    | OtherPiece(kind: string, deltas: seq<string>)

  /** Blocks of other kinds carry deltas of other kinds. */
  predicate WellFormed(p: Piece) {
    p.OtherPiece? ==>
      && p.kind != "text" && p.kind != "tool_use"
      && forall i :: 0 <= i < |p.deltas| ==> p.deltas[i] != "text_delta" && p.deltas[i] != "input_json_delta"
  }

  /** The same block in the one-shot response. */
  function Whole(p: Piece): ContentBlock {
    match p
    case TextPiece(fs) => ContentBlock("text", Concat(fs), "", Null)
    case ToolPiece(_, name, input, _) => ContentBlock("tool_use", "", name, input)
    case OtherPiece(kind, _) => ContentBlock(kind, "", "", Null)
  }

  function WholeAll(ps: seq<Piece>): seq<ContentBlock> {
    seq(|ps|, i requires 0 <= i < |ps| => Whole(ps[i]))
  }

  function StartOf(p: Piece, k: nat): Message {
    match p
    case TextPiece(_) => BlockStart(StartEvent(k, "text", "", ""))
    case ToolPiece(id, name, _, _) => BlockStart(StartEvent(k, "tool_use", id, name))
    case OtherPiece(kind, _) => BlockStart(StartEvent(k, kind, "", ""))
  }

  function TextDelta(k: nat, text: string): Message {
    BlockDelta(DeltaEvent(k, "text_delta", text, ""))
  }

  function InputDelta(k: nat, json: string): Message {
    BlockDelta(DeltaEvent(k, "input_json_delta", "", json))
  }

  function OtherDelta(k: nat, kind: string): Message {
    BlockDelta(DeltaEvent(k, kind, "", ""))
  }

  function Each(f: string -> Message, xs: seq<string>): seq<Message> {
    seq(|xs|, i requires 0 <= i < |xs| => f(xs[i]))
  }

  function DeltasOf(p: Piece, k: nat): seq<Message> {
    match p
    case TextPiece(fs) => Each(f => TextDelta(k, f), fs)
    case ToolPiece(_, _, _, fs) => Each(f => InputDelta(k, f), fs)
    case OtherPiece(_, kinds) => Each(f => OtherDelta(k, f), kinds)
  }

  function PieceMessages(p: Piece, k: nat): seq<Message> {
    [StartOf(p, k)] + DeltasOf(p, k) + [BlockStop(k)]
  }

  function AnswerMessages(ps: seq<Piece>): seq<Message> {
    if ps == [] then [] else AnswerMessages(ps[..|ps| - 1]) + PieceMessages(ps[|ps| - 1], |ps| - 1)
  }

  /** The fragments of a tool call spell its input. */
  predicate Spells(w: Wire, p: Piece) {
    p.ToolPiece? ==> ObjectOf(w.json(Concat(p.fragments))) == ConvertInput(p.input)
  }

  /** What the stream says for one piece. */
  function StreamedAtoms(w: Wire, p: Piece): seq<Atom> {
    match p
    case TextPiece(fs) => Chars(Concat(fs))
    case ToolPiece(_, name, _, fs) => [Call(name, ObjectOf(w.json(Concat(fs))))]
    case OtherPiece(_, _) => []
  }

  lemma RunEach(w: Wire, st: State, f: string -> Message, xs: seq<string>)
    requires xs != []
    ensures var r := Run(OnMessage(w), st, Each(f, xs[..|xs| - 1]));
            Run(OnMessage(w), st, Each(f, xs)) == Then(OnMessage(w), r, f(xs[|xs| - 1]))
  {
    assert Each(f, xs)[..|xs| - 1] == Each(f, xs[..|xs| - 1]);
  }

  lemma {:induction false} RunTextDeltas(w: Wire, st: State, k: nat, f: string -> Message, fs: seq<string>)
    requires forall t :: f(t) == TextDelta(k, t)
    ensures var r := Run(OnMessage(w), st, Each(f, fs));
            r.state == st && !r.done && Said(r.out) == Chars(Concat(fs))
  {
    if fs != [] {
      var init, last := fs[..|fs| - 1], fs[|fs| - 1];
      RunTextDeltas(w, st, k, f, init);
      RunEach(w, st, f, fs);
      ConcatLast(fs);
      SaidText(Run(OnMessage(w), st, Each(f, init)).out, Concat(init), last);
    }
  }

  lemma {:induction false} RunInputDeltas(w: Wire, st: State, k: nat, f: string -> Message, fs: seq<string>)
    requires forall t :: f(t) == InputDelta(k, t)
    requires k < |st.blocks| && st.blocks[k].input == ""
    ensures var r := Run(OnMessage(w), st, Each(f, fs));
            var b := st.blocks[k];
            r == Step(st.(blocks := st.blocks[k := b.(input := Concat(fs))]), [], false)
  {
    var b := st.blocks[k];
    if fs == [] {
      assert st.blocks[k := b] == st.blocks;
    } else {
      var init, last := fs[..|fs| - 1], fs[|fs| - 1];
      RunInputDeltas(w, st, k, f, init);
      RunEach(w, st, f, fs);
      ConcatLast(fs);
      assert st.blocks[k := b.(input := Concat(init))][k := b.(input := Concat(fs))] ==
             st.blocks[k := b.(input := Concat(fs))];
    }
  }

  lemma {:induction false} RunOtherDeltas(w: Wire, st: State, k: nat, f: string -> Message, kinds: seq<string>)
    requires forall t :: f(t) == OtherDelta(k, t)
    requires forall i :: 0 <= i < |kinds| ==> kinds[i] != "text_delta" && kinds[i] != "input_json_delta"
    ensures Run(OnMessage(w), st, Each(f, kinds)) == Step(st, [], false)
  {
    if kinds != [] {
      RunOtherDeltas(w, st, k, f, kinds[..|kinds| - 1]);
      RunEach(w, st, f, kinds);
    }
  }

  lemma RunDeltas(w: Wire, st: State, k: nat, p: Piece)
    requires WellFormed(p) && k < |st.blocks| && st.blocks[k].input == ""
    ensures var r := Run(OnMessage(w), st, DeltasOf(p, k));
            var b := st.blocks[k];
            && !r.done && r.state.usage == st.usage && r.state.stopReason == st.stopReason
            && Said(r.out) == (if p.TextPiece? then Chars(Concat(p.fragments)) else [])
            && k < |r.state.blocks|
            && r.state.blocks[k] == if p.ToolPiece? then b.(input := Concat(p.fragments)) else b
  {
    match p
    case TextPiece(fs) => RunTextDeltas(w, st, k, f => TextDelta(k, f), fs);
    case ToolPiece(_, _, _, fs) => RunInputDeltas(w, st, k, f => InputDelta(k, f), fs);
    case OtherPiece(_, kinds) => RunOtherDeltas(w, st, k, f => OtherDelta(k, f), kinds);
  }

  lemma RunStop(w: Wire, st: State, k: nat, p: Piece)
    requires k < |st.blocks|
    requires p.TextPiece? ==> st.blocks[k].kind == "text"
    requires p.ToolPiece? ==> st.blocks[k] == Block("tool_use", p.id, p.name, Concat(p.fragments))
    requires p.OtherPiece? ==> st.blocks[k].kind != "tool_use"
    ensures var q := Handle(w, st, BlockStop(k));
            q.state == st && !q.done && Said(q.out) == if p.ToolPiece? then StreamedAtoms(w, p) else []
  {
    if p.ToolPiece? {
      SaidChunk(CallPart(p.name, ObjectOf(w.json(Concat(p.fragments)))));
    }
  }

  /** One piece, whatever was accumulated before it. */
  lemma RunPiece(w: Wire, st: State, k: nat, p: Piece)
    requires WellFormed(p)
    ensures var r := Run(OnMessage(w), st, PieceMessages(p, k));
            && !r.done && r.state.usage == st.usage && r.state.stopReason == st.stopReason
            && Said(r.out) == StreamedAtoms(w, p)
  {
    var step := OnMessage(w);
    var begun := Handle(w, st, StartOf(p, k)).state;
    var mid := Run(step, begun, DeltasOf(p, k));
    RunDeltas(w, begun, k, p);
    RunStop(w, mid.state, k, p);
    RunOne(step, st, StartOf(p, k));
    RunOne(step, mid.state, BlockStop(k));
    RunAppend(step, st, [StartOf(p, k)], DeltasOf(p, k));
    RunAppend(step, st, [StartOf(p, k)] + DeltasOf(p, k), [BlockStop(k)]);
    NothingMore(mid.out);
    SaidMore(mid.out, Handle(w, mid.state, BlockStop(k)).out);
    NothingMore(Said(mid.out));
  }

  function StreamedAll(w: Wire, ps: seq<Piece>): seq<Atom> {
    if ps == [] then [] else StreamedAll(w, ps[..|ps| - 1]) + StreamedAtoms(w, ps[|ps| - 1])
  }

  lemma {:induction false} RunAnswer(w: Wire, ps: seq<Piece>)
    requires AllWellFormed(ps)
    ensures var r := Run(OnMessage(w), INITIAL, AnswerMessages(ps));
            && !r.done && r.state.usage == None && r.state.stopReason == ""
            && Said(r.out) == StreamedAll(w, ps)
  {
    if ps != [] {
      var init, last := ps[..|ps| - 1], ps[|ps| - 1];
      RunAnswer(w, init);
      var before := Run(OnMessage(w), INITIAL, AnswerMessages(init));
      RunPiece(w, before.state, |init|, last);
      var after := Run(OnMessage(w), before.state, PieceMessages(last, |init|));
      RunAppend(OnMessage(w), INITIAL, AnswerMessages(init), PieceMessages(last, |init|));
      SaidMore(before.out, after.out);
    }
  }

  lemma PieceSaysTheSame(w: Wire, p: Piece)
    requires WellFormed(p)
    ensures var a, b := StreamedAtoms(w, p), Atoms(SyncPart(Whole(p))); |a| == |b| && (a == b <==> Spells(w, p))
  {
    var part := SyncPart(Whole(p));
    if part != [] {
      AtomsOne(part[0]);
    }
  }

  ghost predicate AllWellFormed(ps: seq<Piece>) {
    forall i :: 0 <= i < |ps| ==> WellFormed(ps[i])
  }

  ghost predicate AllSpell(w: Wire, ps: seq<Piece>) {
    forall i :: 0 <= i < |ps| ==> Spells(w, ps[i])
  }

  function SyncSaid(ps: seq<Piece>): seq<Atom> {
    Atoms(SyncParts(WholeAll(ps)))
  }

  lemma SyncSaidSnoc(ps: seq<Piece>, p: Piece)
    ensures SyncSaid(ps + [p]) == SyncSaid(ps) + Atoms(SyncPart(Whole(p)))
  {
    assert WholeAll(ps + [p]) == WholeAll(ps) + [Whole(p)];
    Snoc(WholeAll(ps), Whole(p));
    AtomsAppend(SyncParts(WholeAll(ps)), SyncPart(Whole(p)));
  }

  /** Piece by piece the stream says what the one-shot response says, exactly where fragments spell inputs. */
  lemma {:induction false} SyncSaysTheSame(w: Wire, ps: seq<Piece>)
    requires AllWellFormed(ps)
    ensures |StreamedAll(w, ps)| == |SyncSaid(ps)|
    ensures StreamedAll(w, ps) == SyncSaid(ps) <==> AllSpell(w, ps)
  {
    if ps != [] {
      var init, last := ps[..|ps| - 1], ps[|ps| - 1];
      InitLast(ps);
      SyncSaysTheSame(w, init);
      PieceSaysTheSame(w, last);
      SyncSaidSnoc(init, last);
      SameHalves(StreamedAll(w, init), StreamedAtoms(w, last), SyncSaid(init), Atoms(SyncPart(Whole(last))));
      assert AllSpell(w, ps) <==> AllSpell(w, init) && Spells(w, last);
    }
  }

  /** A whole turn: the answer's blocks, the stop reason with the usage, the end of the message. */
  function TurnMessages(ps: seq<Piece>, t: MessageDelta): seq<Message> {
    AnswerMessages(ps) + [TurnDelta(t), TurnStop]
  }

  /** The stream rebuilds the one-shot response: same normal form, same finish reason, same usage. */
  ghost predicate Agrees(items: seq<Item>, sync: Response) {
    && |items| > 0
    && (var last := items[|items| - 1];
        && last == Reply(Response(None, true, sync.finish, sync.usage))
        && sync.content.Some?
        && Normalise(Parts(items)) == Normalise(sync.content.value))
  }

  function TurnEnd(t: MessageDelta): Item {
    Reply(Response(None, true, MapStopReason(t.stopReason), Metadata(t.usage)))
  }

  lemma RunEnd(w: Wire, st: State, t: MessageDelta)
    requires st.usage == None
    ensures var r := Run(OnMessage(w), st, [TurnDelta(t)] + [TurnStop]); r.done && r.out == [TurnEnd(t)]
    ensures Said([TurnEnd(t)]) == []
  {
    var next := Handle(w, st, TurnDelta(t)).state;
    RunOne(OnMessage(w), st, TurnDelta(t));
    RunAppend(OnMessage(w), st, [TurnDelta(t)], [TurnStop]);
    RunOne(OnMessage(w), next, TurnStop);
    assert Parts([TurnEnd(t)]) == [] + Parts([]);
  }

  lemma RunTurn(w: Wire, ps: seq<Piece>, t: MessageDelta)
    requires AllWellFormed(ps)
    ensures var r := Run(OnMessage(w), INITIAL, TurnMessages(ps, t));
            && r.done && |r.out| > 0
            && r.out[|r.out| - 1] == TurnEnd(t)
            && Said(r.out) == StreamedAll(w, ps)
  {
    RunAnswer(w, ps);
    var r := Run(OnMessage(w), INITIAL, AnswerMessages(ps));
    RunEnd(w, r.state, t);
    RunAppend(OnMessage(w), INITIAL, AnswerMessages(ps), [TurnDelta(t)] + [TurnStop]);
    assert [TurnDelta(t), TurnStop] == [TurnDelta(t)] + [TurnStop];
    SaidMore(r.out, [TurnEnd(t)]);
  }

  function SyncOf(ps: seq<Piece>, t: MessageDelta): Response {
    Response(Some(SyncParts(WholeAll(ps))), true, MapStopReason(t.stopReason), Metadata(t.usage))
  }

  lemma TurnAgrees(w: Wire, ps: seq<Piece>, t: MessageDelta)
    requires AllWellFormed(ps)
    ensures Agrees(Run(OnMessage(w), INITIAL, TurnMessages(ps, t)).out, SyncOf(ps, t)) <==> AllSpell(w, ps)
  {
    RunTurn(w, ps, t);
    var r := Run(OnMessage(w), INITIAL, TurnMessages(ps, t));
    SyncSaysTheSame(w, ps);
    NormaliseCanonical(Parts(r.out), SyncParts(WholeAll(ps)));
  }

  /**
    However an answer is cut into fragments, with other events anywhere in between and
    anything after its end, the stream rebuilds what the one-shot conversion builds,
    exactly when every tool call's fragments spell its input.
   */
  lemma StreamAgreesWithSync(w: Wire, ps: seq<Piece>, t: MessageDelta, ms: seq<Message>, more: seq<Message>)
    requires AllWellFormed(ps) && Core(ms) == TurnMessages(ps, t)
    ensures Agrees(Run(OnMessage(w), INITIAL, ms + more).out, SyncOf(ps, t)) <==> AllSpell(w, ps)
  {
    RunCore(w, INITIAL, ms);
    RunTurn(w, ps, t);
    RunAppend(OnMessage(w), INITIAL, ms, more);
    TurnAgrees(w, ps, t);
  }

  /**
    A tool call without arguments: the stream sends the empty fragment, which no JSON
    decoder accepts, and hands over a nil map where the one-shot response has an empty one.
   */
  lemma EmptyInputDeparts(w: Wire, id: string, name: string, t: MessageDelta)
    requires w.json("") == None
    ensures var ps := [ToolPiece(id, name, Obj(map[]), [""])];
            !Agrees(Run(OnMessage(w), INITIAL, TurnMessages(ps, t)).out, SyncOf(ps, t))
  {
    var ps := [ToolPiece(id, name, Obj(map[]), [""])];
    assert Concat([""]) == "" + Concat([]);
    assert !Spells(w, ps[0]);
    TurnAgrees(w, ps, t);
  }

  // ---- End to end ----

  /** A server's JSON encoders. */
  datatype Encoder = Encoder(
    start: StartEvent -> string,
    delta: DeltaEvent -> string,
    stop: nat -> string,
    message: MessageDelta -> string,
    other: string)

  ghost predicate Faithful(w: Wire, enc: Encoder) {
    && OneLine(enc.other)
    && (forall x :: OneLine(enc.start(x)) && w.start(enc.start(x)) == Some(x))
    && (forall x :: OneLine(enc.delta(x)) && w.delta(enc.delta(x)) == Some(x))
    && (forall x: nat :: OneLine(enc.stop(x)) && w.stop(enc.stop(x)) == Some(x))
    && (forall x :: OneLine(enc.message(x)) && w.message(enc.message(x)) == Some(x))
  }

  /** A message a server can send; other events have a type of their own. */
  predicate Sendable(m: Message) {
    && !m.Malformed? && !m.Broken?
    && (m.Other? ==> Trimmed(IsSpace, m.kind) &&
                     m.kind != "content_block_start" && m.kind != "content_block_delta" &&
                     m.kind != "content_block_stop" && m.kind != "message_delta" && m.kind != "message_stop")
  }

  function EventOf(enc: Encoder, m: Message): Event
    requires Sendable(m)
  {
    match m
    case BlockStart(s) => Event("content_block_start", enc.start(s))
    case BlockDelta(d) => Event("content_block_delta", enc.delta(d))
    case BlockStop(i) => Event("content_block_stop", enc.stop(i))
    case TurnDelta(t) => Event("message_delta", enc.message(t))
    case TurnStop => Event("message_stop", enc.other)
    case Other(kind) => Event(kind, enc.other)
  }

  ghost predicate AllSendable(ms: seq<Message>) {
    forall i :: 0 <= i < |ms| ==> Sendable(ms[i])
  }

  function EventsOf(enc: Encoder, ms: seq<Message>): seq<Event>
    requires AllSendable(ms)
  {
    seq(|ms|, i requires 0 <= i < |ms| => EventOf(enc, ms[i]))
  }

  lemma EventDecodes(w: Wire, enc: Encoder, m: Message)
    requires Faithful(w, enc) && Sendable(m)
    ensures Decode(w, Got(EventOf(enc, m))) == m
  {
  }

  lemma EventPrintable(w: Wire, enc: Encoder, m: Message)
    requires Faithful(w, enc) && Sendable(m)
    ensures Printable(EventOf(enc, m))
  {
    OneLinePrintable(EventOf(enc, m));
  }

  /** The lines on the wire are those of the messages' events, with ignored lines and terminators at will. */
  ghost predicate Transmits(ls: seq<Line>, enc: Encoder, ms: seq<Message>) {
    && AllSendable(ms)
    && (forall l :: l in ls ==> l.Fits())
    && Significant(Texts(ls)) == PrintLines(EventsOf(enc, ms))
  }

  /** What the event reader makes of a transmission decodes to the messages that were sent. */
  lemma Transmission(w: Wire, enc: Encoder, ls: seq<Line>, ms: seq<Message>)
    requires Faithful(w, enc) && Transmits(ls, enc, ms)
    ensures DecodeAll(w, ReadAll(Stream(Assemble(ls), false))) == ms
  {
    var es := EventsOf(enc, ms);
    forall e | e in es ensures Printable(e) {
      var i :| 0 <= i < |es| && e == es[i];
      EventPrintable(w, enc, ms[i]);
    }
    RoundTrip(ls, es);
    forall i | 0 <= i < |ms| ensures Decode(w, Deliveries(es)[i]) == ms[i] {
      EventDecodes(w, enc, ms[i]);
    }
  }

  /**
    End to end: an answer fragmented, encoded, printed as an event stream, read and
    folded again is the answer of the one-shot conversion.
   */
  lemma EndToEnd(w: Wire, enc: Encoder, ps: seq<Piece>, t: MessageDelta, ms: seq<Message>, more: seq<Message>, ls: seq<Line>)
    requires Faithful(w, enc) && Transmits(ls, enc, ms + more)
    requires AllWellFormed(ps)
    requires Core(ms) == TurnMessages(ps, t)
    ensures Agrees(StreamAll(w, Opened(ReadAll(Stream(Assemble(ls), false)))), SyncOf(ps, t)) <==> AllSpell(w, ps)
  {
    Transmission(w, enc, ls, ms + more);
    RunDecoded(w, INITIAL, ReadAll(Stream(Assemble(ls), false)));
    StreamAgreesWithSync(w, ps, t, ms, more);
  }
}
