/**
  What the OpenAI stream means: the tool calls depend only on each call's own
  deltas, and a fragmented answer is the one-shot answer up to stated differences.
 */
module OpenAIStream {
  import opened PushIter
  import opened Seqs
  import opened Text
  import opened Llm
  import opened Sse
  import opened SseFormat
  import opened OpenAI

  // ---- Call deltas, index by index ----

  /** The deltas of call i, in order. */
  function Of(ds: seq<CallDelta>, i: nat): seq<CallDelta> {
    if ds == [] then []
    else Of(ds[..|ds| - 1], i) + if ds[|ds| - 1].index == i then [ds[|ds| - 1]] else []
  }

  function LastId(ds: seq<CallDelta>): string {
    if ds == [] then "" else if ds[|ds| - 1].id != "" then ds[|ds| - 1].id else LastId(ds[..|ds| - 1])
  }

  function LastName(ds: seq<CallDelta>): string {
    if ds == [] then "" else if ds[|ds| - 1].name != "" then ds[|ds| - 1].name else LastName(ds[..|ds| - 1])
  }

  function Arguments(ds: seq<CallDelta>): seq<string> {
    seq(|ds|, i requires 0 <= i < |ds| => ds[i].arguments)
  }

  /** One call from its own deltas: last id and last name that are not empty, all argument fragments. */
  function CallFrom(ds: seq<CallDelta>): ToolCall {
    ToolCall(LastId(ds), LastName(ds), Concat(Arguments(ds)))
  }

  /** One more than the highest index. */
  function Size(ds: seq<CallDelta>): nat {
    if ds == [] then 0
    else
      var before, k := Size(ds[..|ds| - 1]), ds[|ds| - 1].index;
      if k < before then before else k + 1
  }

  lemma CallFromSnoc(ds: seq<CallDelta>, d: CallDelta)
    ensures CallFrom(ds + [d]) == Update(CallFrom(ds), d)
  {
    var all := ds + [d];
    Snoc(ds, d);
    assert Arguments(all) == Arguments(ds) + [d.arguments];
    ConcatSnoc(Arguments(ds), d.arguments);
  }

  lemma {:induction false} OfBeyond(ds: seq<CallDelta>, i: nat)
    requires i >= Size(ds)
    ensures Of(ds, i) == []
  {
    if ds != [] {
      OfBeyond(ds[..|ds| - 1], i);
    }
  }

  lemma {:induction false} OfHighest(ds: seq<CallDelta>)
    requires ds != []
    ensures Size(ds) > 0 && Of(ds, Size(ds) - 1) != []
  {
    var init := ds[..|ds| - 1];
    assert init == [] ==> Size(init) == 0;
    if init != [] && ds[|ds| - 1].index < Size(init) {
      OfHighest(init);
    }
  }

  /** The accumulators stand for the deltas: as many as the highest index demands, entry i from its own deltas. */
  ghost predicate StandsFor(calls: seq<ToolCall>, ds: seq<CallDelta>, i: nat) {
    |calls| == Size(ds) && (i < |calls| ==> calls[i] == CallFrom(Of(ds, i)))
  }

  lemma AccumulateOwn(calls: seq<ToolCall>, ds: seq<CallDelta>, d: CallDelta)
    requires StandsFor(calls, ds, d.index)
    ensures StandsFor(Accumulate(calls, d), ds + [d], d.index)
  {
    Snoc(ds, d);
    if d.index >= |calls| {
      OfBeyond(ds, d.index);
    }
    CallFromSnoc(Of(ds, d.index), d);
  }

  lemma AccumulateOther(calls: seq<ToolCall>, ds: seq<CallDelta>, d: CallDelta, i: nat)
    requires StandsFor(calls, ds, i) && i != d.index
    ensures StandsFor(Accumulate(calls, d), ds + [d], i)
  {
    Snoc(ds, d);
    NothingMore(Of(ds, i));
    if i >= |calls| {
      OfBeyond(ds, i);
    }
  }

  /** The accumulators after any deltas stand for them. */
  lemma {:induction false} AccumulatedFrom(ds: seq<CallDelta>, i: nat)
    ensures StandsFor(AccumulateAll([], ds), ds, i)
  {
    if ds != [] {
      var init, d := ds[..|ds| - 1], ds[|ds| - 1];
      AccumulatedFrom(init, i);
      InitLast(ds);
      if d.index == i {
        AccumulateOwn(AccumulateAll([], init), init, d);
      } else {
        AccumulateOther(AccumulateAll([], init), init, d, i);
      }
    }
  }

  ghost predicate SameByIndex(ds: seq<CallDelta>, es: seq<CallDelta>) {
    forall i: nat :: Of(ds, i) == Of(es, i)
  }

  lemma SameSize(ds: seq<CallDelta>, es: seq<CallDelta>)
    requires SameByIndex(ds, es)
    ensures Size(ds) <= Size(es)
  {
    if ds != [] {
      OfHighest(ds);
      var i := Size(ds) - 1;
      assert Of(es, i) != [];
      if i >= Size(es) {
        OfBeyond(es, i);
      }
    }
  }

  /** However the deltas of different calls are interleaved, the accumulated calls are the same. */
  lemma InterleavingIrrelevant(ds: seq<CallDelta>, es: seq<CallDelta>)
    requires SameByIndex(ds, es)
    ensures AccumulateAll([], ds) == AccumulateAll([], es)
  {
    SameSize(ds, es);
    SameSize(es, ds);
    AccumulatedFrom(ds, 0);
    AccumulatedFrom(es, 0);
    forall i | 0 <= i < Size(ds) ensures AccumulateAll([], ds)[i] == AccumulateAll([], es)[i] {
      AccumulatedFrom(ds, i);
      AccumulatedFrom(es, i);
    }
  }

  // ---- Chunks ----

  function CallDeltas(c: StreamChunk): seq<CallDelta> {
    if c.choices == [] then [] else c.choices[0].calls
  }

  function ChunkText(c: StreamChunk): string {
    if c.choices == [] then "" else c.choices[0].content
  }

  predicate Finishes(c: StreamChunk) {
    c.choices != [] && c.choices[0].finish.Some?
  }

  function Deltas(cs: seq<StreamChunk>): seq<CallDelta> {
    if cs == [] then [] else Deltas(cs[..|cs| - 1]) + CallDeltas(cs[|cs| - 1])
  }

  function Contents(cs: seq<StreamChunk>): seq<string> {
    seq(|cs|, i requires 0 <= i < |cs| => ChunkText(cs[i]))
  }

  function LastUsage(cs: seq<StreamChunk>): Option<Usage> {
    if cs == [] then None
    else if cs[|cs| - 1].usage.Some? then cs[|cs| - 1].usage
    else LastUsage(cs[..|cs| - 1])
  }

  function Messages(cs: seq<StreamChunk>): seq<Message> {
    seq(|cs|, i requires 0 <= i < |cs| => Chunked(cs[i]))
  }

  lemma {:induction false} AccumulateAppend(calls: seq<ToolCall>, ds: seq<CallDelta>, es: seq<CallDelta>)
    ensures AccumulateAll(calls, ds + es) == AccumulateAll(AccumulateAll(calls, ds), es)
  {
    if es == [] {
      NothingMore(ds);
    } else {
      AppendInit(ds, es);
      AccumulateAppend(calls, ds, es[..|es| - 1]);
    }
  }

  ghost predicate NoneFinishes(cs: seq<StreamChunk>) {
    forall i :: 0 <= i < |cs| ==> !Finishes(cs[i])
  }

  function StateAfter(cs: seq<StreamChunk>): State {
    State(AccumulateAll([], Deltas(cs)), LastUsage(cs))
  }

  function TextItems(c: StreamChunk): seq<Item> {
    if c.choices == [] then [] else TextOf(c.choices[0])
  }

  lemma SaidTextItems(items: seq<Item>, s: string, c: StreamChunk)
    requires Said(items) == Chars(s)
    ensures Said(items + TextItems(c)) == Chars(s + ChunkText(c))
  {
    if ChunkText(c) != "" {
      SaidText(items, s, ChunkText(c));
    } else {
      NothingMore(items);
      NothingMore(s);
    }
  }

  lemma ChunkStep(w: Wire, cs: seq<StreamChunk>, c: StreamChunk)
    requires !Finishes(c)
    ensures Handle(w, StateAfter(cs), Chunked(c)) == Step(StateAfter(cs + [c]), TextItems(c), false)
  {
    Snoc(cs, c);
    AccumulateAppend([], Deltas(cs), CallDeltas(c));
  }

  lemma TextSoFar(cs: seq<StreamChunk>, c: StreamChunk)
    ensures Concat(Contents(cs + [c])) == Concat(Contents(cs)) + ChunkText(c)
  {
    assert Contents(cs + [c]) == Contents(cs) + [ChunkText(c)];
    ConcatSnoc(Contents(cs), ChunkText(c));
  }

  /** Until a chunk finishes the turn: calls, usage and text so far. */
  lemma {:induction false} RunChunks(w: Wire, cs: seq<StreamChunk>)
    requires NoneFinishes(cs)
    ensures var r := Run(OnMessage(w), INITIAL, Messages(cs));
            !r.done && r.state == StateAfter(cs) && Said(r.out) == Chars(Concat(Contents(cs)))
  {
    if cs != [] {
      var init, last := cs[..|cs| - 1], cs[|cs| - 1];
      InitLast(cs);
      RunChunks(w, init);
      var r := Run(OnMessage(w), INITIAL, Messages(init));
      assert Messages(cs)[..|cs| - 1] == Messages(init);
      ChunkStep(w, init, last);
      TextSoFar(init, last);
      SaidTextItems(r.out, Concat(Contents(init)), last);
    }
  }

  /** Chunk k is the first that finishes the turn. */
  ghost predicate FinishesAt(cs: seq<StreamChunk>, k: nat) {
    k < |cs| && Finishes(cs[k]) && NoneFinishes(cs[..k])
  }

  /** The response that completes the turn when chunk k finishes it. */
  function Completion(w: Wire, cs: seq<StreamChunk>, k: nat): Item
    requires k < |cs| && Finishes(cs[k])
  {
    FinalOf(w, StateAfter(cs[..k + 1]), cs[k].choices[0].finish.value)
  }

  lemma DeltasTo(cs: seq<StreamChunk>, k: nat)
    requires k < |cs|
    ensures AccumulateAll([], Deltas(cs[..k + 1])) == AccumulateAll(AccumulateAll([], Deltas(cs[..k])), CallDeltas(cs[k]))
    ensures LastUsage(cs[..k + 1]) == if cs[k].usage.Some? then cs[k].usage else LastUsage(cs[..k])
  {
    PrefixInit(cs, k);
    AccumulateAppend([], Deltas(cs[..k]), CallDeltas(cs[k]));
  }

  lemma ContentsTo(cs: seq<StreamChunk>, k: nat)
    requires k < |cs|
    ensures Concat(Contents(cs[..k + 1])) == Concat(Contents(cs[..k])) + ChunkText(cs[k])
  {
    PrefixInit(cs, k);
    TextSoFar(cs[..k], cs[k]);
  }

  lemma MessagesTo(cs: seq<StreamChunk>, k: nat, more: seq<Message>)
    requires k < |cs|
    ensures (Messages(cs) + more)[..k] == Messages(cs[..k]) && (Messages(cs) + more)[k] == Chunked(cs[k])
  {
  }

  lemma FinishStep(w: Wire, cs: seq<StreamChunk>, k: nat)
    requires FinishesAt(cs, k)
    ensures Handle(w, StateAfter(cs[..k]), Chunked(cs[k])) ==
            Step(StateAfter(cs[..k + 1]), TextItems(cs[k]) + [Completion(w, cs, k)], true)
  {
    DeltasTo(cs, k);
  }

  lemma RunFinish(w: Wire, cs: seq<StreamChunk>, k: nat, more: seq<Message>)
    requires FinishesAt(cs, k)
    ensures var before := Run(OnMessage(w), INITIAL, Messages(cs[..k])).out;
            Run(OnMessage(w), INITIAL, Messages(cs) + more) ==
            Step(StateAfter(cs[..k + 1]), before + (TextItems(cs[k]) + [Completion(w, cs, k)]), true)
  {
    var all := Messages(cs) + more;
    RunChunks(w, cs[..k]);
    MessagesTo(cs, k, more);
    RunSnoc(OnMessage(w), INITIAL, all, k);
    FinishStep(w, cs, k);
    RunPrefix(OnMessage(w), INITIAL, all, k + 1);
  }

  ghost predicate EndsWith(items: seq<Item>, last: Item) {
    |items| > 0 && items[|items| - 1] == last
  }

  lemma SaidEnd(before: seq<Item>, s: string, c: StreamChunk, last: Item)
    requires Said(before) == Chars(s)
    ensures var items := before + (TextItems(c) + [last]);
            EndsWith(items, last) && Said(items) == Chars(s + ChunkText(c)) + Said([last])
  {
    SaidTextItems(before, s, c);
    SaidMore(before + TextItems(c), [last]);
    Assoc(before, TextItems(c), [last]);
  }

  /** What has been said when chunk k arrives, and what is said with it. */
  lemma SaidWith(w: Wire, cs: seq<StreamChunk>, k: nat)
    requires FinishesAt(cs, k)
    ensures var items := Run(OnMessage(w), INITIAL, Messages(cs[..k])).out + (TextItems(cs[k]) + [Completion(w, cs, k)]);
            && EndsWith(items, Completion(w, cs, k))
            && Said(items) == Chars(Concat(Contents(cs[..k + 1]))) + Said([Completion(w, cs, k)])
  {
    RunChunks(w, cs[..k]);
    ContentsTo(cs, k);
    SaidEnd(Run(OnMessage(w), INITIAL, Messages(cs[..k])).out, Concat(Contents(cs[..k])), cs[k], Completion(w, cs, k));
  }

  /** Everything a stream puts out: the text up to the finishing chunk, then the completion; nothing later counts. */
  lemma RunToFinish(w: Wire, cs: seq<StreamChunk>, k: nat, more: seq<Message>)
    requires FinishesAt(cs, k)
    ensures var r := Run(OnMessage(w), INITIAL, Messages(cs) + more);
            && r.done && EndsWith(r.out, Completion(w, cs, k))
            && Said(r.out) == Chars(Concat(Contents(cs[..k + 1]))) + Said([Completion(w, cs, k)])
  {
    RunFinish(w, cs, k, more);
    SaidWith(w, cs, k);
  }

  /**
    Two streams whose call deltas up to their finish agree index by index complete with
    the same function calls, however the deltas are interleaved or grouped into chunks.
   */
  lemma ChunkingIrrelevant(w: Wire, cs: seq<StreamChunk>, k: nat, es: seq<StreamChunk>, j: nat)
    requires FinishesAt(cs, k) && FinishesAt(es, j)
    requires SameByIndex(Deltas(cs[..k + 1]), Deltas(es[..j + 1]))
    ensures PartsOf(Completion(w, cs, k)) == PartsOf(Completion(w, es, j))
  {
    InterleavingIrrelevant(Deltas(cs[..k + 1]), Deltas(es[..j + 1]));
  }

  /** The final function calls: one for each index up to the highest, each with its own name and arguments. */
  lemma FinalCalls(w: Wire, cs: seq<StreamChunk>, k: nat)
    requires FinishesAt(cs, k)
    ensures var ds, parts := Deltas(cs[..k + 1]), PartsOf(Completion(w, cs, k));
            && |parts| == Size(ds)
            && forall i :: 0 <= i < |parts| ==>
                 parts[i] == CallPart(LastName(Of(ds, i)), ObjectOf(w.json(Concat(Arguments(Of(ds, i))))))
  {
    var ds := Deltas(cs[..k + 1]);
    var calls := AccumulateAll([], ds);
    AccumulatedFrom(ds, 0);
    CallPartsFit(w, calls);
    forall i | 0 <= i < |calls|
      ensures CallParts(w, calls)[i] == CallPart(LastName(Of(ds, i)), ObjectOf(w.json(Concat(Arguments(Of(ds, i))))))
    {
      AccumulatedFrom(ds, i);
    }
  }

  /** The completing response in words: how the turn finished, and the last usage sent up to then. */
  ghost predicate Completes(i: Item, reason: string, usage: Option<Usage>) {
    && i.error.None? && i.response.Some?
    && (var r := i.response.value;
        && r.turnComplete && FinishesAs(r.finish, reason)
        && Reports(r.usage, usage))
  }

  lemma CompletionTells(w: Wire, cs: seq<StreamChunk>, k: nat)
    requires k < |cs| && Finishes(cs[k])
    ensures Completes(Completion(w, cs, k), cs[k].choices[0].finish.value, LastUsage(cs[..k + 1]))
  {
  }

  /** A stream that chunk k finishes ends with that finish reason, and the last usage up to chunk k. */
  lemma TurnCompleted(w: Wire, cs: seq<StreamChunk>, k: nat, more: seq<Message>)
    requires FinishesAt(cs, k)
    ensures exists last :: EndsWith(Run(OnMessage(w), INITIAL, Messages(cs) + more).out, last) &&
                           Completes(last, cs[k].choices[0].finish.value, LastUsage(cs[..k + 1]))
  {
    RunToFinish(w, cs, k, more);
    CompletionTells(w, cs, k);
  }

  // ---- How a stream ends ----

  predicate Ends(m: Message) {
    !m.Chunked? || Finishes(m.c)
  }

  /** The position of the first message that ends the stream; the number of messages if none does. */
  function FirstEnd(ms: seq<Message>): (k: nat)
    ensures k <= |ms| && (k < |ms| ==> Ends(ms[k]))
    ensures forall i :: 0 <= i < k ==> !Ends(ms[i])
  {
    if ms == [] || Ends(ms[0]) then 0 else 1 + FirstEnd(ms[1..])
  }

  lemma {:induction false} NoEnd(w: Wire, ms: seq<Message>)
    requires forall i :: 0 <= i < |ms| ==> !Ends(ms[i])
    ensures var r := Run(OnMessage(w), INITIAL, ms); !r.done && Open(r.out, Closing)
  {
    if ms != [] {
      var init := ms[..|ms| - 1];
      NoEnd(w, init);
      var r := Run(OnMessage(w), INITIAL, init);
      OpenAppend(r.out, Handle(w, r.state, ms[|ms| - 1]).out, Closing);
    }
  }

  lemma EndStep(w: Wire, st: State, m: Message)
    requires Ends(m)
    ensures var q := Handle(w, st, m); q.done && (!Open(q.out, Closing) <==> !m.EndMark?)
  {
    var q := Handle(w, st, m);
    if !m.EndMark? {
      assert Closing(q.out[|q.out| - 1]);
    }
  }

  /**
    The consumer is told how a stream ended exactly if the first thing that ended it was
    a finish reason or an error: after the end mark alone it hears nothing.
   */
  lemma EndIsTold(w: Wire, ms: seq<Message>)
    ensures var k := FirstEnd(ms);
            !Open(Run(OnMessage(w), INITIAL, ms).out, Closing) <==> k < |ms| && !ms[k].EndMark?
  {
    var k := FirstEnd(ms);
    NoEnd(w, ms[..k]);
    if k < |ms| {
      var r := Run(OnMessage(w), INITIAL, ms[..k]);
      var q := Handle(w, r.state, ms[k]);
      RunSnoc(OnMessage(w), INITIAL, ms, k);
      RunPrefix(OnMessage(w), INITIAL, ms, k + 1);
      OpenAppend(r.out, q.out, Closing);
      EndStep(w, r.state, ms[k]);
    } else {
      assert ms[..k] == ms;
    }
  }

  /** A text, then the end mark: the text is all the consumer gets, and no response completes the turn. */
  lemma SilentEnd(w: Wire, text: string)
    requires text != ""
    ensures Run(OnMessage(w), INITIAL, [Chunked(StreamChunk([StreamChoice(text, [], None)], None))] + [EndMark]).out ==
            [Chunk(TextPart(text))]
  {
    var first := Chunked(StreamChunk([StreamChoice(text, [], None)], None));
    RunOne(OnMessage(w), INITIAL, first);
    Snoc([first], EndMark);
    NothingMore([Chunk(TextPart(text))]);
  }

  // ---- The usage of a stream ----

  ghost predicate UsageOnlyAt(cs: seq<StreamChunk>, j: nat) {
    j < |cs| && forall i :: 0 <= i < |cs| ==> (cs[i].usage.Some? <==> i == j)
  }

  lemma {:induction false} LastUsageOnlyAt(cs: seq<StreamChunk>, j: nat, n: nat)
    requires UsageOnlyAt(cs, j) && n <= |cs|
    ensures LastUsage(cs[..n]) == if j < n then cs[j].usage else None
  {
    if n > 0 {
      LastUsageOnlyAt(cs, j, n - 1);
      assert cs[..n][..n - 1] == cs[..n - 1];
    }
  }

  /** The usage a server sends once is reported exactly if it comes no later than the finishing chunk. */
  lemma UsageReported(w: Wire, cs: seq<StreamChunk>, k: nat, j: nat)
    requires FinishesAt(cs, k) && UsageOnlyAt(cs, j)
    ensures Completion(w, cs, k).response.value.usage == Metadata(cs[j].usage) <==> j <= k
    ensures j > k ==> Completion(w, cs, k).response.value.usage == None
  {
    LastUsageOnlyAt(cs, j, k + 1);
  }

  /** The usage in a chunk of its own after the finish reason, as servers send it that are asked to include it: it is lost. */
  lemma LateUsageLost(w: Wire, u: Usage)
    ensures var cs := [StreamChunk([StreamChoice("", [], Some("stop"))], None), StreamChunk([], Some(u))];
            FinishesAt(cs, 0) && UsageOnlyAt(cs, 1) && Completion(w, cs, 0).response.value.usage == None
  {
    var cs := [StreamChunk([StreamChoice("", [], Some("stop"))], None), StreamChunk([], Some(u))];
    assert FinishesAt(cs, 0) && UsageOnlyAt(cs, 1);
    UsageReported(w, cs, 0, 1);
  }

  // ---- Stream and one-shot response ----

  /** The deltas are fragments of these calls: each index has its name and its arguments, and there are no others. */
  ghost predicate FragmentsOf(ds: seq<CallDelta>, calls: seq<ToolCall>) {
    && (forall i :: 0 <= i < |calls| ==>
          Of(ds, i) != [] && LastName(Of(ds, i)) == calls[i].name && Concat(Arguments(Of(ds, i))) == calls[i].arguments)
    && (forall i :: i >= |calls| ==> Of(ds, i) == [])
  }

  lemma FragmentsSize(ds: seq<CallDelta>, calls: seq<ToolCall>)
    requires FragmentsOf(ds, calls)
    ensures Size(ds) == |calls|
  {
    if Size(ds) > |calls| {
      OfHighest(ds);
    } else if Size(ds) < |calls| {
      OfBeyond(ds, |calls| - 1);
    }
  }

  /** Fragmented calls complete as the calls of the one-shot response. */
  lemma SameCalls(w: Wire, cs: seq<StreamChunk>, k: nat, calls: seq<ToolCall>)
    requires FinishesAt(cs, k) && FragmentsOf(Deltas(cs[..k + 1]), calls)
    ensures PartsOf(Completion(w, cs, k)) == CallParts(w, calls)
  {
    FragmentsSize(Deltas(cs[..k + 1]), calls);
    FinalCalls(w, cs, k);
    CallPartsFit(w, calls);
  }

  /** A stream whose chunks are fragments of one choice of a response. */
  ghost predicate Fragmented(cs: seq<StreamChunk>, k: nat, ch: Choice) {
    && FinishesAt(cs, k)
    && FragmentsOf(Deltas(cs[..k + 1]), ch.message.calls)
    && Concat(Contents(cs[..k + 1])) == ch.message.content
    && cs[k].choices[0].finish == Some(ch.finish)
  }

  /** The completing response has these calls, finish reason and usage. */
  ghost predicate CompletesWith(items: seq<Item>, calls: seq<Part>, finish: FinishReason, usage: Option<UsageMetadata>) {
    EndsWith(items, Reply(Response(if calls == [] then None else Some(calls), true, finish, usage)))
  }

  lemma CompletionIs(w: Wire, cs: seq<StreamChunk>, k: nat, ch: Choice)
    requires Fragmented(cs, k, ch)
    ensures var parts := CallParts(w, ch.message.calls);
            Completion(w, cs, k) == Reply(Response(if parts == [] then None else Some(parts), true,
                                                   MapFinishReason(ch.finish), Metadata(LastUsage(cs[..k + 1]))))
  {
    SameCalls(w, cs, k, ch.message.calls);
    FragmentsSize(Deltas(cs[..k + 1]), ch.message.calls);
    AccumulatedFrom(Deltas(cs[..k + 1]), 0);
    CallPartsFit(w, ch.message.calls);
  }

  lemma {:induction false} CallAtoms(w: Wire, calls: seq<ToolCall>)
    ensures |Atoms(CallParts(w, calls))| == |calls|
  {
    if calls != [] {
      CallAtoms(w, calls[..|calls| - 1]);
    }
  }

  /** Text followed by calls is what the one-shot message says exactly if one of the two is missing. */
  lemma TextAndCalls(w: Wire, m: SyncMessage)
    ensures Chars(m.content) + Atoms(CallParts(w, m.calls)) == Atoms(SyncParts(w, m)) <==>
            m.calls == [] || m.content == ""
  {
    CallAtoms(w, m.calls);
    if m.calls == [] && m.content != "" {
      AtomsOne(TextPart(m.content));
    }
  }

  lemma CompletionSays(w: Wire, cs: seq<StreamChunk>, k: nat, ch: Choice)
    requires Fragmented(cs, k, ch)
    ensures Said([Completion(w, cs, k)]) == Atoms(CallParts(w, ch.message.calls))
  {
    CompletionIs(w, cs, k, ch);
    SaidReply(CallParts(w, ch.message.calls), MapFinishReason(ch.finish), Metadata(LastUsage(cs[..k + 1])));
  }

  /** The stream rebuilds the one-shot response: same normal form, same finish reason, same usage. */
  ghost predicate Agrees(items: seq<Item>, sync: Response) {
    && |items| > 0 && sync.content.Some?
    && (var last := items[|items| - 1].response;
        last.Some? && last.value.turnComplete && last.value.finish == sync.finish && last.value.usage == sync.usage)
    && Normalise(Parts(items)) == Normalise(sync.content.value)
  }

  /** What both promise of a fragmented choice, given the usage of the one-shot response. */
  ghost predicate Rebuilds(w: Wire, out: seq<Item>, cs: seq<StreamChunk>, k: nat, ch: Choice, usage: Option<Usage>) {
    var m, reported := ch.message, Metadata(LastUsage(cs[..if k < |cs| then k + 1 else |cs|]));
    && CompletesWith(out, CallParts(w, m.calls), MapFinishReason(ch.finish), reported)
    && (Agrees(out, SyncResponse(w, ChatResponse([ch], usage))) <==>
        (m.calls == [] || m.content == "") && reported == Metadata(usage))
  }

  /**
    The stream completes with the calls and the finish reason of the one-shot response
    and the last usage up to the finish. It rebuilds that response exactly if the message
    has no calls or no text, and that usage is the response's: with both, only the stream
    hands the text over.
   */
  lemma StreamAgreesWithSync(w: Wire, cs: seq<StreamChunk>, k: nat, ch: Choice, usage: Option<Usage>,
                             more: seq<Message>)
    requires Fragmented(cs, k, ch)
    ensures Rebuilds(w, Run(OnMessage(w), INITIAL, Messages(cs) + more).out, cs, k, ch, usage)
  {
    var m, out := ch.message, Run(OnMessage(w), INITIAL, Messages(cs) + more).out;
    RunToFinish(w, cs, k, more);
    CompletionIs(w, cs, k, ch);
    CompletionSays(w, cs, k, ch);
    TextAndCalls(w, m);
    NormaliseCanonical(Parts(out), SyncParts(w, m));
  }

  lemma OneChunk(c: StreamChunk)
    ensures Deltas([c]) == CallDeltas(c) && Concat(Contents([c])) == ChunkText(c)
  {
    Snoc([], c);
    NothingMore([c]);
    NothingMore(CallDeltas(c));
    TextSoFar([], c);
    NothingMore(ChunkText(c));
  }

  lemma OneDelta(d: CallDelta)
    ensures forall i: nat :: Of([d], i) == if d.index == i then [d] else []
    ensures LastName([d]) == d.name && Concat(Arguments([d])) == d.arguments
  {
    assert [d][..0] == [];
    assert Arguments([d]) == [d.arguments];
    NothingMore(d.arguments);
    assert Concat([d.arguments]) == d.arguments + Concat([]);
  }

  lemma OneFragment(d: CallDelta)
    requires d.index == 0
    ensures FragmentsOf([d], [ToolCall(d.id, d.name, d.arguments)])
  {
    OneDelta(d);
  }

  lemma OneFinishes(c: StreamChunk)
    requires Finishes(c)
    ensures FinishesAt([c], 0) && [c][..0 + 1] == [c]
  {
  }

  /** A whole answer in one chunk: a text and a call. */
  lemma OneChunkFragmented(c: StreamChunk, text: string, d: CallDelta, finish: string)
    requires c.choices == [StreamChoice(text, [d], Some(finish))] && d.index == 0
    ensures Fragmented([c], 0, Choice(SyncMessage(text, [ToolCall(d.id, d.name, d.arguments)]), finish))
  {
    OneChunk(c);
    OneFragment(d);
    OneFinishes(c);
  }

  /** A text beside calls: the stream hands over both, the one-shot response has only the calls. */
  lemma BothSaid(w: Wire, cs: seq<StreamChunk>, k: nat, ch: Choice, usage: Option<Usage>, more: seq<Message>)
    requires Fragmented(cs, k, ch) && ch.message.calls != [] && ch.message.content != ""
    ensures var out := Run(OnMessage(w), INITIAL, Messages(cs) + more).out;
            && Said(out) == Chars(ch.message.content) + Atoms(CallParts(w, ch.message.calls))
            && !Agrees(out, SyncResponse(w, ChatResponse([ch], usage)))
  {
    StreamAgreesWithSync(w, cs, k, ch, usage, more);
    RunToFinish(w, cs, k, more);
    CompletionSays(w, cs, k, ch);
  }

  /** Such a stream: one chunk with the text "a", a call of f, and the finish reason. */
  lemma TextBesideCallsDeparts(w: Wire, usage: Option<Usage>) returns (c: StreamChunk, ch: Choice)
    ensures c == StreamChunk([StreamChoice("a", [CallDelta(0, "", "f", "")], Some("stop"))], None)
    ensures ch == Choice(SyncMessage("a", [ToolCall("", "f", "")]), "stop")
    ensures !Agrees(Run(OnMessage(w), INITIAL, Messages([c]) + []).out, SyncResponse(w, ChatResponse([ch], usage)))
  {
    var d := CallDelta(0, "", "f", "");
    c := StreamChunk([StreamChoice("a", [d], Some("stop"))], None);
    ch := Choice(SyncMessage("a", [ToolCall("", "f", "")]), "stop");
    OneChunkFragmented(c, "a", d, "stop");
    BothSaid(w, [c], 0, ch, usage, []);
  }

  // ---- End to end ----

  function EventOf(encode: StreamChunk -> string, m: Message): Event
    requires m.Chunked? || m.EndMark?
  {
    Event("", if m.Chunked? then encode(m.c) else "[DONE]")
  }

  ghost predicate Faithful(w: Wire, encode: StreamChunk -> string) {
    forall c :: OneLine(encode(c)) && encode(c) != "[DONE]" && w.chunk(encode(c)) == Some(c)
  }

  ghost predicate AllSendable(ms: seq<Message>) {
    forall i :: 0 <= i < |ms| ==> ms[i].Chunked? || ms[i].EndMark?
  }

  function EventsOf(encode: StreamChunk -> string, ms: seq<Message>): seq<Event>
    requires AllSendable(ms)
  {
    seq(|ms|, i requires 0 <= i < |ms| => EventOf(encode, ms[i]))
  }

  /** The lines on the wire are those of the chunks' events, with ignored lines and terminators at will. */
  ghost predicate Transmits(ls: seq<Line>, encode: StreamChunk -> string, ms: seq<Message>) {
    && AllSendable(ms)
    && (forall l :: l in ls ==> l.Fits())
    && Significant(Texts(ls)) == PrintLines(EventsOf(encode, ms))
  }

  function DecodeAll(w: Wire, ds: seq<Delivery>): seq<Message> {
    seq(|ds|, i requires 0 <= i < |ds| => Decode(w, ds[i]))
  }

  lemma {:induction false} RunDecoded(w: Wire, st: State, ds: seq<Delivery>)
    ensures Run(OnDelivery(w), st, ds) == Run(OnMessage(w), st, DecodeAll(w, ds))
  {
    if ds != [] {
      var init := ds[..|ds| - 1];
      RunDecoded(w, st, init);
      assert DecodeAll(w, ds)[..|ds| - 1] == DecodeAll(w, init);
    }
  }

  lemma EventArrives(w: Wire, encode: StreamChunk -> string, m: Message)
    requires Faithful(w, encode) && (m.Chunked? || m.EndMark?)
    ensures Printable(EventOf(encode, m)) && Decode(w, Got(EventOf(encode, m))) == m
  {
    if m.Chunked? {
      assert OneLine(encode(m.c));
    } else {
      assert OneLine("[DONE]");
    }
    OneLinePrintable(EventOf(encode, m));
  }

  /** What the event reader makes of a transmission decodes to the chunks that were sent. */
  lemma Transmission(w: Wire, encode: StreamChunk -> string, ls: seq<Line>, ms: seq<Message>)
    requires Faithful(w, encode) && Transmits(ls, encode, ms)
    ensures DecodeAll(w, ReadAll(Stream(Assemble(ls), false))) == ms
  {
    var es := EventsOf(encode, ms);
    forall i | 0 <= i < |ms| ensures Printable(es[i]) && Decode(w, Got(es[i])) == ms[i] {
      EventArrives(w, encode, ms[i]);
    }
    RoundTrip(ls, es);
  }

  /** End to end: fragmented, encoded, printed, read and folded, the answer is that of the one-shot conversion. */
  lemma EndToEnd(w: Wire, encode: StreamChunk -> string, cs: seq<StreamChunk>, k: nat, ch: Choice,
                 usage: Option<Usage>, more: seq<Message>, ls: seq<Line>)
    requires Faithful(w, encode) && Transmits(ls, encode, Messages(cs) + more)
    requires Fragmented(cs, k, ch)
    ensures Rebuilds(w, StreamAll(w, Opened(ReadAll(Stream(Assemble(ls), false)))), cs, k, ch, usage)
  {
    Transmission(w, encode, ls, Messages(cs) + more);
    RunDecoded(w, INITIAL, ReadAll(Stream(Assemble(ls), false)));
    StreamAgreesWithSync(w, cs, k, ch, usage, more);
  }
}
