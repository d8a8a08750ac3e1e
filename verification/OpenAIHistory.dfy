/**
  The conversation as OpenAI messages: one message for each content.
 */
module OpenAIHistory {
  import opened Llm
  import opened History
  import opened Seqs
  import OpenAI

  type ToolCall = OpenAI.ToolCall

  datatype Message = Message(role: string, content: string, calls: seq<ToolCall>, toolCallId: string)

  function CallOf(marshal: Marshal, p: HistoryPart): seq<ToolCall> {
    if p.call.None? then []
    else
      var fc := p.call.value;
      [OpenAI.ToolCall(IdOr(fc.id, fc.name), fc.name, marshal(fc.args))]
  }

  function CallsOf(marshal: Marshal, ps: seq<HistoryPart>): seq<ToolCall> {
    if ps == [] then [] else CallsOf(marshal, ps[..|ps| - 1]) + CallOf(marshal, ps[|ps| - 1])
  }

  function MessageOf(marshal: Marshal, c: Content): Message {
    var role, text := MapRole(c.role), AllText(c.parts);
    if role == "tool" && c.parts != [] && c.parts[0].response.Some? then
      var fr := c.parts[0].response.value;
      Message(role, marshal(fr.response), [], IdOr(fr.id, fr.name))
    else if role == "assistant" then
      var calls := CallsOf(marshal, c.parts);
      Message(role, if calls == [] then text else "", calls, "")
    else Message(role, text, [], "")
  }

  method TextOf(c: Content) returns (text: string)
    ensures text == AllText(c.parts)
  {
    text := "";
    for i := 0 to |c.parts|
      invariant text == AllText(c.parts[..i])
    {
      assert c.parts[..i + 1] == c.parts[..i] + [c.parts[i]];
      AllTextSnoc(c.parts[..i], c.parts[i]);
      if c.parts[i].text != "" {
        text := text + c.parts[i].text;
      }
    }
    assert c.parts[..|c.parts|] == c.parts;
  }

  /** The body of the loop over the contents. */
  method ConvertContent(marshal: Marshal, c: Content) returns (msg: Message)
    ensures msg == MessageOf(marshal, c)
  {
    var role := MapRole(c.role);
    var text := TextOf(c);
    msg := Message(role, text, [], "");
    if role == "tool" && |c.parts| > 0 {
      if c.parts[0].response.Some? {
        var fr := c.parts[0].response.value;
        var id := fr.id;
        if id == "" {
          id := fr.name;
        }
        msg := msg.(toolCallId := id, content := marshal(fr.response));
      }
    }
    if role == "assistant" {
      for i := 0 to |c.parts|
        invariant msg == Message(role, text, CallsOf(marshal, c.parts[..i]), "")
      {
        assert c.parts[..i + 1][..i] == c.parts[..i];
        if c.parts[i].call.Some? {
          var fc := c.parts[i].call.value;
          msg := msg.(calls := msg.calls + [OpenAI.ToolCall(IdOr(fc.id, fc.name), fc.name, marshal(fc.args))]);
        }
      }
      assert c.parts[..|c.parts|] == c.parts;
      if |msg.calls| > 0 {
        msg := msg.(content := "");
      }
    }
  }

  method ConvertContents(marshal: Marshal, contents: seq<Content>) returns (msgs: seq<Message>)
    ensures |msgs| == |contents|
    ensures forall i :: 0 <= i < |contents| ==> msgs[i] == MessageOf(marshal, contents[i])
  {
    msgs := [];
    for i := 0 to |contents|
      invariant |msgs| == i && forall j :: 0 <= j < i ==> msgs[j] == MessageOf(marshal, contents[j])
    {
      var msg := ConvertContent(marshal, contents[i]);
      msgs := msgs + [msg];
    }
  }

  /** The message has the content's role, the model's under another name. */
  lemma RoleKept(marshal: Marshal, c: Content)
    ensures MessageOf(marshal, c).role == if c.role == "model" then "assistant" else c.role
  {
  }

  // ---- Calls are kept ----

  function HasCall(): HistoryPart -> bool {
    (p: HistoryPart) => p.call.Some?
  }

  /** The calls are those of the parts, one for each and in order. */
  ghost predicate CallsFit(marshal: Marshal, calls: seq<ToolCall>, ps: seq<HistoryPart>) {
    && |calls| == Count(HasCall(), ps, |ps|)
    && forall i :: 0 <= i < |ps| && ps[i].call.Some? ==>
         var fc, k := ps[i].call.value, Count(HasCall(), ps, i);
         k < |calls| && calls[k] == OpenAI.ToolCall(if fc.id == "" then fc.name else fc.id, fc.name, marshal(fc.args))
  }

  lemma CallsNext(marshal: Marshal, calls: seq<ToolCall>, init: seq<HistoryPart>, last: HistoryPart)
    requires CallsFit(marshal, calls, init)
    ensures CallsFit(marshal, calls + CallOf(marshal, last), init + [last])
  {
    var ps := init + [last];
    Snoc(init, last);
    forall i | 0 <= i <= |init| ensures Count(HasCall(), ps, i) == Count(HasCall(), init, i) {
      CountInit(HasCall(), ps, i);
    }
  }

  /** Every call of a model content is sent, once and in order, with its id or else its name, and its arguments. */
  lemma {:induction false} CallsKept(marshal: Marshal, ps: seq<HistoryPart>)
    ensures CallsFit(marshal, CallsOf(marshal, ps), ps)
    ensures MessageOf(marshal, Content("model", ps)).calls == CallsOf(marshal, ps)
  {
    if ps != [] {
      CallsKept(marshal, ps[..|ps| - 1]);
      CallsNext(marshal, CallsOf(marshal, ps[..|ps| - 1]), ps[..|ps| - 1], ps[|ps| - 1]);
      InitLast(ps);
    }
  }

  // ---- Results find their calls ----

  lemma {:induction false} CallIsSent(marshal: Marshal, ps: seq<HistoryPart>, k: nat)
    requires k < |ps| && ps[k].call.Some?
    ensures var fc := ps[k].call.value;
            OpenAI.ToolCall(IdOr(fc.id, fc.name), fc.name, marshal(fc.args)) in CallsOf(marshal, ps)
  {
    if k < |ps| - 1 {
      CallIsSent(marshal, ps[..|ps| - 1], k);
    }
  }

  /** An earlier content of the model calls this function under this id. */
  ghost predicate CalledBefore(cs: seq<Content>, i: nat, id: string, name: string)
    requires i < |cs|
  {
    exists j, k :: 0 <= j < i && 0 <= k < |cs[j].parts| && cs[j].role == "model" &&
      cs[j].parts[k].call.Some? && cs[j].parts[k].call.value.id == id && cs[j].parts[k].call.value.name == name
  }

  /** A tool content that answers an earlier call names, in its message, a call of an earlier message. */
  lemma ResultsFindTheirCalls(marshal: Marshal, cs: seq<Content>, i: nat)
    requires i < |cs| && cs[i].role == "tool" && cs[i].parts != [] && cs[i].parts[0].response.Some?
    requires var fr := cs[i].parts[0].response.value; CalledBefore(cs, i, fr.id, fr.name)
    ensures exists j :: 0 <= j < i && exists call ::
              call in MessageOf(marshal, cs[j]).calls && call.id == MessageOf(marshal, cs[i]).toolCallId
  {
    var fr := cs[i].parts[0].response.value;
    var j, k :| 0 <= j < i && 0 <= k < |cs[j].parts| && cs[j].role == "model" &&
      cs[j].parts[k].call.Some? && cs[j].parts[k].call.value.id == fr.id && cs[j].parts[k].call.value.name == fr.name;
    CallIsSent(marshal, cs[j].parts, k);
    var fc := cs[j].parts[k].call.value;
    var call := OpenAI.ToolCall(IdOr(fc.id, fc.name), fc.name, marshal(fc.args));
    assert call in MessageOf(marshal, cs[j]).calls && call.id == MessageOf(marshal, cs[i]).toolCallId;
  }

  // ---- What is not sent ----

  /** The content without the responses that the conversion does not look at. */
  function WithoutIgnored(c: Content): Content {
    c.(parts := seq(|c.parts|, i requires 0 <= i < |c.parts| =>
        if c.role == "tool" && i == 0 then c.parts[i] else c.parts[i].(response := None)))
  }

  lemma {:induction false} SameWithoutResponses(marshal: Marshal, ps: seq<HistoryPart>, qs: seq<HistoryPart>)
    requires |ps| == |qs| && forall i :: 0 <= i < |ps| ==> ps[i].text == qs[i].text && ps[i].call == qs[i].call
    ensures AllText(ps) == AllText(qs) && CallsOf(marshal, ps) == CallsOf(marshal, qs)
  {
    if ps != [] {
      SameWithoutResponses(marshal, ps[..|ps| - 1], qs[..|qs| - 1]);
      AllTextSnoc(ps[..|ps| - 1], ps[|ps| - 1]);
      AllTextSnoc(qs[..|qs| - 1], qs[|qs| - 1]);
      InitLast(ps);
      InitLast(qs);
    }
  }

  /** Only a response that is the first part of a tool content reaches the message; any other is dropped. */
  lemma OtherResponsesDropped(marshal: Marshal, c: Content)
    ensures MessageOf(marshal, c) == MessageOf(marshal, WithoutIgnored(c))
  {
    SameWithoutResponses(marshal, c.parts, WithoutIgnored(c).parts);
  }

  /** A function response as it is sent. */
  datatype Answer = Answer(callId: string, content: string)

  function AnswerOf(marshal: Marshal, r: FunctionResponse): Answer {
    Answer(IdOr(r.id, r.name), marshal(r.response))
  }

  /** All responses of a content, in order. */
  function Answers(marshal: Marshal, ps: seq<HistoryPart>): seq<Answer> {
    if ps == [] then []
    else
      (if ps[0].response.Some? then [AnswerOf(marshal, ps[0].response.value)] else []) + Answers(marshal, ps[1..])
  }

  /** The responses that a message carries, given whether it is one made from a response. */
  function Carried(answers: bool, m: Message): seq<Answer> {
    if answers then [Answer(m.toolCallId, m.content)] else []
  }

  ghost predicate NoResponse(ps: seq<HistoryPart>) {
    forall k :: 0 <= k < |ps| ==> ps[k].response.None?
  }

  lemma {:induction false} NoAnswers(marshal: Marshal, ps: seq<HistoryPart>)
    ensures Answers(marshal, ps) == [] <==> NoResponse(ps)
  {
    if ps != [] {
      NoAnswers(marshal, ps[1..]);
      assert NoResponse(ps) <==> ps[0].response.None? && NoResponse(ps[1..]) by {
        assert forall k :: 1 <= k < |ps| ==> ps[k] == ps[1..][k - 1];
      }
    }
  }

  /** A message is made from a response if its content is a tool's and starts with one. */
  predicate StartsWithResponse(c: Content) {
    c.role == "tool" && c.parts != [] && c.parts[0].response.Some?
  }

  /** Every response of a content is sent exactly if it is the first part of a tool content: any other is lost. */
  lemma ResponsesKept(marshal: Marshal, c: Content)
    ensures Carried(StartsWithResponse(c), MessageOf(marshal, c)) == Answers(marshal, c.parts) <==>
            forall k :: 0 <= k < |c.parts| && c.parts[k].response.Some? ==> c.role == "tool" && k == 0
  {
    var ps := c.parts;
    NoAnswers(marshal, ps);
    if StartsWithResponse(c) {
      NoAnswers(marshal, ps[1..]);
      NothingMore([AnswerOf(marshal, ps[0].response.value)]);
      assert forall k :: 1 <= k < |ps| ==> ps[k] == ps[1..][k - 1];
    }
  }

  function ResponsePart(r: FunctionResponse): HistoryPart {
    HistoryPart("", None, Some(r))
  }

  /** Two responses in one tool content: the second is lost. */
  lemma SecondResponseLost(marshal: Marshal, q: FunctionResponse, r: FunctionResponse)
    ensures var c := Content("tool", [ResponsePart(q), ResponsePart(r)]);
            && Answers(marshal, c.parts) == [AnswerOf(marshal, q), AnswerOf(marshal, r)]
            && Carried(StartsWithResponse(c), MessageOf(marshal, c)) == [AnswerOf(marshal, q)]
  {
    var ps := [ResponsePart(q), ResponsePart(r)];
    assert ps[1..] == [ResponsePart(r)] && ps[1..][1..] == [];
    assert Answers(marshal, ps[1..]) == [AnswerOf(marshal, r)] + [];
  }

  /** A response in a user content: it is lost, and the message has neither its id nor any content. */
  lemma UserResponseLost(marshal: Marshal, r: FunctionResponse)
    ensures var c := Content("user", [ResponsePart(r)]);
            && Answers(marshal, c.parts) == [AnswerOf(marshal, r)]
            && MessageOf(marshal, c) == Message("user", "", [], "")
  {
    var ps := [ResponsePart(r)];
    assert ps[1..] == [];
    assert AllText(ps) == "" + AllText(ps[1..]);
  }

  lemma {:induction false} NoCalls(marshal: Marshal, ps: seq<HistoryPart>)
    ensures CallsOf(marshal, ps) == [] <==> forall i :: 0 <= i < |ps| ==> ps[i].call.None?
  {
    if ps != [] {
      NoCalls(marshal, ps[..|ps| - 1]);
      assert forall i :: 0 <= i < |ps| - 1 ==> ps[..|ps| - 1][i] == ps[i];
    }
  }

  /** The text of a model content is sent exactly if there is none or it comes without calls. */
  lemma ModelTextKept(marshal: Marshal, c: Content)
    requires c.role == "model"
    ensures MessageOf(marshal, c).content == AllText(c.parts) <==>
            AllText(c.parts) == "" || forall i :: 0 <= i < |c.parts| ==> c.parts[i].call.None?
  {
    NoCalls(marshal, c.parts);
  }

  /** A text beside a call: the text is lost. */
  lemma TextBesideCallLost(marshal: Marshal, fc: FunctionCall)
    ensures var c := Content("model", [HistoryPart("a", Some(fc), None)]);
            MessageOf(marshal, c).content == "" && AllText(c.parts) == "a"
  {
    var c := Content("model", [HistoryPart("a", Some(fc), None)]);
    assert c.parts[1..] == [] && AllText(c.parts) == "a" + "";
    CallIsSent(marshal, c.parts, 0);
  }
}
