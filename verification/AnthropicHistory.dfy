/**
  The conversation as Anthropic messages: a system text, and messages of blocks.
 */
module AnthropicHistory {
  import opened Llm
  import opened History
  import opened Seqs

  datatype Block =
    | TextBlock(text: string)
    | ToolUse(id: string, name: string, input: Args)
    | ToolResult(toolUseId: string, content: string)

  datatype Message = Message(role: string, content: seq<Block>)

  datatype Converted = Converted(system: string, messages: seq<Message>)

  /** A part becomes one block, by the first of its fields that is set; or none. */
  function ImageOf(marshal: Marshal, p: HistoryPart): seq<Block> {
    if p.text != "" then [TextBlock(p.text)]
    else if p.call.Some? then [ToolUse(p.call.value.id, p.call.value.name, p.call.value.args)]
    else if p.response.Some? then
      var r := p.response.value;
      [ToolResult(IdOr(r.id, r.name), marshal(r.response))]
    else []
  }

  function Images(marshal: Marshal, ps: seq<HistoryPart>): seq<Block> {
    if ps == [] then [] else Images(marshal, ps[..|ps| - 1]) + ImageOf(marshal, ps[|ps| - 1])
  }

  /** The first text of a content. */
  function ExtractText(ps: seq<HistoryPart>): string {
    if ps == [] then "" else if ps[0].text != "" then ps[0].text else ExtractText(ps[1..])
  }

  predicate ToolResultFirst(blocks: seq<Block>) {
    blocks != [] && blocks[0].ToolResult?
  }

  function RoleFor(role: string, blocks: seq<Block>): string {
    if ToolResultFirst(blocks) then "user" else MapRole(role)
  }

  method ImagesOf(marshal: Marshal, c: Content) returns (blocks: seq<Block>)
    ensures blocks == Images(marshal, c.parts)
  {
    blocks := [];
    for i := 0 to |c.parts|
      invariant blocks == Images(marshal, c.parts[..i])
    {
      assert c.parts[..i + 1][..i] == c.parts[..i];
      var part := c.parts[i];
      if part.text != "" {
        blocks := blocks + [TextBlock(part.text)];
      } else if part.call.Some? {
        var fc := part.call.value;
        blocks := blocks + [ToolUse(fc.id, fc.name, fc.args)];
      } else if part.response.Some? {
        var fr := part.response.value;
        var toolId := fr.id;
        if toolId == "" {
          toolId := fr.name;
        }
        blocks := blocks + [ToolResult(toolId, marshal(fr.response))];
      }
    }
    assert c.parts[..|c.parts|] == c.parts;
  }

  /** One content more. */
  function Append(marshal: Marshal, acc: Converted, c: Content): Converted {
    var blocks := Images(marshal, c.parts);
    if MapRole(c.role) == "system" then acc.(system := ExtractText(c.parts))
    else if blocks == [] then acc
    else acc.(messages := acc.messages + [Message(RoleFor(c.role, blocks), blocks)])
  }

  function ConvertedFrom(marshal: Marshal, cs: seq<Content>): Converted {
    if cs == [] then Converted("", [])
    else Append(marshal, ConvertedFrom(marshal, cs[..|cs| - 1]), cs[|cs| - 1])
  }

  method ConvertContents(marshal: Marshal, contents: seq<Content>) returns (system: string, messages: seq<Message>)
    ensures Converted(system, messages) == ConvertedFrom(marshal, contents)
  {
    system, messages := "", [];
    for i := 0 to |contents|
      invariant Converted(system, messages) == ConvertedFrom(marshal, contents[..i])
    {
      assert contents[..i + 1][..i] == contents[..i];
      var c := contents[i];
      var role := MapRole(c.role);
      if role == "system" {
        system := ExtractText(c.parts);
      } else {
        var blocks := ImagesOf(marshal, c);
        if |blocks| > 0 {
          if blocks[0].ToolResult? {
            role := "user";
          }
          messages := messages + [Message(role, blocks)];
        }
      }
    }
    assert contents[..|contents|] == contents;
  }

  // ---- Nothing is lost, nothing is reordered ----

  /** All blocks of all messages, in order. */
  function Blocks(ms: seq<Message>): seq<Block> {
    if ms == [] then [] else Blocks(ms[..|ms| - 1]) + ms[|ms| - 1].content
  }

  /** All parts of the contents that are not system contents, in order. */
  function SpokenParts(cs: seq<Content>): seq<HistoryPart> {
    if cs == [] then []
    else SpokenParts(cs[..|cs| - 1]) + if cs[|cs| - 1].role == "system" then [] else cs[|cs| - 1].parts
  }

  lemma {:induction false} ImagesAppend(marshal: Marshal, a: seq<HistoryPart>, b: seq<HistoryPart>)
    ensures Images(marshal, a + b) == Images(marshal, a) + Images(marshal, b)
  {
    if b == [] {
      NothingMore(a);
      NothingMore(Images(marshal, a));
    } else {
      AppendInit(a, b);
      ImagesAppend(marshal, a, b[..|b| - 1]);
      Assoc(Images(marshal, a), Images(marshal, b[..|b| - 1]), ImageOf(marshal, b[|b| - 1]));
    }
  }

  lemma AppendBlocks(marshal: Marshal, acc: Converted, c: Content)
    ensures Blocks(Append(marshal, acc, c).messages) ==
            Blocks(acc.messages) + Images(marshal, if c.role == "system" then [] else c.parts)
  {
    var blocks, ms := Images(marshal, c.parts), acc.messages;
    if c.role != "system" && blocks != [] {
      Snoc(ms, Message(RoleFor(c.role, blocks), blocks));
    } else {
      NothingMore(Blocks(ms));
    }
  }

  /** The blocks sent are the images of the recognised parts of all spoken contents, in order. */
  lemma {:induction false} ContentKept(marshal: Marshal, cs: seq<Content>)
    ensures Blocks(ConvertedFrom(marshal, cs).messages) == Images(marshal, SpokenParts(cs))
  {
    if cs != [] {
      var init, last := cs[..|cs| - 1], cs[|cs| - 1];
      ContentKept(marshal, init);
      ImagesAppend(marshal, SpokenParts(init), if last.role == "system" then [] else last.parts);
      AppendBlocks(marshal, ConvertedFrom(marshal, init), last);
    }
  }

  /** No message is empty. */
  lemma {:induction false} NoEmptyMessage(marshal: Marshal, cs: seq<Content>, i: nat)
    requires i < |ConvertedFrom(marshal, cs).messages|
    ensures ConvertedFrom(marshal, cs).messages[i].content != []
  {
    var init := ConvertedFrom(marshal, cs[..|cs| - 1]).messages;
    if i < |init| {
      NoEmptyMessage(marshal, cs[..|cs| - 1], i);
    }
  }

  /**
    Each message holds one content's blocks, under a role that fits them: tool results
    first means a user message, whatever the content's role was.
   */
  lemma {:induction false} RolesFit(marshal: Marshal, cs: seq<Content>, i: nat)
    requires i < |ConvertedFrom(marshal, cs).messages|
    ensures var m := ConvertedFrom(marshal, cs).messages[i];
            exists c :: c in cs && c.role != "system" && m.content == Images(marshal, c.parts) &&
                        m.role == if ToolResultFirst(m.content) then "user"
                                  else if c.role == "model" then "assistant" else c.role
  {
    var init, last := cs[..|cs| - 1], cs[|cs| - 1];
    if i < |ConvertedFrom(marshal, init).messages| {
      RolesFit(marshal, init, i);
    } else {
      assert last in cs;
    }
  }

  /** The system text is the first text of the last system content; earlier ones are gone. */
  lemma {:induction false} LastSystemWins(marshal: Marshal, cs: seq<Content>, k: nat)
    requires k < |cs| && cs[k].role == "system"
    requires forall i :: k < i < |cs| ==> cs[i].role != "system"
    ensures ConvertedFrom(marshal, cs).system == ExtractText(cs[k].parts)
  {
    if k < |cs| - 1 {
      LastSystemWins(marshal, cs[..|cs| - 1], k);
    }
  }

  // ---- Results and calls ----

  /** What the images are: a text, a tool use under the call's own id, a tool result, or nothing. */
  lemma ImageIs(marshal: Marshal, p: HistoryPart)
    ensures p.text != "" ==> ImageOf(marshal, p) == [TextBlock(p.text)]
    ensures p.text == "" && p.call.Some? ==>
              ImageOf(marshal, p) == [ToolUse(p.call.value.id, p.call.value.name, p.call.value.args)]
    ensures p.text == "" && p.call.None? && p.response.Some? ==>
              var r := p.response.value;
              ImageOf(marshal, p) == [ToolResult(if r.id == "" then r.name else r.id, marshal(r.response))]
    ensures p.text == "" && p.call.None? && p.response.None? ==> ImageOf(marshal, p) == []
  {
  }

  /** The part of a call, and the part of the response to it, with the same id and name. */
  function CallPartOf(fc: FunctionCall): HistoryPart { HistoryPart("", Some(fc), None) }

  function ResponsePartOf(fc: FunctionCall, response: Args): HistoryPart {
    HistoryPart("", None, Some(FunctionResponse(fc.id, fc.name, response)))
  }

  /**
    The result of a call refers to the id of its tool use exactly if the call has an id
    (or no name): without one, the result goes by the name, the tool use does not.
   */
  lemma ResultFindsCall(marshal: Marshal, fc: FunctionCall, response: Args)
    ensures var use, result := ImageOf(marshal, CallPartOf(fc)), ImageOf(marshal, ResponsePartOf(fc, response));
            && |use| == 1 == |result| && use[0].ToolUse? && result[0].ToolResult?
            && (result[0].toolUseId == use[0].id <==> fc.id != "" || fc.name == "")
  {
  }

  /** A call without an id: its result refers to a tool use that does not exist. */
  lemma ResultWithoutId(marshal: Marshal, args: Args, response: Args)
    ensures var fc := FunctionCall("", "f", args);
            && ImageOf(marshal, CallPartOf(fc)) == [ToolUse("", "f", args)]
            && ImageOf(marshal, ResponsePartOf(fc, response)) == [ToolResult("f", marshal(response))]
  {
  }

  // ---- The system text ----

  /** All texts of all system contents, one after the other. */
  function SystemTexts(cs: seq<Content>): string {
    if cs == [] then ""
    else SystemTexts(cs[..|cs| - 1]) + if cs[|cs| - 1].role == "system" then AllText(cs[|cs| - 1].parts) else ""
  }

  /** No text but the first that is not empty. */
  ghost predicate OneText(ps: seq<HistoryPart>) {
    forall j, k :: 0 <= j < k < |ps| && ps[j].text != "" ==> ps[k].text == ""
  }

  ghost predicate LastSystem(cs: seq<Content>, i: nat) {
    i < |cs| && cs[i].role == "system" && forall j :: i < j < |cs| ==> cs[j].role != "system"
  }

  /** Only the last system content has texts, and only one. */
  ghost predicate OneSystemText(cs: seq<Content>) {
    forall i :: 0 <= i < |cs| && cs[i].role == "system" ==>
      if LastSystem(cs, i) then OneText(cs[i].parts) else NoText(cs[i].parts)
  }

  ghost predicate NoSystemText(cs: seq<Content>) {
    forall i :: 0 <= i < |cs| && cs[i].role == "system" ==> NoText(cs[i].parts)
  }

  /** The first text is all the text exactly if there is no other. */
  lemma {:induction false} FirstTextExact(ps: seq<HistoryPart>)
    ensures ExtractText(ps) == AllText(ps) <==> OneText(ps)
    ensures ExtractText(ps) <= AllText(ps)
  {
    if ps != [] {
      var rest := ps[1..];
      assert forall k :: 1 <= k < |ps| ==> ps[k] == rest[k - 1];
      if ps[0].text == "" {
        FirstTextExact(rest);
        assert AllText(ps) == AllText(rest);
        assert OneText(rest) ==> OneText(ps);
        assert OneText(ps) ==> OneText(rest) by {
          assert forall k :: 0 <= k < |rest| ==> rest[k] == ps[k + 1];
        }
      } else {
        NoTextExact(rest);
        assert |AllText(ps)| == |ps[0].text| + |AllText(rest)|;
        assert OneText(ps) ==> NoText(rest) by {
          assert forall k :: 0 <= k < |rest| ==> rest[k] == ps[k + 1];
        }
      }
    }
  }

  lemma {:induction false} NoSystemTextExact(cs: seq<Content>)
    ensures SystemTexts(cs) == "" <==> NoSystemText(cs)
  {
    if cs != [] {
      var init, last := cs[..|cs| - 1], cs[|cs| - 1];
      NoSystemTextExact(init);
      NoTextExact(last.parts);
      assert forall i :: 0 <= i < |init| ==> init[i] == cs[i];
    }
  }

  lemma OneSystemTextSnoc(init: seq<Content>, last: Content)
    ensures OneSystemText(init + [last]) <==>
            if last.role == "system" then NoSystemText(init) && OneText(last.parts) else OneSystemText(init)
  {
    var cs := init + [last];
    assert forall i :: 0 <= i < |init| ==> init[i] == cs[i];
    if last.role == "system" {
      assert forall i :: 0 <= i < |init| ==> !LastSystem(cs, i) by {
        assert cs[|init|] == last;
      }
      assert LastSystem(cs, |init|);
    } else {
      assert forall i :: 0 <= i < |init| ==> (LastSystem(cs, i) <==> LastSystem(init, i));
    }
  }

  /** After a system content, given what was said before it: its first text is all there is exactly if nothing else is. */
  lemma LastText(before: string, ps: seq<HistoryPart>)
    ensures ExtractText(ps) == before + AllText(ps) <==> before == "" && OneText(ps)
  {
    FirstTextExact(ps);
    if before == "" {
      NothingMore(AllText(ps));
    } else {
      assert |ExtractText(ps)| < |before + AllText(ps)|;
    }
  }

  /**
    The system text is all the text of all system contents exactly if only the last of
    them has any, and has it in one part: every other text is lost.
   */
  lemma {:induction false} SystemKept(marshal: Marshal, cs: seq<Content>)
    ensures ConvertedFrom(marshal, cs).system == SystemTexts(cs) <==> OneSystemText(cs)
  {
    if cs != [] {
      var init, last := cs[..|cs| - 1], cs[|cs| - 1];
      InitLast(cs);
      OneSystemTextSnoc(init, last);
      if last.role == "system" {
        NoSystemTextExact(init);
        LastText(SystemTexts(init), last.parts);
      } else {
        SystemKept(marshal, init);
        NothingMore(SystemTexts(init));
      }
    }
  }

  function SystemContent(text: string): Content {
    Content("system", [HistoryPart(text, None, None)])
  }

  /** Of two system contents the first is lost. */
  lemma FirstSystemLost(marshal: Marshal)
    ensures var cs := [SystemContent("a"), SystemContent("b")];
            ConvertedFrom(marshal, cs).system == "b" && SystemTexts(cs) == "ab"
  {
    var cs := [SystemContent("a"), SystemContent("b")];
    LastSystemWins(marshal, cs, 1);
    assert cs[..1] == [SystemContent("a")] && cs[..1][..0] == [];
    assert cs[0].parts[1..] == [] && cs[1].parts[1..] == [];
    assert SystemTexts(cs[..1]) == "" + ("a" + "");
  }
}
