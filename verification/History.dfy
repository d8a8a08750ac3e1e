/**
  The conversation so far, as the agent loop keeps it.
 */
module History {
  import opened Llm
  import opened Seqs

  datatype FunctionCall = FunctionCall(id: string, name: string, args: Args)

  datatype FunctionResponse = FunctionResponse(id: string, name: string, response: Args)

  /** A part has three fields that may be set independently of each other. */
  datatype HistoryPart = HistoryPart(text: string, call: Option<FunctionCall>, response: Option<FunctionResponse>)

  datatype Content = Content(role: string, parts: seq<HistoryPart>)

  /** The role under which both providers send a content. */
  function MapRole(role: string): (r: string)
    ensures role == "model" ==> r == "assistant"
    ensures r == role <==> role != "model"
  {
    if role == "user" then "user" else if role == "model" then "assistant" else role
  }

  /** An id, or the function's name where there is none. */
  function IdOr(id: string, name: string): (r: string)
    ensures id == "" ==> r == name
    ensures r == id <==> id != "" || name == ""
  {
    if id == "" then name else id
  }

  /** All texts of a content, one after the other. */
  function AllText(ps: seq<HistoryPart>): string {
    if ps == [] then "" else ps[0].text + AllText(ps[1..])
  }

  lemma {:induction false} AllTextSnoc(ps: seq<HistoryPart>, p: HistoryPart)
    ensures AllText(ps + [p]) == AllText(ps) + p.text
  {
    if ps == [] {
      assert [p][1..] == [] && ps + [p] == [p];
    } else {
      AppendRest(ps, [p]);
      AllTextSnoc(ps[1..], p);
      Assoc(ps[0].text, AllText(ps[1..]), p.text);
    }
  }

  ghost predicate NoText(ps: seq<HistoryPart>) {
    forall k :: 0 <= k < |ps| ==> ps[k].text == ""
  }

  lemma {:induction false} NoTextExact(ps: seq<HistoryPart>)
    ensures AllText(ps) == "" <==> NoText(ps)
  {
    if ps != [] {
      NoTextExact(ps[1..]);
      assert NoText(ps) <==> ps[0].text == "" && NoText(ps[1..]) by {
        assert forall k :: 1 <= k < |ps| ==> ps[k] == ps[1..][k - 1];
      }
    }
  }

  /** JSON encoding of arguments and of responses. */
  type Marshal = Args -> string
}
