/**
  The event-stream algorithm of the WHATWG HTML Living Standard, sections 9.2.5
  and 9.2.6, as an independent reference for the reader, and the exact
  conditions under which the two agree.
 */
module SseStandard {
  import opened PushIter
  import opened Seqs
  import opened Text
  import opened Sse
  import opened SseFormat

  // ---- The standard ----

  /** Lines end with CRLF, LF or CR; what follows the last line end is discarded. `cur` is the line so far. */
  function StandardLines(s: string, cur: string): seq<string>
    decreases |s|
  {
    if s == "" then []
    else if s[0] == '\n' then [cur] + StandardLines(s[1..], "")
    else if s[0] == '\r' then [cur] + StandardLines(s[if |s| > 1 && s[1] == '\n' then 2 else 1..], "")
    else StandardLines(s[1..], cur + [s[0]])
  }

  /** A leading byte order mark is not part of the stream. */
  function StripBom(text: string): string {
    if text != "" && text[0] == '\U{FEFF}' then text[1..] else text
  }

  /** The data buffer and the event type buffer. An empty type buffer is the type "message". */
  datatype Buffers = Buffers(data: string, kind: string)

  const EMPTY := Buffers("", "")

  function Colon(line: string): (i: nat)
    ensures i <= |line| && (i < |line| ==> line[i] == ':') && ':' !in line[..i]
  {
    if line == "" || line[0] == ':' then 0 else 1 + Colon(line[1..])
  }

  function FieldName(line: string): string {
    line[..Colon(line)]
  }

  /** The characters after the first colon, without one leading space; empty if there is no colon. */
  function FieldValue(line: string): string {
    var i := Colon(line);
    if i == |line| then ""
    else if i + 1 < |line| && line[i + 1] == ' ' then line[i + 2..]
    else line[i + 1..]
  }

  function Dispatch(b: Buffers): Step<Buffers, Event> {
    if b.data == "" then Step(EMPTY, [], false)
    else if b.data[|b.data| - 1] == '\n' then Step(EMPTY, [Event(b.kind, b.data[..|b.data| - 1])], false)
    else Step(EMPTY, [Event(b.kind, b.data)], false)
  }

  function Process(b: Buffers, name: string, value: string): Step<Buffers, Event> {
    if name == "event" then Step(b.(kind := value), [], false)
    else if name == "data" then Step(b.(data := b.data + value + "\n"), [], false)
    else Step(b, [], false)
  }

  /** One line; a line that starts with a colon has the empty field name and changes nothing. */
  function Interpret(b: Buffers, line: string): Step<Buffers, Event> {
    if line == "" then Dispatch(b) else Process(b, FieldName(line), FieldValue(line))
  }

  /** All events the standard dispatches. What is pending at the end of the file is discarded. */
  function StandardEvents(text: string): seq<Event> {
    Run(Interpret, EMPTY, StandardLines(StripBom(text), "")).out
  }

  // ---- Lines agree unless a carriage return stands alone ----

  ghost predicate NoLoneCR(s: string) {
    forall i :: 0 <= i < |s| && s[i] == '\r' ==> i + 1 < |s| && s[i + 1] == '\n'
  }

  function DropCRs(raw: seq<string>): seq<string> {
    if raw == [] then [] else [DropCR(raw[0])] + DropCRs(raw[1..])
  }

  /** The last line is ended: nothing stands after it. */
  predicate Ended(s: string, cur: string) {
    if s == "" then cur == "" else s[|s| - 1] == '\n'
  }

  /** The standard's lines, given the reader's: those that are ended. */
  predicate AsStandard(standard: seq<string>, lines: seq<string>, ended: bool) {
    if ended then standard == lines
    else lines != [] && standard == lines[..|lines| - 1] && lines[|lines| - 1] != ""
  }

  lemma LineMore(line: string, standard: seq<string>, lines: seq<string>, ended: bool)
    requires AsStandard(standard, lines, ended)
    ensures AsStandard([line] + standard, [line] + lines, ended)
  {
    if !ended {
      AppendInit([line], lines);
    }
  }

  lemma NoLoneCRFrom(s: string, k: nat)
    requires NoLoneCR(s) && k <= |s|
    ensures NoLoneCR(s[k..])
  {
    assert forall i :: 0 <= i < |s[k..]| ==> s[k..][i] == s[k + i];
  }

  /** A line that CRLF ends: the scanner drops the CR. */
  lemma CRLFLine(s: string, cur: string)
    requires |s| > 1 && s[0] == '\r' && s[1] == '\n'
    ensures StandardLines(s, cur) == [cur] + StandardLines(s[2..], "")
    ensures DropCRs(RawLines(s, cur)) == [cur] + DropCRs(RawLines(s[2..], ""))
  {
    assert s[1..][1..] == s[2..];
    assert RawLines(s, cur) == RawLines(s[1..], cur + "\r") == [cur + "\r"] + RawLines(s[2..], "");
    Snoc(cur, '\r');
    AppendRest([cur + "\r"], RawLines(s[2..], ""));
  }

  lemma LFLine(s: string, cur: string)
    requires s != "" && s[0] == '\n' && '\r' !in cur
    ensures StandardLines(s, cur) == [cur] + StandardLines(s[1..], "")
    ensures DropCRs(RawLines(s, cur)) == [cur] + DropCRs(RawLines(s[1..], ""))
  {
    AppendRest([cur], RawLines(s[1..], ""));
  }

  lemma {:induction false} LinesAgree(s: string, cur: string)
    requires NoLoneCR(s) && '\r' !in cur
    ensures AsStandard(StandardLines(s, cur), DropCRs(RawLines(s, cur)), Ended(s, cur))
    decreases |s|
  {
    if s == "" {
      assert [cur][..0] == [];
    } else if s[0] == '\r' || s[0] == '\n' {
      var k := if s[0] == '\r' then 2 else 1;
      NoLoneCRFrom(s, k);
      LinesAgree(s[k..], "");
      if s[0] == '\r' {
        CRLFLine(s, cur);
      } else {
        LFLine(s, cur);
      }
      LineMore(cur, StandardLines(s[k..], ""), DropCRs(RawLines(s[k..], "")), Ended(s[k..], ""));
    } else {
      NoLoneCRFrom(s, 1);
      LinesAgree(s[1..], cur + [s[0]]);
    }
  }

  ghost predicate AllFit(raw: seq<string>) {
    forall i :: 0 <= i < |raw| ==> !TooLong(raw[i])
  }

  lemma {:induction false} ScanFits(raw: seq<string>)
    ensures if AllFit(raw) then ScanRaw(raw, false) == Scanned(DropCRs(raw), false) else ScanRaw(raw, false).failed
  {
    if raw != [] {
      ScanFits(raw[1..]);
      assert AllFit(raw) <==> !TooLong(raw[0]) && AllFit(raw[1..]) by {
        assert forall i :: 1 <= i < |raw| ==> raw[i] == raw[1..][i - 1];
      }
    }
  }

  // ---- One block ----

  /** Lines of one block, none of them blank. */
  ghost predicate IsBlock(block: seq<string>) {
    forall i :: 0 <= i < |block| ==> block[i] != ""
  }

  predicate Coloned(line: string, name: string) {
    FieldName(line) == name && Colon(line) < |line|
  }

  /** How the reader and the standard take the same line. */
  predicate SameValue(line: string) {
    Colon(line) < |line| && Trimmed(IsSpace, FieldValue(line))
  }

  /** The type the reader has after a block: the last coloned event type, trimmed; else the one it had. */
  function ReaderKind(carried: string, block: seq<string>): string {
    if block == [] then carried
    else
      var init, last := block[..|block| - 1], block[|block| - 1];
      if Coloned(last, "event") then TrimSpace(last[Colon(last) + 1..]) else ReaderKind(carried, init)
  }

  /** The last line that the standard reads as an event type is one the reader reads the same way. */
  predicate KindConforms(carried: string, block: seq<string>) {
    if block == [] then carried == ""
    else
      var init, last := block[..|block| - 1], block[|block| - 1];
      if FieldName(last) != "event" then KindConforms(carried, init)
      else if Colon(last) < |last| then SameValue(last)
      else ReaderKind(carried, init) == ""
  }

  predicate HasData(block: seq<string>) {
    exists i :: 0 <= i < |block| && FieldName(block[i]) == "data"
  }

  /** Every data line is coloned and trimmed but for one leading space, and the first is not empty. */
  predicate DataConforms(block: seq<string>) {
    if block == [] then true
    else
      var init, last := block[..|block| - 1], block[|block| - 1];
      && DataConforms(init)
      && (FieldName(last) == "data" ==> SameValue(last) && (!HasData(init) ==> FieldValue(last) != ""))
  }

  /** What a server must respect in a block with data, given the type left over from the blocks before. */
  predicate Conforms(carried: string, block: seq<string>) {
    HasData(block) ==> DataConforms(block) && KindConforms(carried, block)
  }

  /** The type left over: the reader keeps it until it has delivered an event. */
  function CarriedAfter(carried: string, block: seq<string>): string {
    if HasData(block) then "" else ReaderKind(carried, block)
  }

  lemma {:induction false} ColonAt(line: string, i: nat)
    requires i < |line| && line[i] == ':' && ':' !in line[..i]
    ensures Colon(line) == i
  {
    if i > 0 {
      assert line[0] == line[..i][0] && line[1..][..i - 1] == line[..i][1..];
      ColonAt(line[1..], i - 1);
    }
  }

  lemma PrefixNames(line: string, name: string)
    requires ':' !in name && HasPrefix(line, name + ":")
    ensures Colon(line) == |name| && Coloned(line, name)
  {
    var prefix := name + ":";
    assert line[..|name|] == prefix[..|name|] == name;
    assert line[|name|] == prefix[|name|];
    ColonAt(line, |name|);
  }

  lemma NamesPrefix(line: string, name: string)
    requires Coloned(line, name)
    ensures HasPrefix(line, name + ":")
  {
    assert line[..|name| + 1] == name + ":";
  }

  lemma NameOf(line: string, name: string)
    requires ':' !in name
    ensures Coloned(line, name) <==> HasPrefix(line, name + ":")
    ensures HasPrefix(line, name + ":") ==> Colon(line) == |name|
  {
    if HasPrefix(line, name + ":") {
      PrefixNames(line, name);
    } else if Coloned(line, name) {
      NamesPrefix(line, name);
    }
  }

  /** The reader's view of a line in the standard's terms: it sees only coloned event and data fields. */
  lemma MeaningIs(line: string)
    requires line != ""
    ensures HasPrefix(line, "event:") <==> Coloned(line, "event")
    ensures HasPrefix(line, "data:") <==> Coloned(line, "data")
    ensures HasPrefix(line, "event:") ==> Colon(line) == 5
    ensures HasPrefix(line, "data:") ==> Colon(line) == 4
  {
    NameOf(line, "event");
    NameOf(line, "data");
    assert "event" + ":" == "event:" && "data" + ":" == "data:";
  }

  /** The reader trims all that stands after the colon; the standard drops one space of it. */
  lemma ValueShape(line: string)
    requires Colon(line) < |line|
    ensures var v, u := line[Colon(line) + 1..], FieldValue(line); v == u || v == " " + u
  {
    var i := Colon(line);
    if i + 1 < |line| && line[i + 1] == ' ' {
      SuffixHead(line, i + 1);
    }
  }

  lemma TrimmedValue(v: string, u: string)
    requires v == u || v == " " + u
    ensures var t := TrimSpace(v); |t| <= |u| && (t == u <==> |t| == |u|) && (t == u <==> Trimmed(IsSpace, u))
  {
    TrimShape(IsSpace, u);
    TrimLeftPadded(IsSpace, " ", u);
  }

  /** The reader's value of a coloned line: never longer than the standard's, and equal only if trimmed. */
  lemma ValuesOf(line: string)
    requires Colon(line) < |line|
    ensures var t, u := TrimSpace(line[Colon(line) + 1..]), FieldValue(line);
            |t| <= |u| && (t == u <==> |t| == |u|) && (t == u <==> Trimmed(IsSpace, u))
  {
    ValueShape(line);
    TrimmedValue(line[Colon(line) + 1..], FieldValue(line));
  }

  /** What a line that is not blank does to the event type on either side; it puts out nothing. */
  lemma KindLine(e: Event, b: Buffers, line: string)
    requires line != ""
    ensures var q := ReadLine(e, line);
            q.out == [] && !q.done &&
            q.state.kind == if Coloned(line, "event") then TrimSpace(line[Colon(line) + 1..]) else e.kind
    ensures var p := Interpret(b, line);
            p.out == [] && !p.done && p.state.kind == if FieldName(line) == "event" then FieldValue(line) else b.kind
  {
    MeaningIs(line);
  }

  lemma KindStep(carried: string, init: seq<string>, last: string, e: Event, b: Buffers)
    requires last != "" && e.kind == ReaderKind(carried, init) && (e.kind == b.kind <==> KindConforms(carried, init))
    ensures var block, f, c := init + [last], ReadLine(e, last).state, Interpret(b, last).state;
            f.kind == ReaderKind(carried, block) && (f.kind == c.kind <==> KindConforms(carried, block))
  {
    KindLine(e, b, last);
    Snoc(init, last);
    if Coloned(last, "event") {
      ValuesOf(last);
    }
  }

  lemma {:induction false} KindsOfBlock(carried: string, block: seq<string>)
    requires IsBlock(block)
    ensures var r, s := Run(ReadLine, Event(carried, ""), block), Run(Interpret, EMPTY, block);
            && !r.done && !s.done && r.out == [] && s.out == []
            && r.state.kind == ReaderKind(carried, block)
            && (r.state.kind == s.state.kind <==> KindConforms(carried, block))
  {
    if block != [] {
      var init, last := block[..|block| - 1], block[|block| - 1];
      var e, b := Run(ReadLine, Event(carried, ""), init).state, Run(Interpret, EMPTY, init).state;
      KindsOfBlock(carried, init);
      KindLine(e, b, last);
      KindStep(carried, init, last, e, b);
      InitLast(block);
    }
  }

  /** The data the reader has and the standard's data buffer after the same lines of a block. */
  ghost predicate DataRelated(block: seq<string>, have: string, buffer: string) {
    && (buffer == "" <==> !HasData(block))
    && (buffer == "" ==> have == "")
    && (buffer != "" ==> |have| < |buffer| && buffer[|buffer| - 1] == '\n')
    && (buffer != "" ==> (have != "" && have + "\n" == buffer <==> DataConforms(block)))
    && (buffer == "" ==> DataConforms(block))
  }

  lemma HasDataSnoc(init: seq<string>, last: string)
    ensures HasData(init + [last]) <==> HasData(init) || FieldName(last) == "data"
  {
    var block := init + [last];
    if HasData(init) {
      var i :| 0 <= i < |init| && FieldName(init[i]) == "data";
      assert block[i] == init[i];
    }
    Snoc(init, last);
  }

  /** What the reader has is empty or has a character that is no white space; if it is empty, so is all of the buffer. */
  ghost predicate SolidRelated(have: string, buffer: string) {
    && (All(IsSpace, have) <==> have == "")
    && (have == "" ==> All(IsSpace, buffer))
  }

  /** One more data line, `t` as the reader has it and `u` as the standard has it. */
  lemma DataLineRelated(have: string, buffer: string, t: string, u: string)
    requires buffer == "" ==> have == ""
    requires buffer != "" ==> |have| < |buffer| && buffer[|buffer| - 1] == '\n'
    requires |t| <= |u| && (t == u <==> |t| == |u|)
    ensures var have' := if have != "" then have + "\n" + t else t;
            var buffer' := buffer + u + "\n";
            && |have'| < |buffer'| && buffer'[|buffer'| - 1] == '\n'
            && (have' != "" && have' + "\n" == buffer' <==>
                t == u && if buffer == "" then u != "" else have != "" && have + "\n" == buffer)
  {
    var have' := if have != "" then have + "\n" + t else t;
    var buffer' := buffer + u + "\n";
    if have' + "\n" == buffer' && buffer != "" {
      assert |have'| == |buffer| + |u|;
      if have != "" {
        assert |have| + 1 == |buffer| && |t| == |u|;
        assert (have' + "\n")[..|buffer|] == have + "\n" && buffer'[..|buffer|] == buffer;
      }
    }
  }

  lemma DataStep(init: seq<string>, last: string, e: Event, b: Buffers)
    requires last != "" && DataRelated(init, e.data, b.data)
    ensures DataRelated(init + [last], ReadLine(e, last).state.data, Interpret(b, last).state.data)
  {
    MeaningIs(last);
    HasDataSnoc(init, last);
    Snoc(init, last);
    if FieldName(last) == "data" {
      if Colon(last) < |last| {
        ValuesOf(last);
        DataLineRelated(e.data, b.data, TrimSpace(last[Colon(last) + 1..]), FieldValue(last));
      } else {
        assert b.data + FieldValue(last) + "\n" == b.data + "\n";
      }
    }
  }

  lemma BlankTrim(v: string, u: string)
    requires v == u || v == " " + u
    ensures TrimSpace(v) == "" <==> All(IsSpace, u)
  {
    TrimEmpty(IsSpace, v);
    AllAppend(IsSpace, " ", u);
  }

  /** The reader's value of a coloned line is empty exactly if the standard's is blank. */
  lemma BlankValues(line: string)
    requires Colon(line) < |line|
    ensures TrimSpace(line[Colon(line) + 1..]) == "" <==> All(IsSpace, FieldValue(line))
  {
    ValueShape(line);
    BlankTrim(line[Colon(line) + 1..], FieldValue(line));
  }

  lemma SolidStep(e: Event, b: Buffers, line: string)
    requires line != "" && SolidRelated(e.data, b.data)
    ensures SolidRelated(ReadLine(e, line).state.data, Interpret(b, line).state.data)
  {
    MeaningIs(line);
    if FieldName(line) == "data" {
      var u := FieldValue(line);
      AllAppend(IsSpace, b.data, u);
      AllAppend(IsSpace, b.data + u, "\n");
      if Colon(line) < |line| {
        BlankValues(line);
        var t := TrimSpace(line[Colon(line) + 1..]);
        TrimTrimmed(IsSpace, line[Colon(line) + 1..]);
        AllAppend(IsSpace, e.data + "\n", t);
        AllAppend(IsSpace, e.data, "\n");
      }
    }
  }

  lemma {:induction false} DataOfBlock(carried: string, block: seq<string>)
    requires IsBlock(block)
    ensures var have, buffer := Run(ReadLine, Event(carried, ""), block).state.data, Run(Interpret, EMPTY, block).state.data;
            DataRelated(block, have, buffer) && SolidRelated(have, buffer)
  {
    if block != [] {
      var init, last := block[..|block| - 1], block[|block| - 1];
      var e, b := Run(ReadLine, Event(carried, ""), init).state, Run(Interpret, EMPTY, init).state;
      DataOfBlock(carried, init);
      KindsOfBlock(carried, init);
      DataStep(init, last, e, b);
      SolidStep(e, b, last);
      InitLast(block);
    }
  }

  /** The event has a character that is no white space. */
  ghost predicate Solid(e: Event) {
    !All(IsSpace, e.data)
  }

  ghost predicate AllSolid(es: seq<Event>) {
    forall i :: 0 <= i < |es| ==> Solid(es[i])
  }

  ghost predicate AllSolidlyGot(ds: seq<Delivery>) {
    forall i :: 0 <= i < |ds| ==> ds[i].Got? && Solid(ds[i].event)
  }

  /**
    The reader has delivered no more events than the standard, all with visible data; and
    as many, if all of the standard's have visible data.
   */
  ghost predicate Counted(ds: seq<Delivery>, es: seq<Event>) {
    AllSolidlyGot(ds) && |ds| <= |es| && (AllSolid(es) ==> |ds| == |es|)
  }

  /** A blank line after a block: at most one event each, and the same ones exactly if the block conforms. */
  ghost predicate BlankDone(carried: string, block: seq<string>, r: Step<Event, Delivery>, s: Step<Buffers, Event>) {
    && s.state == EMPTY && !s.done && !r.done && r.state.data == ""
    && Counted(r.out, s.out) && |s.out| <= 1
    && (r.out == Deliveries(s.out) <==> Conforms(carried, block))
    && (Conforms(carried, block) ==> r.state.kind == CarriedAfter(carried, block))
  }

  lemma DeliveriesOne(e: Event)
    ensures Deliveries([e]) == [Got(e)] && Deliveries([]) == []
  {
  }

  lemma OneCounted(got: seq<Delivery>, e: Event, x: Event)
    requires got == if e.data != "" then [Got(e)] else []
    requires e.data != "" ==> Solid(e)
    requires e.data == "" ==> !Solid(x)
    ensures Counted(got, [x])
  {
    if e.data == "" {
      assert !Solid([x][0]);
    }
  }

  lemma BlankWithData(carried: string, block: seq<string>, e: Event, b: Buffers)
    requires HasData(block) && DataRelated(block, e.data, b.data) && SolidRelated(e.data, b.data)
    requires e.kind == ReaderKind(carried, block) && (e.kind == b.kind <==> KindConforms(carried, block))
    ensures BlankDone(carried, block, ReadLine(e, ""), Dispatch(b))
  {
    var data := b.data[..|b.data| - 1];
    assert data + "\n" == b.data;
    AllAppend(IsSpace, data, "\n");
    DeliveriesOne(Event(b.kind, data));
    OneCounted(ReadLine(e, "").out, e, Event(b.kind, data));
    assert e.data == data <==> e.data + "\n" == b.data by {
      assert (e.data + "\n")[..|e.data|] == e.data;
    }
    if e.data != "" {
      assert [Got(e)][0] == Got(e);
    }
  }

  lemma BlankWithoutData(carried: string, block: seq<string>, e: Event, b: Buffers)
    requires !HasData(block) && DataRelated(block, e.data, b.data)
    requires e.kind == ReaderKind(carried, block)
    ensures BlankDone(carried, block, ReadLine(e, ""), Dispatch(b))
  {
    DeliveriesOne(NO_EVENT);
  }

  /**
    Exactly when the reader takes a block as the standard does, whatever type was left
    over before it: both deliver the same event, or both none.
   */
  lemma BlockExact(carried: string, block: seq<string>)
    requires IsBlock(block)
    ensures BlankDone(carried, block, Run(ReadLine, Event(carried, ""), block + [""]), Run(Interpret, EMPTY, block + [""]))
  {
    KindsOfBlock(carried, block);
    DataOfBlock(carried, block);
    RunAppend(ReadLine, Event(carried, ""), block, [""]);
    RunAppend(Interpret, EMPTY, block, [""]);
    var e, b := Run(ReadLine, Event(carried, ""), block).state, Run(Interpret, EMPTY, block).state;
    RunOne(ReadLine, e, "");
    RunOne(Interpret, b, "");
    NothingMore(ReadLine(e, "").out);
    NothingMore(Dispatch(b).out);
    if HasData(block) {
      BlankWithData(carried, block, e, b);
    } else {
      BlankWithoutData(carried, block, e, b);
    }
  }

  /** The same for a block of one line: only a data line can make a difference. */
  lemma OneLineExact(line: string)
    requires line != ""
    ensures Run(ReadLine, NO_EVENT, [line] + [""]).out == Deliveries(Run(Interpret, EMPTY, [line] + [""]).out) <==>
            FieldName(line) == "data" ==> SameValue(line) && FieldValue(line) != ""
  {
    BlockExact("", [line]);
    HasDataSnoc([], line);
    Snoc([], line);
    assert [] + [line] == [line] && [line][..0] == [];
    assert "event"[0] != "data"[0];
    assert !HasData([]) && DataConforms([]) && KindConforms("", []);
  }

  // ---- Blocks ----

  /** Blocks, each ended by a blank line. */
  function Flatten(blocks: seq<seq<string>>): seq<string> {
    if blocks == [] then [] else Flatten(blocks[..|blocks| - 1]) + (blocks[|blocks| - 1] + [""])
  }

  ghost predicate AllBlocks(blocks: seq<seq<string>>) {
    forall i :: 0 <= i < |blocks| ==> IsBlock(blocks[i])
  }

  /** The type left over after these blocks. */
  function Carried(blocks: seq<seq<string>>): string {
    if blocks == [] then "" else CarriedAfter(Carried(blocks[..|blocks| - 1]), blocks[|blocks| - 1])
  }

  /** Every block conforms, given the type left over from those before it. */
  predicate AllConform(blocks: seq<seq<string>>) {
    blocks == [] ||
    (AllConform(blocks[..|blocks| - 1]) && Conforms(Carried(blocks[..|blocks| - 1]), blocks[|blocks| - 1]))
  }

  /** After these blocks both have put out the same events. */
  ghost predicate Agree(blocks: seq<seq<string>>) {
    Run(ReadLine, NO_EVENT, Flatten(blocks)).out == Deliveries(Run(Interpret, EMPTY, Flatten(blocks)).out)
  }

  lemma DeliveriesAppend(a: seq<Event>, b: seq<Event>)
    ensures Deliveries(a + b) == Deliveries(a) + Deliveries(b)
  {
  }

  lemma SolidDeliveries(ds: seq<Delivery>, es: seq<Event>)
    requires AllSolidlyGot(ds) && ds == Deliveries(es)
    ensures AllSolid(es)
  {
    forall i | 0 <= i < |es| ensures Solid(es[i]) {
      assert ds[i] == Got(es[i]);
    }
  }

  lemma SolidAppend(a: seq<Event>, b: seq<Event>)
    ensures AllSolid(a + b) <==> AllSolid(a) && AllSolid(b)
  {
    assert forall i :: 0 <= i < |a| ==> (a + b)[i] == a[i];
    assert forall i :: 0 <= i < |b| ==> (a + b)[|a| + i] == b[i];
  }

  lemma GotAppend(a: seq<Delivery>, b: seq<Delivery>)
    ensures AllSolidlyGot(a + b) <==> AllSolidlyGot(a) && AllSolidlyGot(b)
  {
    assert forall i :: 0 <= i < |a| ==> (a + b)[i] == a[i];
    assert forall i :: 0 <= i < |b| ==> (a + b)[|a| + i] == b[i];
  }

  /** What one block more puts out, from wherever the reader is. */
  lemma RunBlock(init: seq<seq<string>>, last: seq<string>)
    requires var r, s := Run(ReadLine, NO_EVENT, Flatten(init)), Run(Interpret, EMPTY, Flatten(init));
             !r.done && r.state.data == "" && !s.done && s.state == EMPTY
    ensures var r, s := Run(ReadLine, NO_EVENT, Flatten(init)), Run(Interpret, EMPTY, Flatten(init));
            var q, p := Run(ReadLine, Event(r.state.kind, ""), last + [""]), Run(Interpret, EMPTY, last + [""]);
            && Run(ReadLine, NO_EVENT, Flatten(init + [last])) == Step(q.state, r.out + q.out, q.done)
            && Run(Interpret, EMPTY, Flatten(init + [last])) == Step(p.state, s.out + p.out, p.done)
  {
    Snoc(init, last);
    RunAppend(ReadLine, NO_EVENT, Flatten(init), last + [""]);
    RunAppend(Interpret, EMPTY, Flatten(init), last + [""]);
  }

  lemma CountedAppend(r: seq<Delivery>, s: seq<Event>, q: seq<Delivery>, p: seq<Event>)
    requires Counted(r, s) && Counted(q, p)
    ensures Counted(r + q, s + p)
  {
    SolidAppend(s, p);
    GotAppend(r, q);
  }

  /** After any blocks: nothing pending but a type, and the outputs are counted. */
  ghost predicate BlocksRead(blocks: seq<seq<string>>) {
    var r, s := Run(ReadLine, NO_EVENT, Flatten(blocks)), Run(Interpret, EMPTY, Flatten(blocks));
    !r.done && r.state.data == "" && !s.done && s.state == EMPTY && Counted(r.out, s.out)
  }

  lemma BlocksReadNext(init: seq<seq<string>>, last: seq<string>)
    requires BlocksRead(init) && IsBlock(last)
    ensures BlocksRead(init + [last])
  {
    var r, s := Run(ReadLine, NO_EVENT, Flatten(init)), Run(Interpret, EMPTY, Flatten(init));
    var q, p := Run(ReadLine, Event(r.state.kind, ""), last + [""]), Run(Interpret, EMPTY, last + [""]);
    RunBlock(init, last);
    BlockExact(r.state.kind, last);
    CountedAppend(r.out, s.out, q.out, p.out);
  }

  lemma {:induction false} AllBlocksRead(blocks: seq<seq<string>>)
    requires AllBlocks(blocks)
    ensures BlocksRead(blocks)
  {
    if blocks != [] {
      AllBlocksRead(blocks[..|blocks| - 1]);
      BlocksReadNext(blocks[..|blocks| - 1], blocks[|blocks| - 1]);
      InitLast(blocks);
    }
  }

  /** Having put out the same in the end, both had put out the same before, and did so at the last block. */
  lemma AgreeBefore(init: seq<seq<string>>, last: seq<string>)
    requires BlocksRead(init) && IsBlock(last) && Agree(init + [last])
    ensures Agree(init)
    ensures var carried := Run(ReadLine, NO_EVENT, Flatten(init)).state.kind;
            Run(ReadLine, Event(carried, ""), last + [""]).out == Deliveries(Run(Interpret, EMPTY, last + [""]).out)
  {
    var r, s := Run(ReadLine, NO_EVENT, Flatten(init)), Run(Interpret, EMPTY, Flatten(init));
    var q, p := Run(ReadLine, Event(r.state.kind, ""), last + [""]), Run(Interpret, EMPTY, last + [""]);
    BlocksReadNext(init, last);
    RunBlock(init, last);
    SolidDeliveries(r.out + q.out, s.out + p.out);
    SolidAppend(s.out, p.out);
    DeliveriesAppend(s.out, p.out);
    SameHalves(r.out, q.out, Deliveries(s.out), Deliveries(p.out));
  }

  /** Having put out the same so far, both do so after one block more exactly if it conforms. */
  lemma NextBlock(init: seq<seq<string>>, last: seq<string>)
    requires BlocksRead(init) && IsBlock(last) && Agree(init)
    ensures var carried := Run(ReadLine, NO_EVENT, Flatten(init)).state.kind;
            && (Agree(init + [last]) <==> Conforms(carried, last))
            && (Conforms(carried, last) ==>
                Run(ReadLine, NO_EVENT, Flatten(init + [last])).state.kind == CarriedAfter(carried, last))
  {
    var r, s := Run(ReadLine, NO_EVENT, Flatten(init)), Run(Interpret, EMPTY, Flatten(init));
    var q, p := Run(ReadLine, Event(r.state.kind, ""), last + [""]), Run(Interpret, EMPTY, last + [""]);
    RunBlock(init, last);
    BlockExact(r.state.kind, last);
    DeliveriesAppend(s.out, p.out);
    SameHalves(r.out, q.out, Deliveries(s.out), Deliveries(p.out));
  }

  /** The reader's events are the standard's exactly if every block conforms. */
  lemma {:induction false} BlocksAgree(blocks: seq<seq<string>>)
    requires AllBlocks(blocks)
    ensures Agree(blocks) <==> AllConform(blocks)
    ensures AllConform(blocks) ==> Run(ReadLine, NO_EVENT, Flatten(blocks)).state.kind == Carried(blocks)
  {
    if blocks == [] {
      DeliveriesOne(NO_EVENT);
    } else {
      var init, last := blocks[..|blocks| - 1], blocks[|blocks| - 1];
      InitLast(blocks);
      BlocksAgree(init);
      AllBlocksRead(init);
      if Agree(init) {
        NextBlock(init, last);
      } else if Agree(blocks) {
        AgreeBefore(init, last);
      }
    }
  }

  // ---- The end of the stream ----

  predicate HasValue(line: string) {
    MeaningOf(line).Data? && MeaningOf(line).value != ""
  }

  /** Some data line of the block has a value for the reader. */
  predicate Delivers(block: seq<string>) {
    exists i :: 0 <= i < |block| && HasValue(block[i])
  }

  lemma DeliversSnoc(init: seq<string>, last: string)
    ensures Delivers(init + [last]) <==> Delivers(init) || HasValue(last)
  {
    var block := init + [last];
    Snoc(init, last);
    if i :| 0 <= i < |init| && HasValue(init[i]) {
      assert block[i] == init[i];
    }
  }

  /** The data that a line leaves pending: none only if there was none and the line brings none. */
  lemma ValueStep(e: Event, line: string)
    requires line != ""
    ensures ReadLine(e, line).state.data != "" <==> e.data != "" || HasValue(line)
  {
  }

  lemma {:induction false} PendingData(carried: string, block: seq<string>)
    requires IsBlock(block)
    ensures Run(ReadLine, Event(carried, ""), block).state.data != "" <==> Delivers(block)
  {
    if block != [] {
      var init, last := block[..|block| - 1], block[|block| - 1];
      PendingData(carried, init);
      KindsOfBlock(carried, init);
      ValueStep(Run(ReadLine, Event(carried, ""), init).state, last);
      DeliversSnoc(init, last);
      InitLast(block);
    }
  }

  /** What a last block without its blank line adds: nothing for the standard, its event for the reader. */
  lemma RunTail(blocks: seq<seq<string>>, tail: seq<string>)
    requires BlocksRead(blocks) && IsBlock(tail)
    ensures var lines, r := Flatten(blocks) + tail, Run(ReadLine, NO_EVENT, Flatten(blocks));
            var e := Run(ReadLine, Event(r.state.kind, ""), tail).state;
            && ReadLines(Scanned(lines, false)) == r.out + Flush(e, false)
            && Run(Interpret, EMPTY, lines).out == Run(Interpret, EMPTY, Flatten(blocks)).out
            && (e.data != "" <==> Delivers(tail)) && (e.data != "" ==> Solid(e))
  {
    var before, r := Flatten(blocks), Run(ReadLine, NO_EVENT, Flatten(blocks));
    RunAppend(ReadLine, NO_EVENT, before, tail);
    RunAppend(Interpret, EMPTY, before, tail);
    KindsOfBlock(r.state.kind, tail);
    DataOfBlock(r.state.kind, tail);
    PendingData(r.state.kind, tail);
    NothingMore(r.out);
    NothingMore(Run(Interpret, EMPTY, before).out);
  }

  lemma NoneFlushed(r: seq<Delivery>, flushed: seq<Delivery>, s: seq<Event>)
    requires Counted(r, s) && AllSolidlyGot(flushed)
    ensures r + flushed == Deliveries(s) <==> r == Deliveries(s) && flushed == []
  {
    NothingMore(r);
    if r + flushed == Deliveries(s) {
      GotAppend(r, flushed);
      SolidDeliveries(r + flushed, s);
      assert |flushed| == 0;
    }
  }

  /** On blocks and a last one without its blank line: the events agree exactly if all conform and the last has no data. */
  lemma TailExact(blocks: seq<seq<string>>, tail: seq<string>)
    requires AllBlocks(blocks) && IsBlock(tail)
    ensures var lines := Flatten(blocks) + tail;
            ReadLines(Scanned(lines, false)) == Deliveries(Run(Interpret, EMPTY, lines).out) <==>
            AllConform(blocks) && !Delivers(tail)
  {
    AllBlocksRead(blocks);
    BlocksAgree(blocks);
    RunTail(blocks, tail);
    var r, s := Run(ReadLine, NO_EVENT, Flatten(blocks)), Run(Interpret, EMPTY, Flatten(blocks));
    var flushed := Flush(Run(ReadLine, Event(r.state.kind, ""), tail).state, false);
    NoneFlushed(r.out, flushed, s.out);
  }

  // ---- Texts ----

  /** A list of lines as blocks, each ended by a blank line, and what follows the last of them. */
  datatype Parsed = Parsed(blocks: seq<seq<string>>, tail: seq<string>)

  function Parse(lines: seq<string>): Parsed {
    if lines == [] then Parsed([], [])
    else
      var p, last := Parse(lines[..|lines| - 1]), lines[|lines| - 1];
      if last == "" then Parsed(p.blocks + [p.tail], []) else Parsed(p.blocks, p.tail + [last])
  }

  lemma {:induction false} ParseExact(lines: seq<string>)
    ensures var p := Parse(lines); Flatten(p.blocks) + p.tail == lines && AllBlocks(p.blocks) && IsBlock(p.tail)
  {
    if lines != [] {
      var p, last := Parse(lines[..|lines| - 1]), lines[|lines| - 1];
      ParseExact(lines[..|lines| - 1]);
      InitLast(lines);
      Assoc(Flatten(p.blocks), p.tail, [last]);
      if last == "" {
        Snoc(p.blocks, p.tail);
        NothingMore(Flatten(p.blocks + [p.tail]));
      }
    }
  }

  /** A line that is not blank dispatches nothing. */
  lemma LastLineSilent(lines: seq<string>)
    requires lines != [] && lines[|lines| - 1] != ""
    ensures Run(Interpret, EMPTY, lines).out == Run(Interpret, EMPTY, lines[..|lines| - 1]).out
  {
    var init, last := lines[..|lines| - 1], lines[|lines| - 1];
    KindLine(NO_EVENT, Run(Interpret, EMPTY, init).state, last);
    RunSilent(Interpret, EMPTY, lines);
  }

  /** The standard's events may as well be read off the reader's lines. */
  lemma SameLines(text: string)
    requires StripBom(text) == text && NoLoneCR(text)
    ensures StandardEvents(text) == Run(Interpret, EMPTY, DropCRs(RawLines(text, ""))).out
  {
    var lines := DropCRs(RawLines(text, ""));
    LinesAgree(text, "");
    if !Ended(text, "") {
      LastLineSilent(lines);
    }
  }

  /**
    Agreement with the standard, from characters to events: on any text without a byte
    order mark and without a lone CR, the reader delivers exactly the standard's events
    if and only if no line is too long, every block conforms, and the text does not
    break off in a block with data.
   */
  lemma AgreesWithStandard(text: string)
    requires StripBom(text) == text && NoLoneCR(text)
    ensures var raw := RawLines(text, ""); var p := Parse(DropCRs(raw));
            ReadAll(Stream(text, false)) == Deliveries(StandardEvents(text)) <==>
            AllFit(raw) && AllConform(p.blocks) && !Delivers(p.tail)
  {
    var raw := RawLines(text, "");
    var p := Parse(DropCRs(raw));
    ScanFits(raw);
    SameLines(text);
    if AllFit(raw) {
      ParseExact(DropCRs(raw));
      TailExact(p.blocks, p.tail);
    } else {
      LostIsLast(Stream(text, false));
      assert Lost !in Deliveries(StandardEvents(text));
    }
  }

  // ---- Departures ----

  /** The events that each makes of the same lines, blank ones included. */
  ghost predicate Makes(lines: seq<string>, reader: seq<Event>, standard: seq<Event>) {
    && ReadLines(Scanned(lines, false)) == Deliveries(reader)
    && Run(Interpret, EMPTY, lines).out == standard
  }

  /** A line with a colon at i. */
  lemma Field(line: string, i: nat)
    requires i < |line| && line[i] == ':' && ':' !in line[..i] && i > 0
    ensures FieldName(line) == line[..i]
    ensures FieldValue(line) == if i + 1 < |line| && line[i + 1] == ' ' then line[i + 2..] else line[i + 1..]
  {
    ColonAt(line, i);
  }

  lemma OneData(line: string, read: string, kept: string, k: string)
    requires HasPrefix(line, "data:") && TrimSpace(line[5..]) == read && FieldValue(line) == kept
    ensures ReadLine(Event(k, ""), line) == Step(Event(k, read), [], false)
    ensures Interpret(EMPTY, line) == Step(Buffers(kept + "\n", ""), [], false)
  {
    assert line[..4] == "data:"[..4] == "data";
    assert line[4] == "data:"[4];
    assert line[0] != "event:"[0] && "data"[0] != "event"[0];
    Field(line, 4);
    assert "" + kept == kept;
  }

  /** One data line and its blank line, after a type that was left over. */
  lemma DataBlock(line: string, read: string, kept: string, k: string)
    requires HasPrefix(line, "data:") && TrimSpace(line[5..]) == read && FieldValue(line) == kept
    ensures Run(ReadLine, Event(k, ""), [line] + [""]) ==
            if read == "" then Step(Event(k, ""), [], false) else Step(NO_EVENT, [Got(Event(k, read))], false)
    ensures Run(Interpret, EMPTY, [line] + [""]) == Step(EMPTY, [Event("", kept)], false)
  {
    OneData(line, read, kept, k);
    RunOne(ReadLine, Event(k, ""), line);
    RunOne(Interpret, EMPTY, line);
    Snoc([line], "");
    assert (kept + "\n")[..|kept|] == kept;
  }

  lemma OneBlockMakes(line: string, read: string, kept: string)
    requires HasPrefix(line, "data:") && TrimSpace(line[5..]) == read && FieldValue(line) == kept
    ensures Makes([line, ""], if read == "" then [] else [Event("", read)], [Event("", kept)])
  {
    DataBlock(line, read, kept, "");
    assert [line, ""] == [line] + [""];
    DeliveriesOne(Event("", read));
  }

  /** A data field without a value: the standard dispatches an event with empty data, the reader none. */
  lemma DepartsOnEmptyData()
    ensures Makes(["data:", ""], [], [Event("", "")])
  {
    Field("data:", 4);
    assert "data:"[5..] == "";
    OneBlockMakes("data:", "", "");
  }

  /** A data field with two leading spaces: the standard keeps one of them. */
  lemma DepartsOnSpaces()
    ensures Makes(["data:  a", ""], [Event("", "a")], [Event("", " a")])
  {
    Field("data:  a", 4);
    assert "data:  a"[6..] == " a" && "data:  a"[5..] == "  " + "a" + "";
    TrimPadded(IsSpace, "  ", "a", "");
    OneBlockMakes("data:  a", "a", " a");
  }

  lemma OneType(line: string, read: string)
    requires HasPrefix(line, "event:") && TrimSpace(line[6..]) == read
    ensures ReadLine(NO_EVENT, line) == Step(Event(read, ""), [], false)
    ensures Interpret(EMPTY, line) == Step(Buffers("", FieldValue(line)), [], false)
  {
    assert line[..5] == "event:"[..5] == "event";
    assert line[5] == "event:"[5];
    Field(line, 5);
  }

  /** One event line and its blank line. */
  lemma TypeBlock(line: string, read: string)
    requires HasPrefix(line, "event:") && TrimSpace(line[6..]) == read
    ensures Run(ReadLine, NO_EVENT, [line] + [""]) == Step(Event(read, ""), [], false)
    ensures Run(Interpret, EMPTY, [line] + [""]) == Step(EMPTY, [], false)
  {
    OneType(line, read);
    RunOne(ReadLine, NO_EVENT, line);
    RunOne(Interpret, EMPTY, line);
    Snoc([line], "");
  }

  lemma TypedBlock()
    ensures Run(ReadLine, Event("a", ""), ["data: x"] + [""]) == Step(NO_EVENT, [Got(Event("a", "x"))], false)
    ensures Run(Interpret, EMPTY, ["data: x"] + [""]) == Step(EMPTY, [Event("", "x")], false)
  {
    Field("data: x", 4);
    assert "data: x"[6..] == "x" && "data: x"[5..] == " " + "x" + "";
    TrimPadded(IsSpace, " ", "x", "");
    DataBlock("data: x", "x", "x", "a");
  }

  /** Two lists of lines, after the first of which only a type is pending. */
  lemma MakesSecond(first: seq<string>, second: seq<string>, kind: string, reader: Event, standard: Event)
    requires Run(ReadLine, NO_EVENT, first) == Step(Event(kind, ""), [], false)
    requires Run(Interpret, EMPTY, first) == Step(EMPTY, [], false)
    requires Run(ReadLine, Event(kind, ""), second) == Step(NO_EVENT, [Got(reader)], false)
    requires Run(Interpret, EMPTY, second) == Step(EMPTY, [standard], false)
    ensures Makes(first + second, [reader], [standard])
  {
    RunAppend(ReadLine, NO_EVENT, first, second);
    RunAppend(Interpret, EMPTY, first, second);
    DeliveriesOne(reader);
    NothingMore([Got(reader)]);
    NothingMore([standard]);
  }

  /** A type without data: the reader gives it to the next event. */
  lemma DepartsOnTypeAlone()
    ensures Makes((["event: a"] + [""]) + (["data: x"] + [""]), [Event("a", "x")], [Event("", "x")])
  {
    assert "event: a"[6..] == " " + "a" + "";
    TrimPadded(IsSpace, " ", "a", "");
    TypeBlock("event: a", "a");
    TypedBlock();
    MakesSecond(["event: a"] + [""], ["data: x"] + [""], "a", Event("a", "x"), Event("", "x"));
  }

  /** The standard's lines up to a line end. */
  lemma {:induction false} StandardLine(p: string, end: char, rest: string, cur: string)
    requires '\n' !in p && '\r' !in p
    requires end == '\n' || (end == '\r' && (rest == "" || rest[0] != '\n'))
    ensures StandardLines(p + [end] + rest, cur) == [cur + p] + StandardLines(rest, "")
  {
    var s := p + [end] + rest;
    if p == "" {
      assert s[1..] == rest && cur + p == cur;
    } else {
      assert s[1..] == p[1..] + [end] + rest;
      StandardLine(p[1..], end, rest, cur + [p[0]]);
      assert cur + [p[0]] + p[1..] == cur + p;
    }
  }

  lemma DataA()
    ensures Run(Interpret, EMPTY, ["data:a"] + [""]) == Step(EMPTY, [Event("", "a")], false)
  {
    Field("data:a", 4);
    assert "data:a"[5..] == "a";
    TrimFixed(IsSpace, "a");
    DataBlock("data:a", "a", "a", "");
  }

  lemma UnknownLine(line: string)
    requires line != "" && line[0] != 'e' && line[0] != 'd' && line[|line| - 1] != '\r'
    ensures DropCR(line) == line && MeaningOf(line) == Ignored
  {
    assert "event:"[0] == 'e' && "data:"[0] == 'd';
  }

  /** A text of one line that the reader does not know, and a blank line. */
  lemma ReadsNothing(line: string)
    requires line != "" && line[0] != 'e' && line[0] != 'd' && line[|line| - 1] != '\r'
    requires '\n' !in line && !TooLong(line)
    ensures ReadAll(Stream(line + "\n\n", false)) == []
  {
    var text := line + "\n\n";
    UnknownLine(line);
    assert text == line + "\n" + "\n";
    RawLine(line, "\n", "");
    assert "\n"[1..] == "" && "" + line == line;
    assert RawLines("\n", "") == [""] + RawLines("", "");
    var raw := [line] + [""];
    assert RawLines(text, "") == raw && raw[1..] == [""];
    assert ScanRaw([""], false) == Scanned([""], false);
    assert ScanRaw(raw, false).lines == [line] + [""];
    RunOne(ReadLine, NO_EVENT, line);
    Snoc([line], "");
  }

  lemma ShortLine(line: string)
    requires |line| <= 20
    ensures !TooLong(line)
  {
    WidthBound(line);
  }

  lemma {:induction false} WidthBound(line: string)
    ensures ByteLength(line) <= 4 * |line|
  {
    if line != "" {
      WidthBound(line[1..]);
    }
  }

  /** The standard's lines of a text of one line without terminators inside, and a blank line. */
  lemma StandardBlock(line: string)
    requires '\n' !in line && '\r' !in line
    ensures StandardLines(line + "\n\n", "") == [line] + [""]
  {
    assert line + "\n\n" == line + ['\n'] + "\n";
    StandardLine(line, '\n', "\n", "");
    assert "\n" == "" + ['\n'] + "";
    StandardLine("", '\n', "", "");
    assert "" + line == line;
  }

  lemma AfterComment()
    ensures Run(Interpret, EMPTY, [":"] + (["data:a"] + [""])).out == [Event("", "a")]
  {
    RunOne(Interpret, EMPTY, ":");
    RunAppend(Interpret, EMPTY, [":"], ["data:a"] + [""]);
    DataA();
    NothingMore([Event("", "a")]);
  }

  lemma CommentThenData(rest: string)
    requires rest != "" && rest[0] != '\n'
    ensures StandardLines(":" + ['\r'] + rest, "") == [":"] + StandardLines(rest, "")
  {
    StandardLine(":", '\r', rest, "");
    assert "" + ":" == ":";
  }

  lemma LoneCRRead(line: string)
    requires line == ":" + ['\r'] + "data:a"
    ensures ReadAll(Stream(line + "\n\n", false)) == []
  {
    assert |line| == 8 && line[0] == ':' && line[7] == 'a';
    ShortLine(line);
    ReadsNothing(line);
  }

  lemma LoneCRStandard(rest: string)
    requires rest == "data:a" + "\n\n"
    ensures StandardEvents(":" + ['\r'] + rest) == [Event("", "a")]
  {
    CommentThenData(rest);
    StandardBlock("data:a");
    AfterComment();
  }

  /** A lone CR ends a line for the standard; the reader takes what follows it as part of the comment before it. */
  lemma DepartsOnLoneCR()
    ensures var text := ":" + ['\r'] + ("data:a" + "\n\n");
            ReadAll(Stream(text, false)) == [] && StandardEvents(text) == [Event("", "a")]
  {
    LoneCRRead(":" + ['\r'] + "data:a");
    LoneCRStandard("data:a" + "\n\n");
    Assoc(":" + ['\r'], "data:a", "\n\n");
  }

  lemma MarkedRead(line: string)
    requires line == ['\U{FEFF}'] + "data:a"
    ensures ReadAll(Stream(line + "\n\n", false)) == []
  {
    assert |line| == 7 && line[0] == '\U{FEFF}' && line[6] == 'a';
    ShortLine(line);
    ReadsNothing(line);
  }

  lemma MarkedStandard(rest: string)
    requires rest == "data:a" + "\n\n"
    ensures StandardEvents(['\U{FEFF}'] + rest) == [Event("", "a")]
  {
    assert (['\U{FEFF}'] + rest)[1..] == rest;
    StandardBlock("data:a");
    DataA();
  }

  /** A byte order mark: the standard skips it, the reader does not know the first line any more. */
  lemma DepartsOnByteOrderMark()
    ensures var text := ['\U{FEFF}'] + ("data:a" + "\n\n");
            ReadAll(Stream(text, false)) == [] && StandardEvents(text) == [Event("", "a")]
  {
    MarkedRead(['\U{FEFF}'] + "data:a");
    MarkedStandard("data:a" + "\n\n");
    Assoc(['\U{FEFF}'], "data:a", "\n\n");
  }
}
