/**
  What a server may send and the reader must give back: printing events as lines,
  with any terminators and any ignored lines in between, and reading them again.
 */
module SseFormat {
  import opened PushIter
  import opened Seqs
  import opened Text
  import opened Sse

  /** A line and how it is ended. */
  datatype Line = Line(text: string, crlf: bool) {
    function Raw(): string { text + if crlf then "\r" else "" }

    /** One line on the wire: no line feed inside, no CR that would be taken for its terminator, not too long. */
    predicate Fits() {
      '\n' !in text && DropCR(text) == text && !TooLong(Raw())
    }
  }

  function Assemble(ls: seq<Line>): string {
    if ls == [] then "" else ls[0].Raw() + "\n" + Assemble(ls[1..])
  }

  function Texts(ls: seq<Line>): seq<string> {
    seq(|ls|, i requires 0 <= i < |ls| => ls[i].text)
  }

  function Meanings(lines: seq<string>): seq<Meaning> {
    seq(|lines|, i requires 0 <= i < |lines| => MeaningOf(lines[i]))
  }

  // ---- Assembling and scanning ----

  lemma {:induction false} RawLine(p: string, rest: string, cur: string)
    requires '\n' !in p
    ensures RawLines(p + "\n" + rest, cur) == [cur + p] + RawLines(rest, "")
  {
    var s := p + "\n" + rest;
    if p == "" {
      assert s[1..] == rest && cur + p == cur;
    } else {
      assert s[1..] == p[1..] + "\n" + rest;
      RawLine(p[1..], rest, cur + [p[0]]);
      assert cur + [p[0]] + p[1..] == cur + p;
    }
  }

  lemma DropRaw(l: Line)
    requires l.Fits()
    ensures '\n' !in l.Raw() && DropCR(l.Raw()) == l.text
  {
    if l.crlf {
      assert l.Raw()[..|l.text|] == l.text;
    }
  }

  /** Scanning gives back the lines that were assembled, whichever terminators were used. */
  lemma {:induction false} ScanAssembled(ls: seq<Line>, broken: bool)
    requires forall l :: l in ls ==> l.Fits()
    ensures Scan(Stream(Assemble(ls), broken)) == Scanned(Texts(ls), broken)
  {
    if ls != [] {
      var rest := Assemble(ls[1..]);
      ScanAssembled(ls[1..], broken);
      DropRaw(ls[0]);
      RawLine(ls[0].Raw(), rest, "");
      var raw := RawLines(Assemble(ls), "");
      assert raw[0] == ls[0].Raw() && raw[1..] == RawLines(rest, "");
      assert Texts(ls) == [ls[0].text] + Texts(ls[1..]);
    }
  }

  // ---- The scanner's limit ----

  /** The character takes w bytes in UTF-8. */
  predicate Takes(c: char, w: nat) {
    || (w == 1 && c < '\U{0080}')
    || (w == 2 && '\U{0080}' <= c < '\U{0800}')
    || (w == 3 && '\U{0800}' <= c < '\U{10000}')
    || (w == 4 && '\U{10000}' <= c)
  }

  ghost predicate Uniform(line: string, w: nat) {
    forall i :: 0 <= i < |line| ==> Takes(line[i], w)
  }

  lemma {:induction false} UniformLength(line: string, w: nat)
    requires Uniform(line, w)
    ensures ByteLength(line) == w * |line|
  {
    if line != "" {
      assert Takes(line[0], w);
      assert forall i :: 0 <= i < |line[1..]| ==> line[1..][i] == line[i + 1];
      UniformLength(line[1..], w);
    }
  }

  lemma {:induction false} ByteLengthAppend(a: string, b: string)
    ensures ByteLength(a + b) == ByteLength(a) + ByteLength(b)
  {
    if a == "" {
      NothingMore(b);
    } else {
      AppendRest(a, b);
      ByteLengthAppend(a[1..], b);
    }
  }

  /** One line with nothing after it: scanning fails exactly on a line that is too long. */
  lemma ScanOne(line: string)
    requires '\n' !in line
    ensures Scan(Stream(line + "\n", false)).failed <==> TooLong(line)
  {
    var raw := RawLines(line + "\n", "");
    RawLine(line, "", "");
    assert line + "\n" + "" == line + "\n" && "" + line == line;
    assert raw == [line] && raw[1..] == [];
    assert ScanRaw(raw[1..], false) == Scanned([], false);
  }

  /** A line is refused exactly if it has a mebibyte or more: so many characters of one byte, half as many of two. */
  lemma ScannerLimit(line: string, w: nat)
    requires '\n' !in line && Uniform(line, w)
    ensures Scan(Stream(line + "\n", false)).failed <==> w * |line| >= 1_048_576
  {
    ScanOne(line);
    UniformLength(line, w);
  }

  /** The same for a line of characters of two widths. */
  lemma ScannerLimitMixed(a: string, v: nat, b: string, w: nat)
    requires '\n' !in a && '\n' !in b && Uniform(a, v) && Uniform(b, w)
    ensures Scan(Stream(a + b + "\n", false)).failed <==> v * |a| + w * |b| >= 1_048_576
  {
    ScanOne(a + b);
    ByteLengthAppend(a, b);
    UniformLength(a, v);
    UniformLength(b, w);
  }

  // ---- White space ----

  /** The characters with the Unicode property White_Space. */
  const WHITE_SPACE: string :=
    "\t\n\U{000B}\U{000C}\r \U{0085}\U{00A0}\U{1680}\U{2000}\U{2001}\U{2002}\U{2003}\U{2004}\U{2005}" +
    "\U{2006}\U{2007}\U{2008}\U{2009}\U{200A}\U{2028}\U{2029}\U{202F}\U{205F}\U{3000}"

  lemma SpaceIs(c: char)
    ensures IsSpace(c) <==> c in WHITE_SPACE
  {
  }

  /** A field's value is what stands between the white space around it, whichever that is. */
  lemma ValueRead(before: string, value: string, after: string)
    requires forall c :: c in before + after ==> c in WHITE_SPACE
    requires value != "" && value[0] !in WHITE_SPACE && value[|value| - 1] !in WHITE_SPACE
    ensures MeaningOf("event:" + (before + value + after)) == Kind(value)
    ensures MeaningOf("data:" + (before + value + after)) == Data(value)
  {
    var v := before + value + after;
    assert ("event:" + v)[6..] == v && ("data:" + v)[5..] == v;
    assert !HasPrefix("data:" + v, "event:") by {
      assert ("data:" + v)[0] != "event:"[0];
    }
    forall i | 0 <= i < |before| ensures IsSpace(before[i]) {
      assert (before + after)[i] == before[i];
      SpaceIs(before[i]);
    }
    forall i | 0 <= i < |after| ensures IsSpace(after[i]) {
      assert (before + after)[|before| + i] == after[i];
      SpaceIs(after[i]);
    }
    SpaceIs(value[0]);
    SpaceIs(value[|value| - 1]);
    TrimPadded(IsSpace, before, value, after);
  }

  // ---- Meanings ----

  lemma {:induction false} RunMeanings(event: Event, lines: seq<string>)
    ensures Run(ReadLine, event, lines) == Run(Absorb, event, Meanings(lines))
  {
    if lines != [] {
      var init := lines[..|lines| - 1];
      RunMeanings(event, init);
      assert Meanings(lines)[..|lines| - 1] == Meanings(init);
    }
  }

  /** The lines that are not comments, `id:`, `retry:` or unknown fields. */
  function Significant(lines: seq<string>): seq<string> {
    if lines == [] then []
    else
      var last := lines[|lines| - 1];
      Significant(lines[..|lines| - 1]) + if MeaningOf(last) == Ignored then [] else [last]
  }

  lemma {:induction false} RunSignificant(event: Event, lines: seq<string>)
    ensures Run(ReadLine, event, lines) == Run(ReadLine, event, Significant(lines))
  {
    if lines != [] {
      var init, last := lines[..|lines| - 1], lines[|lines| - 1];
      RunSignificant(event, init);
      RunAppend(ReadLine, event, Significant(init), [last]);
      RunOne(ReadLine, Run(ReadLine, event, Significant(init)).state, last);
      NothingMore(Significant(init));
      NothingMore(Run(ReadLine, event, Significant(init)).out);
    }
  }

  // ---- Printing ----

  function DataLines(ds: seq<string>): seq<string> {
    seq(|ds|, i requires 0 <= i < |ds| => "data: " + ds[i])
  }

  /** An event as lines: its type if it has one, its data line by line, a blank line. */
  function EventLines(e: Event): seq<string> {
    (if e.kind == "" then [] else ["event: " + e.kind]) + DataLines(SplitOn('\n', e.data)) + [""]
  }

  function PrintLines(es: seq<Event>): seq<string> {
    if es == [] then [] else EventLines(es[0]) + PrintLines(es[1..])
  }

  /** Events the format can carry: a trimmed type, trimmed data lines, the first of them not empty. */
  predicate Printable(e: Event) {
    && Trimmed(IsSpace, e.kind)
    && SplitOn('\n', e.data)[0] != ""
    && forall i :: 0 <= i < |SplitOn('\n', e.data)| ==> Trimmed(IsSpace, SplitOn('\n', e.data)[i])
  }

  /** JSON on one line, as it stands in a data field. */
  predicate OneLine(s: string) {
    s != "" && '\n' !in s && Trimmed(IsSpace, s)
  }

  lemma OneLinePrintable(e: Event)
    requires OneLine(e.data) && Trimmed(IsSpace, e.kind)
    ensures Printable(e)
  {
    SplitNone('\n', e.data);
  }

  /** What the reader has after these data lines. */
  function ReadBack(ds: seq<string>): string {
    if ds == [] then ""
    else
      var have, t := ReadBack(ds[..|ds| - 1]), TrimSpace(ds[|ds| - 1]);
      if have != "" then have + "\n" + t else t
  }

  lemma FieldRead(v: string)
    ensures MeaningOf("event: " + v) == Kind(TrimSpace(v)) && MeaningOf("data: " + v) == Data(TrimSpace(v))
  {
    assert ("event: " + v)[6..] == " " + v;
    assert ("data: " + v)[5..] == " " + v;
    assert !HasPrefix("data: " + v, "event:") by {
      assert ("data: " + v)[0] != "event:"[0];
    }
    TrimLeftPadded(IsSpace, " ", v);
  }

  lemma {:induction false} RunAnyData(kind: string, ds: seq<string>)
    ensures Run(ReadLine, Event(kind, ""), DataLines(ds)) == Step(Event(kind, ReadBack(ds)), [], false)
  {
    if ds != [] {
      var init, last := ds[..|ds| - 1], ds[|ds| - 1];
      assert DataLines(ds)[..|ds| - 1] == DataLines(init);
      assert DataLines(ds)[|ds| - 1] == "data: " + last;
      FieldRead(last);
      RunAnyData(kind, init);
    }
  }

  ghost predicate GoodData(ds: seq<string>) {
    ds != [] && ds[0] != "" && forall i :: 0 <= i < |ds| ==> Trimmed(IsSpace, ds[i])
  }

  /** One line more, of which the reader has `t`; before it, it has `have` of `printed`. */
  lemma ReadBackStep(have: string, printed: string, t: string, u: string)
    requires |have| <= |printed| && |t| <= |u| && (|t| == |u| <==> t == u)
    ensures var now := if have != "" then have + "\n" + t else t;
            && |now| <= |printed + ['\n'] + u|
            && (now == printed + ['\n'] + u <==> have != "" && have == printed && t == u)
  {
    if have != "" && have + "\n" + t == printed + ['\n'] + u {
      assert |have| == |printed| && |t| == |u|;
      assert (have + "\n" + t)[..|have|] == have && (printed + ['\n'] + u)[..|printed|] == printed;
    }
  }

  /** The reader has what was printed exactly if the data is as the format can carry it. */
  lemma {:induction false} ReadBackExact(ds: seq<string>)
    requires ds != []
    ensures |ReadBack(ds)| <= |JoinWith('\n', ds)|
    ensures ReadBack(ds) == JoinWith('\n', ds) && ReadBack(ds) != "" <==> GoodData(ds)
  {
    var init, last := ds[..|ds| - 1], ds[|ds| - 1];
    TrimShape(IsSpace, last);
    if |ds| == 1 {
      assert ReadBack(init) == "";
    } else {
      ReadBackExact(init);
      InitLast(ds);
      JoinSnoc('\n', init, last);
      ReadBackStep(ReadBack(init), JoinWith('\n', init), TrimSpace(last), last);
      assert GoodData(ds) <==> GoodData(init) && Trimmed(IsSpace, last);
    }
  }

  lemma RunKindLine(e: Event)
    ensures var head := if e.kind == "" then [] else ["event: " + e.kind];
            Run(ReadLine, NO_EVENT, head) == Step(Event(TrimSpace(e.kind), ""), [], false)
  {
    if e.kind != "" {
      FieldRead(e.kind);
      RunOne(ReadLine, NO_EVENT, "event: " + e.kind);
    }
  }

  /** What any event's printed lines are read as. */
  lemma RunAnyEvent(e: Event)
    ensures var f := Event(TrimSpace(e.kind), ReadBack(SplitOn('\n', e.data)));
            Run(ReadLine, NO_EVENT, EventLines(e)) ==
            if f.data != "" then Step(NO_EVENT, [Got(f)], false) else Step(f, [], false)
  {
    var head := if e.kind == "" then [] else ["event: " + e.kind];
    var body := DataLines(SplitOn('\n', e.data));
    RunKindLine(e);
    RunAnyData(TrimSpace(e.kind), SplitOn('\n', e.data));
    RunAppend(ReadLine, NO_EVENT, head, body);
    RunAppend(ReadLine, NO_EVENT, head + body, [""]);
    RunOne(ReadLine, Event(TrimSpace(e.kind), ReadBack(SplitOn('\n', e.data))), "");
  }

  /** The printed lines of an event are read back as it, with nothing left pending, exactly if it is printable. */
  lemma RunEventLines(e: Event)
    ensures Run(ReadLine, NO_EVENT, EventLines(e)) == Step(NO_EVENT, [Got(e)], false) <==> Printable(e)
  {
    var f := Event(TrimSpace(e.kind), ReadBack(SplitOn('\n', e.data)));
    RunAnyEvent(e);
    SplitJoin('\n', e.data);
    ReadBackExact(SplitOn('\n', e.data));
    TrimShape(IsSpace, e.kind);
    if f.data != "" {
      assert [Got(f)][0] == Got(f) && [Got(e)][0] == Got(e);
    }
  }

  function Deliveries(es: seq<Event>): seq<Delivery> {
    seq(|es|, i requires 0 <= i < |es| => Got(es[i]))
  }

  lemma RunEventThen(e: Event, rest: seq<string>)
    requires Printable(e)
    ensures var r := Run(ReadLine, NO_EVENT, rest);
            Run(ReadLine, NO_EVENT, EventLines(e) + rest) == Step(r.state, [Got(e)] + r.out, r.done)
  {
    RunEventLines(e);
    RunAppend(ReadLine, NO_EVENT, EventLines(e), rest);
  }

  lemma {:induction false} RunPrintLines(es: seq<Event>)
    requires forall e :: e in es ==> Printable(e)
    ensures Run(ReadLine, NO_EVENT, PrintLines(es)) == Step(NO_EVENT, Deliveries(es), false)
  {
    if es != [] {
      RunPrintLines(es[1..]);
      RunEventThen(es[0], PrintLines(es[1..]));
      assert Deliveries(es) == [Got(es[0])] + Deliveries(es[1..]);
    }
  }

  /** The text carries these events: their printed lines, with ignored lines anywhere and any terminators. */
  ghost predicate Carries(ls: seq<Line>, es: seq<Event>) {
    && (forall l :: l in ls ==> l.Fits())
    && (forall e :: e in es ==> Printable(e))
    && Significant(Texts(ls)) == PrintLines(es)
  }

  /** Round trip: whatever carries a list of events is read back as that list. */
  lemma RoundTrip(ls: seq<Line>, es: seq<Event>)
    requires Carries(ls, es)
    ensures ReadAll(Stream(Assemble(ls), false)) == Deliveries(es)
  {
    ScanAssembled(ls, false);
    RunSignificant(NO_EVENT, Texts(ls));
    RunPrintLines(es);
  }

  // ---- Composition ----

  predicate EndsLine(s: string) {
    s == "" || s[|s| - 1] == '\n'
  }

  /** What is pending after the whole text, before the end of the input flushes it. */
  function Pending(body: Stream): Event {
    Run(ReadLine, NO_EVENT, Scan(body).lines).state
  }

  lemma {:induction false} RawAppend(a: string, b: string, cur: string)
    requires a != "" && a[|a| - 1] == '\n'
    ensures RawLines(a + b, cur) == RawLines(a, cur) + RawLines(b, "")
    decreases |a|
  {
    assert (a + b)[1..] == a[1..] + b;
    if |a| == 1 {
      assert a[1..] + b == b;
    } else {
      RawAppend(a[1..], b, if a[0] == '\n' then "" else cur + [a[0]]);
      if a[0] == '\n' {
        assert RawLines(a, cur) == [cur] + RawLines(a[1..], "");
      }
    }
  }

  lemma {:induction false} ScanAppend(x: seq<string>, y: seq<string>, broken: bool)
    requires !ScanRaw(x, false).failed
    ensures var s, t := ScanRaw(x, false), ScanRaw(y, broken);
            ScanRaw(x + y, broken) == Scanned(s.lines + t.lines, t.failed)
  {
    if x == [] {
      NothingMore(y);
      NothingMore(ScanRaw(y, broken).lines);
    } else {
      AppendRest(x, y);
      ScanAppend(x[1..], y, broken);
      Assoc([DropCR(x[0])], ScanRaw(x[1..], false).lines, ScanRaw(y, broken).lines);
    }
  }

  lemma ScanTexts(a: string, b: Stream)
    requires EndsLine(a) && !Scan(Stream(a, false)).failed
    ensures var s, t := Scan(Stream(a, false)), Scan(b);
            Scan(Stream(a + b.text, b.broken)) == Scanned(s.lines + t.lines, t.failed)
  {
    if a == "" {
      NothingMore(b.text);
    } else {
      RawAppend(a, b.text, "");
    }
    ScanAppend(RawLines(a, ""), RawLines(b.text, ""), b.broken);
  }

  lemma ReadLinesAppend(x: seq<string>, y: Scanned)
    requires Run(ReadLine, NO_EVENT, x).state == NO_EVENT
    ensures ReadLines(Scanned(x + y.lines, y.failed)) == ReadLines(Scanned(x, false)) + ReadLines(y)
  {
    ReaderNeverDone(NO_EVENT, x);
    RunAppend(ReadLine, NO_EVENT, x, y.lines);
    var a, b := Run(ReadLine, NO_EVENT, x), Run(ReadLine, NO_EVENT, y.lines);
    NothingMore(a.out);
    Assoc(a.out, b.out, Flush(b.state, y.failed));
  }

  /** Reading one text after another, when the first ends cleanly, reads the first and then the second. */
  lemma ReadAppend(a: string, b: Stream)
    requires EndsLine(a) && !Scan(Stream(a, false)).failed && Pending(Stream(a, false)) == NO_EVENT
    ensures ReadAll(Stream(a + b.text, b.broken)) == ReadAll(Stream(a, false)) + ReadAll(b)
  {
    ScanTexts(a, b);
    ReadLinesAppend(Scan(Stream(a, false)).lines, Scan(b));
  }

  lemma {:induction false} RawUnended(s: string, cur: string)
    requires cur + s != "" && !(s != "" && s[|s| - 1] == '\n')
    ensures RawLines(s + "\n\n", cur) == RawLines(s, cur) + [""]
    decreases |s|
  {
    var t := s + "\n\n";
    if s == "" {
      assert t[1..] == "\n" && "\n"[1..] == "";
      assert RawLines("\n", "") == [""] + RawLines("", "");
    } else {
      assert t[1..] == s[1..] + "\n\n";
      if s[0] == '\n' {
        RawUnended(s[1..], "");
        assert [cur] + (RawLines(s[1..], "") + [""]) == [cur] + RawLines(s[1..], "") + [""];
      } else {
        RawUnended(s[1..], cur + [s[0]]);
      }
    }
  }

  lemma RawBlanks(s: string)
    ensures RawLines(s + "\n\n", "") == RawLines(s, "") + if EndsLine(s) then [""] + [""] else [""]
  {
    assert RawLines("\n\n", "") == [""] + [""] by {
      assert "\n\n"[1..] == "\n" && "\n"[1..] == "";
      assert RawLines("\n", "") == [""] + RawLines("", "");
    }
    if s == "" {
      assert s + "\n\n" == "\n\n";
    } else if EndsLine(s) {
      RawAppend(s, "\n\n", "");
    } else {
      RawUnended(s, "");
    }
  }

  /** Blank lines deliver what is pending, as the end of the input would, and leave nothing to deliver. */
  lemma RunBlanks(event: Event, blanks: seq<string>)
    requires blanks == [""] || blanks == [""] + [""]
    ensures var r := Run(ReadLine, event, blanks); r.out == Flush(event, false) && r.state.data == "" && !r.done
    ensures ScanRaw(blanks, false) == Scanned(blanks, false)
  {
    RunOne(ReadLine, event, "");
    RunAppend(ReadLine, event, [""], [""]);
    RunOne(ReadLine, ReadLine(event, "").state, "");
    assert ScanRaw([""], false) == Scanned([""], false);
    assert ([""] + [""])[1..] == [""];
  }

  lemma ReadBlanks(lines: seq<string>, blanks: seq<string>)
    requires blanks == [""] || blanks == [""] + [""]
    ensures ReadLines(Scanned(lines + blanks, false)) == ReadLines(Scanned(lines, false))
  {
    RunBlanks(Run(ReadLine, NO_EVENT, lines).state, blanks);
    RunAppend(ReadLine, NO_EVENT, lines, blanks);
    ReaderNeverDone(NO_EVENT, lines);
  }

  /** Two blank lines more make no difference: what is pending is delivered at the end of the input anyway. */
  lemma FlushAtEnd(s: string)
    requires !Scan(Stream(s, false)).failed
    ensures ReadAll(Stream(s + "\n\n", false)) == ReadAll(Stream(s, false))
  {
    var scanned := Scan(Stream(s, false));
    var blanks := if EndsLine(s) then [""] + [""] else [""];
    RawBlanks(s);
    RunBlanks(NO_EVENT, blanks);
    ScanAppend(RawLines(s, ""), blanks, false);
    assert Scan(Stream(s + "\n\n", false)) == Scanned(scanned.lines + blanks, false);
    ReadBlanks(scanned.lines, blanks);
  }
}
