/**
  The server-sent-events reader: lines as the scanner delivers them, folded into
  events one line at a time.
 */
module Sse {
  import opened PushIter
  import opened Seqs
  import opened Text

  datatype Event = Event(kind: string, data: string)

  /** One call of the iterator's `yield`: an event, or the error that ended the stream. */
  datatype Delivery = Got(event: Event) | Lost

  /** A streaming request either fails, or opens a stream that the reader turns into deliveries. */
  datatype Opening = Opened(deliveries: seq<Delivery>) | Refused(reason: string)

  /** What the body holds before it ends, and whether it ends in a read error instead of end of file. */
  datatype Stream = Stream(text: string, broken: bool)

  const NO_EVENT := Event("", "")

  /** White space as strings.TrimSpace removes it (the Unicode White_Space property). */
  predicate IsSpace(c: char) {
    || c == ' ' || '\t' <= c <= '\r'
    || c == '\U{0085}' || c == '\U{00A0}' || c == '\U{1680}' || '\U{2000}' <= c <= '\U{200A}'
    || c == '\U{2028}' || c == '\U{2029}' || c == '\U{202F}' || c == '\U{205F}' || c == '\U{3000}'
  }

  function TrimSpace(s: string): string {
    Trim(IsSpace, s)
  }

  predicate HasPrefix(s: string, p: string) {
    p <= s
  }

  // ---- Lines, as bufio.Scanner with bufio.ScanLines produces them ----

  /** The size of the scanner's buffer in bytes. */
  const MAX_LINE: nat := 1024 * 1024

  function Utf8Width(c: char): nat {
    if c < '\U{0080}' then 1 else if c < '\U{0800}' then 2 else if c < '\U{10000}' then 3 else 4
  }

  function ByteLength(s: string): nat {
    if s == "" then 0 else Utf8Width(s[0]) + ByteLength(s[1..])
  }

  /** The line fills the buffer before its line feed has been seen. */
  predicate TooLong(raw: string) {
    ByteLength(raw) >= MAX_LINE
  }

  /** Pieces ended by a line feed, then the unterminated rest if there is one; `cur` is the line so far. */
  function RawLines(s: string, cur: string): seq<string>
    decreases |s|
  {
    if s == "" then (if cur == "" then [] else [cur])
    else if s[0] == '\n' then [cur] + RawLines(s[1..], "")
    else RawLines(s[1..], cur + [s[0]])
  }

  function DropCR(line: string): string {
    if line != "" && line[|line| - 1] == '\r' then line[..|line| - 1] else line
  }

  datatype Scanned = Scanned(lines: seq<string>, failed: bool)

  /** The lines up to the first that is too long; nothing after it is seen. */
  function ScanRaw(raw: seq<string>, broken: bool): Scanned {
    if raw == [] then Scanned([], broken)
    else if TooLong(raw[0]) then Scanned([], true)
    else
      var rest := ScanRaw(raw[1..], broken);
      Scanned([DropCR(raw[0])] + rest.lines, rest.failed)
  }

  function Scan(body: Stream): Scanned {
    ScanRaw(RawLines(body.text, ""), body.broken)
  }

  // ---- Events ----

  /** What a line says to the reader. */
  datatype Meaning = Blank | Kind(value: string) | Data(value: string) | Ignored

  function MeaningOf(line: string): Meaning {
    if line == "" then Blank
    else if HasPrefix(line, "event:") then Kind(TrimSpace(line[6..]))
    else if HasPrefix(line, "data:") then Data(TrimSpace(line[5..]))
    else Ignored
  }

  /** The effect of one meaning on the pending event. */
  function Absorb(event: Event, m: Meaning): Step<Event, Delivery> {
    match m
    case Blank => if event.data != "" then Step(NO_EVENT, [Got(event)], false) else Step(event, [], false)
    case Kind(v) => Step(event.(kind := v), [], false)
    case Data(v) => Step(event.(data := if event.data != "" then event.data + "\n" + v else v), [], false)
    case Ignored => Step(event, [], false)
  }

  function ReadLine(event: Event, line: string): Step<Event, Delivery> {
    Absorb(event, MeaningOf(line))
  }

  /** At the end of the input a pending event is delivered, and then the scanner's error. */
  function Flush(event: Event, failed: bool): seq<Delivery> {
    (if event.data != "" then [Got(event)] else []) + (if failed then [Lost] else [])
  }

  function ReadLines(scanned: Scanned): seq<Delivery> {
    var r := Run(ReadLine, NO_EVENT, scanned.lines);
    r.out + Flush(r.state, scanned.failed)
  }

  /** All that a consumer that never stops receives. */
  function ReadAll(body: Stream): seq<Delivery> {
    ReadLines(Scan(body))
  }

  /** One more line: the new pending event and what has been delivered so far. */
  lemma AfterLine(scanned: Scanned, i: nat, event: Event, out: seq<Delivery>)
    requires i < |scanned.lines|
    requires Run(ReadLine, NO_EVENT, scanned.lines[..i]) == Step(event, out, false)
    ensures var q := ReadLine(event, scanned.lines[i]);
            && Run(ReadLine, NO_EVENT, scanned.lines[..i + 1]) == Step(q.state, out + q.out, false)
            && out + q.out <= ReadLines(scanned)
  {
    RunSnoc(ReadLine, NO_EVENT, scanned.lines, i);
    RunPrefix(ReadLine, NO_EVENT, scanned.lines, i + 1);
  }

  /** The iterator itself: one pass over the lines, updating the pending event. */
  method Read(body: Stream, sink: Sink<Delivery>)
    requires sink.Live() && sink.delivered == []
    modifies sink
    ensures IsCut(sink.delivered, ReadAll(body), sink.wants)
  {
    var scanned := Scan(body);
    var lines, event := scanned.lines, NO_EVENT;
    var i := 0;
    while i < |lines|
      invariant 0 <= i <= |lines|
      invariant sink.Live()
      invariant Run(ReadLine, NO_EVENT, lines[..i]) == Step(event, sink.delivered, false)
    {
      var line := lines[i];
      AfterLine(scanned, i, event, sink.delivered);
      i := i + 1;
      match MeaningOf(line) {
        case Blank =>
          if event.data != "" {
            var more := sink.Yield(Got(event));
            if !more {
              StoppedIsCut(sink, ReadLines(scanned));
              return;
            }
            event := NO_EVENT;
          }
        case Kind(v) =>
          event := event.(kind := v);
        case Data(v) =>
          if event.data != "" {
            event := event.(data := event.data + "\n" + v);
          } else {
            event := event.(data := v);
          }
        case Ignored =>
      }
    }
    assert lines[..i] == lines;
    if event.data != "" {
      var more := sink.Yield(Got(event));
      if !more {
        StoppedIsCut(sink, ReadLines(scanned));
        return;
      }
    }
    if scanned.failed {
      var more := sink.Yield(Lost);
      if !more {
        StoppedIsCut(sink, ReadLines(scanned));
        return;
      }
    }
    LiveIsCut(sink, ReadLines(scanned));
  }

  /** No line of the reader finishes it: only the end of the input does. */
  lemma {:induction false} ReaderNeverDone(event: Event, lines: seq<string>)
    ensures !Run(ReadLine, event, lines).done
    ensures forall i :: 0 <= i < |Run(ReadLine, event, lines).out| ==> Run(ReadLine, event, lines).out[i].Got?
  {
    if lines != [] {
      ReaderNeverDone(event, lines[..|lines| - 1]);
    }
  }

  /** The error, if any, is the last thing delivered, whatever the stream holds. */
  lemma LostIsLast(body: Stream)
    ensures ClosesOnce(ReadAll(body), (d: Delivery) => d.Lost?)
    ensures Lost in ReadAll(body) <==> Scan(body).failed
  {
    ReaderNeverDone(NO_EVENT, Scan(body).lines);
    var r := Run(ReadLine, NO_EVENT, Scan(body).lines);
    if Scan(body).failed {
      assert ReadAll(body)[|ReadAll(body)| - 1] == Lost;
    }
  }

  /** A failure takes nothing back: all that was read is delivered, the pending event too, and then the error. */
  lemma LostAfterEvents(body: Stream)
    requires Scan(body).failed
    ensures ReadAll(body) == ReadLines(Scanned(Scan(body).lines, false)) + [Lost]
  {
    var r := Run(ReadLine, NO_EVENT, Scan(body).lines);
    Assoc(r.out, Flush(r.state, false), [Lost]);
    NothingMore(if r.state.data != "" then [Got(r.state)] else []);
  }

  lemma {:induction false} ScanBroken(raw: seq<string>)
    ensures ScanRaw(raw, true) == Scanned(ScanRaw(raw, false).lines, true)
  {
    if raw != [] {
      ScanBroken(raw[1..]);
    }
  }

  /** A body that breaks off in a read error is read like one that just ends, and then the error. */
  lemma BrokenBody(text: string)
    requires !Scan(Stream(text, false)).failed
    ensures ReadAll(Stream(text, true)) == ReadAll(Stream(text, false)) + [Lost]
  {
    ScanBroken(RawLines(text, ""));
    LostAfterEvents(Stream(text, true));
  }
}
