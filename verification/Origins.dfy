/**
  The hand-written splitter of a comma-separated list of allowed origins.
 */
module Origins {
  import opened Seqs
  import opened Text

  predicate IsBlank(c: char) {
    c == ' ' || c == '\t'
  }

  lemma SplitAt(parts: seq<string>, s: string, start: nat, i: nat)
    requires start <= i < |s| && s[i] == ',' && forall j :: start <= j < i ==> s[j] != ','
    ensures parts + SplitOn(',', s[start..]) == (parts + [s[start..i]]) + SplitOn(',', s[i + 1..])
  {
    assert s[start..] == s[start..i] + [','] + s[i + 1..];
    SplitHead(',', s[start..i], s[i + 1..]);
    Assoc(parts, [s[start..i]], SplitOn(',', s[i + 1..]));
  }

  method SplitComma(s: string) returns (parts: seq<string>)
    ensures parts == SplitOn(',', s)
  {
    parts := [];
    var start := 0;
    for i := 0 to |s|
      invariant 0 <= start <= i && forall j :: start <= j < i ==> s[j] != ','
      invariant parts + SplitOn(',', s[start..]) == SplitOn(',', s)
    {
      if s[i] == ',' {
        SplitAt(parts, s, start, i);
        parts := parts + [s[start..i]];
        start := i + 1;
      }
    }
    SplitNone(',', s[start..]);
    parts := parts + [s[start..]];
  }

  method TrimSpace(s: string) returns (t: string)
    ensures t == Trim(IsBlank, s)
  {
    t := s;
    while t != "" && (t[0] == ' ' || t[0] == '\t')
      invariant TrimLeft(IsBlank, t) == TrimLeft(IsBlank, s)
      decreases |t|
    {
      t := t[1..];
    }
    while t != "" && (t[|t| - 1] == ' ' || t[|t| - 1] == '\t')
      invariant TrimRight(IsBlank, t) == Trim(IsBlank, s)
      decreases |t|
    {
      t := t[..|t| - 1];
    }
  }

  /** The entries that are not blank, trimmed. */
  function Kept(parts: seq<string>): seq<string> {
    if parts == [] then []
    else
      var t := Trim(IsBlank, parts[|parts| - 1]);
      Kept(parts[..|parts| - 1]) + if t != "" then [t] else []
  }

  method SplitOrigins(s: string) returns (origins: seq<string>)
    ensures origins == Kept(SplitOn(',', s))
  {
    origins := [];
    var parts := SplitComma(s);
    for i := 0 to |parts|
      invariant origins == Kept(parts[..i])
    {
      assert parts[..i + 1][..i] == parts[..i];
      var trimmed := TrimSpace(parts[i]);
      if trimmed != "" {
        origins := origins + [trimmed];
      }
    }
    assert parts[..|parts|] == parts;
  }

  /** Splitting loses nothing: the parts are comma-free, one more than the commas, and join to the input. */
  lemma SplitExact(s: string)
    ensures var parts := SplitOn(',', s);
            && JoinWith(',', parts) == s
            && |parts| == Occurrences(',', s) + 1
            && forall i :: 0 <= i < |parts| ==> ',' !in parts[i]
  {
    SplitJoin(',', s);
    forall i | 0 <= i < |SplitOn(',', s)| ensures ',' !in SplitOn(',', s)[i] {
      SplitFree(',', s, i);
    }
    SplitFree(',', s, 0);
  }

  /** One entry as printed: an origin, or nothing, with padding on both sides. */
  datatype Entry = Entry(left: string, origin: string, right: string) {
    ghost predicate Valid() {
      && (forall c :: c in left + right ==> c == ' ' || c == '\t')
      && (origin != "" ==> origin[0] !in " \t" && origin[|origin| - 1] !in " \t")
      && ',' !in origin
    }

    function Print(): string { left + origin + right }
  }

  lemma Padded(e: Entry)
    requires e.Valid()
    ensures All(IsBlank, e.left) && All(IsBlank, e.right) && Trimmed(IsBlank, e.origin)
  {
    forall i | 0 <= i < |e.left| ensures IsBlank(e.left[i]) {
      assert (e.left + e.right)[i] == e.left[i] && e.left[i] in e.left + e.right;
    }
    forall i | 0 <= i < |e.right| ensures IsBlank(e.right[i]) {
      assert (e.left + e.right)[|e.left| + i] == e.right[i] && e.right[i] in e.left + e.right;
    }
  }

  function Printed(entries: seq<Entry>): seq<string> {
    seq(|entries|, i requires 0 <= i < |entries| => entries[i].Print())
  }

  /** The origins of the entries that have one. */
  function OriginsOf(entries: seq<Entry>): seq<string> {
    if entries == [] then []
    else
      var last := entries[|entries| - 1].origin;
      OriginsOf(entries[..|entries| - 1]) + if last != "" then [last] else []
  }

  lemma {:induction false} KeptOfPrinted(entries: seq<Entry>)
    requires forall i :: 0 <= i < |entries| ==> entries[i].Valid()
    ensures Kept(Printed(entries)) == OriginsOf(entries)
  {
    if entries != [] {
      var init, last := entries[..|entries| - 1], entries[|entries| - 1];
      KeptOfPrinted(init);
      assert Printed(entries)[..|entries| - 1] == Printed(init);
      Padded(last);
      TrimPadded(IsBlank, last.left, last.origin, last.right);
    }
  }

  lemma PrintCommaFree(e: Entry)
    requires e.Valid()
    ensures ',' !in e.Print()
  {
    Padded(e);
    forall i | 0 <= i < |e.Print()| ensures e.Print()[i] != ',' {
      if i < |e.left| {
        assert e.Print()[i] == e.left[i];
      } else if i < |e.left| + |e.origin| {
        assert e.Print()[i] == e.origin[i - |e.left|];
      } else {
        assert e.Print()[i] == e.right[i - |e.left| - |e.origin|];
      }
    }
  }

  /** Round trip: origins printed with any padding and any blank entries are read back exactly. */
  lemma OriginsRoundTrip(entries: seq<Entry>)
    requires entries != [] && forall i :: 0 <= i < |entries| ==> entries[i].Valid()
    ensures Kept(SplitOn(',', JoinWith(',', Printed(entries)))) == OriginsOf(entries)
  {
    forall i | 0 <= i < |entries| ensures ',' !in Printed(entries)[i] {
      PrintCommaFree(entries[i]);
    }
    JoinSplit(',', Printed(entries));
    KeptOfPrinted(entries);
  }
}
