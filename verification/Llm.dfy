/**
  What providers hand to the agent loop: responses made of text and function
  calls, one response or error per call of `yield`.
 */
module Llm {
  import opened Seqs
  import opened Text

  datatype Option<+T> = None | Some(value: T)

  /** Decoded JSON; a number is kept as its text. */
  datatype Json =
    | Null
    | Bool(b: bool)
    | Number(n: string)
    | Str(s: string)
    | Arr(items: seq<Json>)
    | Obj(fields: map<string, Json>)

  /** A decoded argument object; None is Go's nil map. */
  type Args = Option<map<string, Json>>

  /** What unmarshalling into a map leaves there: only an object fills it. */
  function ObjectOf(j: Option<Json>): (a: Args)
    ensures forall fields :: a == Some(fields) <==> j == Some(Obj(fields))
  {
    if j.Some? && j.value.Obj? then Some(j.value.fields) else None
  }

  datatype Part = TextPart(text: string) | CallPart(name: string, args: Args)

  datatype FinishReason = Unset | Stop | MaxTokens | Safety

  datatype UsageMetadata = UsageMetadata(prompt: int, candidates: int, total: int)

  datatype Response = Response(content: Option<seq<Part>>, turnComplete: bool, finish: FinishReason,
                               usage: Option<UsageMetadata>)

  /** One call of `yield`: Go's pair of a response pointer and an error. */
  datatype Item = Item(response: Option<Response>, error: Option<string>)

  function Reply(r: Response): Item { Item(Some(r), None) }

  function Failure(message: string): Item { Item(None, Some(message)) }

  /** A response in the middle of a turn. */
  function Chunk(p: Part): Item { Reply(Response(Some([p]), false, Unset, None)) }

  /** Nothing may follow an error or the response that completes the turn. */
  predicate Closing(i: Item) {
    i.error.Some? || (i.response.Some? && i.response.value.turnComplete)
  }

  /** An item in the middle of a turn: one part, no finish reason, no usage, no error. */
  predicate IsChunk(i: Item) {
    && i.error.None? && i.response.Some?
    && i.response.value.content.Some? && |i.response.value.content.value| == 1
    && !i.response.value.turnComplete && i.response.value.finish.Unset? && i.response.value.usage.None?
  }

  /** An error comes without a response. */
  predicate IsError(i: Item) {
    i.error.Some? && i.response.None?
  }

  /** The response that completes a turn has a finish reason and comes without an error. */
  predicate IsCompletion(i: Item) {
    && i.error.None? && i.response.Some?
    && i.response.value.turnComplete && !i.response.value.finish.Unset?
  }

  /** Every item is one of the three, and closing exactly if it is not a chunk. */
  predicate IsTurnItem(i: Item) {
    (IsChunk(i) && !Closing(i)) || (IsError(i) && Closing(i)) || (IsCompletion(i) && Closing(i))
  }

  /** Go's conversion of an int to int32: the low 32 bits, as a signed number. */
  function ToInt32(n: int): (r: int)
    ensures -0x8000_0000 <= r < 0x8000_0000
    ensures -0x8000_0000 <= n < 0x8000_0000 ==> r == n
    ensures (n - r) % 0x1_0000_0000 == 0
  {
    (n + 0x8000_0000) % 0x1_0000_0000 - 0x8000_0000
  }

  predicate FitsInt32(n: int) {
    -0x8000_0000 <= n < 0x8000_0000
  }

  function PartsOf(i: Item): seq<Part> {
    if i.response.Some? && i.response.value.content.Some? then i.response.value.content.value else []
  }

  /** All parts of a sequence of responses, in order. */
  function Parts(items: seq<Item>): seq<Part> {
    if items == [] then [] else PartsOf(items[0]) + Parts(items[1..])
  }

  lemma {:induction false} PartsAppend(a: seq<Item>, b: seq<Item>)
    ensures Parts(a + b) == Parts(a) + Parts(b)
  {
    if a == [] {
      NothingMore(b);
      NothingMore(Parts(b));
    } else {
      AppendRest(a, b);
      PartsAppend(a[1..], b);
      Assoc(PartsOf(a[0]), Parts(a[1..]), Parts(b));
    }
  }

  lemma PartsOne(i: Item)
    ensures Parts([i]) == PartsOf(i)
  {
    assert [i][1..] == [];
    NothingMore(PartsOf(i));
  }

  // ---- Indexed accumulators ----

  /** A slice extended with empty entries until it holds the index. */
  function Grow<T>(xs: seq<T>, index: nat, empty: T): (r: seq<T>)
    ensures xs <= r && |r| == (if |xs| > index then |xs| else index + 1)
    ensures forall k :: |xs| <= k < |r| ==> r[k] == empty
    decreases index + 1 - |xs|
  {
    if |xs| > index then xs else Grow(xs + [empty], index, empty)
  }

  // ---- The same answer in other pieces ----

  /** Adjacent texts merged, empty texts dropped. */
  function Normalise(parts: seq<Part>): seq<Part> {
    if parts == [] then [] else Push(Normalise(parts[..|parts| - 1]), parts[|parts| - 1])
  }

  function Push(acc: seq<Part>, p: Part): seq<Part> {
    if p.CallPart? then acc + [p]
    else if p.text == "" then acc
    else if acc != [] && acc[|acc| - 1].TextPart? then
      acc[..|acc| - 1] + [TextPart(acc[|acc| - 1].text + p.text)]
    else acc + [p]
  }

  /** An answer as what is said and called, however it was cut: characters and calls. */
  datatype Atom = Ch(c: char) | Call(name: string, args: Args)

  function Chars(s: string): seq<Atom> {
    seq(|s|, i requires 0 <= i < |s| => Ch(s[i]))
  }

  function AtomsOf(p: Part): seq<Atom> {
    match p
    case TextPart(t) => Chars(t)
    case CallPart(n, a) => [Call(n, a)]
  }

  function Atoms(parts: seq<Part>): seq<Atom> {
    if parts == [] then [] else Atoms(parts[..|parts| - 1]) + AtomsOf(parts[|parts| - 1])
  }

  lemma {:induction false} AtomsAppend(a: seq<Part>, b: seq<Part>)
    ensures Atoms(a + b) == Atoms(a) + Atoms(b)
  {
    if b == [] {
      NothingMore(a);
      NothingMore(Atoms(a));
    } else {
      AppendInit(a, b);
      AtomsAppend(a, b[..|b| - 1]);
      Assoc(Atoms(a), Atoms(b[..|b| - 1]), AtomsOf(b[|b| - 1]));
    }
  }

  lemma AtomsOne(p: Part)
    ensures Atoms([p]) == AtomsOf(p)
  {
    assert [p][..0] == [];
    NothingMore(AtomsOf(p));
  }

  /** All that a sequence of responses says and calls. */
  function Said(items: seq<Item>): seq<Atom> {
    Atoms(Parts(items))
  }

  lemma SaidMore(items: seq<Item>, more: seq<Item>)
    ensures Said(items + more) == Said(items) + Said(more)
  {
    PartsAppend(items, more);
    AtomsAppend(Parts(items), Parts(more));
  }

  lemma SaidChunk(p: Part)
    ensures Said([Chunk(p)]) == AtomsOf(p)
  {
    PartsOne(Chunk(p));
    AtomsOne(p);
  }

  lemma SaidReply(parts: seq<Part>, finish: FinishReason, usage: Option<UsageMetadata>)
    ensures Said([Reply(Response(if parts == [] then None else Some(parts), true, finish, usage))]) == Atoms(parts)
  {
    PartsOne(Reply(Response(if parts == [] then None else Some(parts), true, finish, usage)));
  }

  lemma CharsAppend(s: string, t: string)
    ensures Chars(s + t) == Chars(s) + Chars(t)
  {
  }

  lemma SaidText(items: seq<Item>, s: string, t: string)
    requires Said(items) == Chars(s)
    ensures Said(items + [Chunk(TextPart(t))]) == Chars(s + t)
  {
    SaidMore(items, [Chunk(TextPart(t))]);
    SaidChunk(TextPart(t));
    CharsAppend(s, t);
  }

  ghost predicate Normal(parts: seq<Part>) {
    && (forall i :: 0 <= i < |parts| ==> parts[i].TextPart? ==> parts[i].text != "")
    && (forall i :: 0 < i < |parts| ==> !(parts[i - 1].TextPart? && parts[i].TextPart?))
  }

  lemma PushNormal(acc: seq<Part>, p: Part)
    requires Normal(acc)
    ensures Normal(Push(acc, p))
  {
    var r := Push(acc, p);
    forall i | 0 < i < |r| ensures !(r[i - 1].TextPart? && r[i].TextPart?) {
      if i < |acc| {
        assert !(acc[i - 1].TextPart? && acc[i].TextPart?);
      }
    }
  }

  lemma PushAtoms(acc: seq<Part>, p: Part)
    ensures Atoms(Push(acc, p)) == Atoms(acc) + AtomsOf(p)
  {
    if p.TextPart? && p.text != "" && acc != [] && acc[|acc| - 1].TextPart? {
      var init, last := acc[..|acc| - 1], acc[|acc| - 1];
      AtomsAppend(init, [TextPart(last.text + p.text)]);
      AtomsOne(TextPart(last.text + p.text));
      CharsAppend(last.text, p.text);
      Assoc(Atoms(init), Chars(last.text), Chars(p.text));
    } else if p.TextPart? && p.text == "" {
      NothingMore(Atoms(acc));
    } else {
      AtomsAppend(acc, [p]);
      AtomsOne(p);
    }
  }

  lemma {:induction false} NormaliseKeeps(parts: seq<Part>)
    ensures Normal(Normalise(parts)) && Atoms(Normalise(parts)) == Atoms(parts)
  {
    if parts != [] {
      NormaliseKeeps(parts[..|parts| - 1]);
      PushNormal(Normalise(parts[..|parts| - 1]), parts[|parts| - 1]);
      PushAtoms(Normalise(parts[..|parts| - 1]), parts[|parts| - 1]);
    }
  }

  lemma CharsInjective(s: string, t: string)
    requires Chars(s) == Chars(t)
    ensures s == t
  {
    assert |Chars(s)| == |s| && |Chars(t)| == |t|;
    forall i | 0 <= i < |s| ensures s[i] == t[i] {
      assert Chars(s)[i] == Chars(t)[i];
    }
  }

  /** The atoms of a list end with those of its last part. */
  lemma LastAtoms(x: seq<Part>)
    requires x != []
    ensures var n, k := |Atoms(x)|, |AtomsOf(x[|x| - 1])|;
            && k <= n && Atoms(x)[n - k..] == AtomsOf(x[|x| - 1])
            && Atoms(x)[..n - k] == Atoms(x[..|x| - 1])
  {
  }

  lemma NormalNonEmpty(x: seq<Part>)
    requires Normal(x) && x != []
    ensures |Atoms(x)| >= |AtomsOf(x[|x| - 1])| > 0
    ensures Atoms(x)[|Atoms(x)| - 1] == AtomsOf(x[|x| - 1])[|AtomsOf(x[|x| - 1])| - 1]
  {
    LastAtoms(x);
    var n, k := |Atoms(x)|, |AtomsOf(x[|x| - 1])|;
    assert Atoms(x)[n - k..][k - 1] == Atoms(x)[n - 1];
  }

  /** The length of the final run of characters. */
  ghost predicate FinalRun(atoms: seq<Atom>, k: nat) {
    && k <= |atoms|
    && (forall i :: |atoms| - k <= i < |atoms| ==> atoms[i].Ch?)
    && (k < |atoms| ==> atoms[|atoms| - k - 1].Call?)
  }

  lemma FinalRunUnique(atoms: seq<Atom>, j: nat, k: nat)
    requires FinalRun(atoms, j) && FinalRun(atoms, k)
    ensures j == k
  {
  }

  /** In a normal list the characters of a final text go back as far as characters go. */
  lemma TextIsMaximal(x: seq<Part>)
    requires Normal(x) && x != [] && x[|x| - 1].TextPart?
    ensures FinalRun(Atoms(x), |x[|x| - 1].text|)
  {
    var init, n, k := x[..|x| - 1], |Atoms(x)|, |x[|x| - 1].text|;
    LastAtoms(x);
    forall i | n - k <= i < n ensures Atoms(x)[i].Ch? {
      assert Atoms(x)[i] == Atoms(x)[n - k..][i - (n - k)];
    }
    if init != [] {
      NormalNonEmpty(init);
      assert init[|init| - 1] == x[|x| - 2];
      assert Atoms(x)[n - k - 1] == Atoms(init)[|Atoms(init)| - 1];
    }
  }

  lemma TextAgrees(x: seq<Part>, y: seq<Part>)
    requires Normal(x) && Normal(y) && Atoms(x) == Atoms(y) && x != [] && y != []
    requires x[|x| - 1].TextPart? && y[|y| - 1].TextPart?
    ensures x[|x| - 1] == y[|y| - 1]
  {
    var s, t := x[|x| - 1].text, y[|y| - 1].text;
    TextIsMaximal(x);
    TextIsMaximal(y);
    FinalRunUnique(Atoms(x), |s|, |t|);
    assert Chars(s) == Atoms(x)[|Atoms(x)| - |s|..] by {
      LastAtoms(x);
    }
    assert Chars(t) == Atoms(y)[|Atoms(y)| - |t|..] by {
      LastAtoms(y);
    }
    CharsInjective(s, t);
  }

  /** The last part of a normal list can be read off its atoms. */
  lemma LastAgrees(x: seq<Part>, y: seq<Part>)
    requires Normal(x) && Normal(y) && Atoms(x) == Atoms(y) && x != [] && y != []
    ensures x[|x| - 1] == y[|y| - 1]
  {
    if x[|x| - 1].TextPart? && y[|y| - 1].TextPart? {
      TextAgrees(x, y);
    } else {
      NormalNonEmpty(x);
      NormalNonEmpty(y);
    }
  }

  lemma EmptyAgrees(x: seq<Part>, y: seq<Part>)
    requires Normal(x) && Normal(y) && Atoms(x) == Atoms(y)
    ensures x == [] <==> y == []
  {
    if x != [] {
      NormalNonEmpty(x);
    }
    if y != [] {
      NormalNonEmpty(y);
    }
  }

  lemma NormalInit(x: seq<Part>)
    requires Normal(x) && x != []
    ensures Normal(x[..|x| - 1])
  {
    assert forall i :: 0 <= i < |x| - 1 ==> x[..|x| - 1][i] == x[i];
  }

  /** With the same last part they say the same without it. */
  lemma InitAgrees(x: seq<Part>, y: seq<Part>)
    requires Atoms(x) == Atoms(y) && x != [] && y != [] && x[|x| - 1] == y[|y| - 1]
    ensures Atoms(x[..|x| - 1]) == Atoms(y[..|y| - 1])
  {
    LastAtoms(x);
    LastAtoms(y);
  }

  lemma {:induction false} NormalUnique(x: seq<Part>, y: seq<Part>)
    requires Normal(x) && Normal(y) && Atoms(x) == Atoms(y)
    ensures x == y
  {
    EmptyAgrees(x, y);
    if x != [] {
      LastAgrees(x, y);
      InitAgrees(x, y);
      NormalInit(x);
      NormalInit(y);
      NormalUnique(x[..|x| - 1], y[..|y| - 1]);
      InitLast(x);
      InitLast(y);
    }
  }

  /** Two lists of parts have one normal form exactly when they say and call the same things in the same order. */
  lemma NormaliseCanonical(x: seq<Part>, y: seq<Part>)
    ensures Normalise(x) == Normalise(y) <==> Atoms(x) == Atoms(y)
  {
    NormaliseKeeps(x);
    NormaliseKeeps(y);
    if Atoms(x) == Atoms(y) {
      NormalUnique(Normalise(x), Normalise(y));
    }
  }
}
