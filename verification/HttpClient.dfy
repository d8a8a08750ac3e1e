/**
  The retrying HTTP client: one loop over attempts, whose outcomes, cancellations
  and body failures are whatever the world decides.
 */
module HttpClient {
  import opened Llm

  // ---- Options ----

  const SECOND: int := 1_000_000_000

  const INT64_MAX: int := 0x7FFF_FFFF_FFFF_FFFF

  type int64 = x: int | -INT64_MAX - 1 <= x <= INT64_MAX

  datatype Options = Options(timeout: int64, maxBodySize: int64, maxRetries: int)

  function Defaulted(o: Options): (out: Options)
    ensures out.maxRetries >= 0 && (out.maxRetries == o.maxRetries <==> o.maxRetries > 0)
    ensures out.timeout == o.timeout <==> o.timeout != 0
    ensures out.maxBodySize == o.maxBodySize <==> o.maxBodySize != 0
    ensures o == Options(0, 0, 0) ==> out == Options(120_000_000_000, 10_485_760, 3)
    ensures o.maxRetries < 0 ==> out.maxRetries == 0
  {
    Options(
      if o.timeout == 0 then 120 * SECOND else o.timeout,
      if o.maxBodySize == 0 then 10 * 1024 * 1024 else o.maxBodySize,
      if o.maxRetries == 0 then 3 else if o.maxRetries < 0 then 0 else o.maxRetries)
  }

  /** Options are defaulted once: doing it again turns "no retries" into the default number of them. */
  lemma DefaultedTwice(o: Options)
    ensures Defaulted(Defaulted(o)) == Defaulted(o) <==> o.maxRetries >= 0
    ensures o.maxRetries < 0 ==> Defaulted(o).maxRetries == 0 && Defaulted(Defaulted(o)).maxRetries == 3
  {
  }

  // ---- The world ----

  datatype Response = Response(status: int, body: string)

  datatype Attempt = NetworkError(message: string) | Responded(response: Response)

  /**
    attempt(k): what attempt k meets. cancelled(k): the context ends during the wait
    before attempt k. resetFails(k): the body cannot be had again for attempt k.
    leftover(k): what attempt k leaves unread of the request body.
   */
  datatype World = World(
    attempt: nat -> Attempt,
    cancelled: nat -> bool,
    resetFails: nat -> bool,
    leftover: nat -> string,
    unreadable: bool)

  /** A request body is a reader: what it still holds. `getBody` yields a fresh one, if there is one. */
  class Request {
    var body: Option<string>
    var getBody: Option<string>

    constructor (body: Option<string>, getBody: Option<string>)
      ensures this.body == body && this.getBody == getBody
    {
      this.body, this.getBody := body, getBody;
    }
  }

  /** The transport and what it has seen: the bodies sent, and the attempts whose response was closed. */
  class Network {
    const world: World
    var sent: seq<Option<string>>
    var closed: seq<nat>

    constructor (world: World)
      ensures this.world == world && sent == [] && closed == []
    {
      this.world := world;
      sent, closed := [], [];
    }

    /** One attempt: the body as it stands is sent, and reading it uses it up. */
    method RoundTrip(req: Request) returns (a: Attempt)
      modifies this`sent, req`body
      ensures sent == old(sent) + [old(req.body)]
      ensures a == world.attempt(|old(sent)|)
      ensures req.body == if old(req.body).Some? then Some(world.leftover(|old(sent)|)) else None
    {
      a := world.attempt(|sent|);
      if req.body.Some? {
        sent := sent + [req.body];
        req.body := Some(world.leftover(|sent| - 1));
      } else {
        sent := sent + [None];
      }
    }

    method Close(k: nat)
      modifies this`closed
      ensures closed == old(closed) + [k]
    {
      closed := closed + [k];
    }
  }

  // ---- Outcomes ----

  predicate RetryableStatus(status: int) {
    status == 429 || status == 500 || status == 502 || status == 503 || status == 504
  }

  predicate Transient(a: Attempt) {
    a.NetworkError? || RetryableStatus(a.response.status)
  }

  datatype LastError = Network(message: string) | Status(status: int, excerpt: string)

  function Excerpt(body: string): string {
    if |body| <= 1024 then body else body[..1024]
  }

  function ErrorOf(a: Attempt): LastError {
    match a
    case NetworkError(m) => Network(m)
    case Responded(r) => Status(r.status, Excerpt(r.body))
  }

  datatype Outcome =
    | Returned(response: Response)
    | Unbuffered
    | Cancelled
    | NotReset
    | Exhausted(attempts: nat, last: LastError)

  /** Attempt k is made once the one before it has failed: its wait and its body reset go well. */
  predicate Reaches(w: World, replays: bool, k: nat) {
    k == 0 || (!w.cancelled(k) && !(replays && w.resetFails(k)))
  }

  /** The first n attempts are made and all fail in a way worth another attempt. */
  ghost predicate Failing(w: World, replays: bool, n: nat) {
    forall k :: 0 <= k < n ==> Reaches(w, replays, k) && Transient(w.attempt(k))
  }

  /** The outcome and the number of attempts made fit the world, given the number of retries. */
  ghost predicate Explains(w: World, max: nat, replays: bool, o: Outcome, made: nat) {
    match o
    case Returned(r) =>
      && 0 < made <= max + 1 && Failing(w, replays, made - 1) && Reaches(w, replays, made - 1)
      && w.attempt(made - 1) == Responded(r) && !Transient(w.attempt(made - 1))
    case Exhausted(n, last) =>
      made == n == max + 1 && Failing(w, replays, made) && last == ErrorOf(w.attempt(max))
    case Cancelled =>
      0 < made <= max && Failing(w, replays, made) && !Reaches(w, replays, made) && w.cancelled(made)
    case NotReset =>
      0 < made <= max && Failing(w, replays, made) && !Reaches(w, replays, made) && !w.cancelled(made)
    case Unbuffered => false
  }

  /** The first attempt sends the request's own body, every later one the body that is replayed. */
  function Bodies(own: Option<string>, replayed: Option<string>, n: nat): seq<Option<string>> {
    if n == 0 then [] else Bodies(own, replayed, n - 1) + [if n == 1 then own else replayed]
  }

  /** The attempts among the first n whose responses the loop itself closes, in order. */
  function TransientResponses(w: World, n: nat): seq<nat> {
    if n == 0 then []
    else
      TransientResponses(w, n - 1) +
      if w.attempt(n - 1).Responded? && Transient(w.attempt(n - 1)) then [n - 1] else []
  }

  // ---- Outcomes in terms of statuses ----

  /** A status after which the request is tried again: too many requests, or a failing server or gateway. */
  lemma TransientIs(a: Attempt)
    ensures Transient(a) <==> a.NetworkError? || a.response.status in {429, 500, 502, 503, 504}
  {
  }

  /** What is kept of the last error: the network's message, or the status and up to 1024 characters of the body. */
  lemma ErrorIs(a: Attempt)
    ensures a.NetworkError? ==> ErrorOf(a) == Network(a.message)
    ensures a.Responded? ==>
              ErrorOf(a).Status? && ErrorOf(a).status == a.response.status && ErrorOf(a).excerpt <= a.response.body &&
              |ErrorOf(a).excerpt| == if |a.response.body| < 1024 then |a.response.body| else 1024
  {
  }

  /** What an outcome tells of the attempts: which were made, how they ended, and why there were no more. */
  lemma OutcomeMeans(w: World, max: nat, replays: bool, o: Outcome, made: nat)
    requires Explains(w, max, replays, o, made)
    ensures 0 < made <= max + 1
    ensures forall k :: 0 < k < made ==> !w.cancelled(k) && !(replays && w.resetFails(k))
    ensures forall k :: 0 <= k < made && !(o.Returned? && k == made - 1) ==>
              w.attempt(k).NetworkError? || w.attempt(k).response.status in {429, 500, 502, 503, 504}
    ensures o.Returned? ==>
              w.attempt(made - 1) == Responded(o.response) && o.response.status !in {429, 500, 502, 503, 504}
    ensures o.Cancelled? ==> made <= max && w.cancelled(made)
    ensures o.NotReset? ==> made <= max && !w.cancelled(made) && replays && w.resetFails(made)
    ensures o.Exhausted? ==> made == max + 1 == o.attempts && o.last == ErrorOf(w.attempt(max))
  {
    forall k | 0 < k < made ensures !w.cancelled(k) && !(replays && w.resetFails(k)) {
      assert Reaches(w, replays, k);
    }
    forall k | 0 <= k < made && !(o.Returned? && k == made - 1) ensures Transient(w.attempt(k)) {
    }
  }

  lemma {:induction false} ClosedAre(w: World, n: nat, k: nat)
    ensures k in TransientResponses(w, n) <==>
            k < n && w.attempt(k).Responded? && w.attempt(k).response.status in {429, 500, 502, 503, 504}
  {
    if n > 0 {
      ClosedAre(w, n - 1, k);
    }
  }

  lemma {:induction false} BodyAt(own: Option<string>, replayed: Option<string>, n: nat, k: nat)
    requires k < n
    ensures |Bodies(own, replayed, n)| == n
    ensures Bodies(own, replayed, n)[k] == if k == 0 then own else replayed
  {
    if k < n - 1 {
      BodyAt(own, replayed, n - 1, k);
    } else if n > 1 {
      BodyAt(own, replayed, n - 1, 0);
    }
  }

  // ---- The loop ----

  class Client {
    const opts: Options

    constructor (opts: Options)
      ensures this.opts == Defaulted(opts)
    {
      this.opts := Defaulted(opts);
    }

    /** The body must be read into memory to be replayed. */
    predicate Buffers(req: Request)
      reads req
    {
      req.body.Some? && req.getBody.None? && opts.maxRetries > 0
    }

    /** `Do`: buffer the body if it must be replayed, then try. */
    method Do(req: Request, net: Network) returns (o: Outcome)
      requires opts.maxRetries >= 0 && net.sent == [] && net.closed == []
      modifies req, net
      ensures o.Unbuffered? <==>
                old(req.body.Some? && req.getBody.None?) && opts.maxRetries > 0 && net.world.unreadable
      ensures o.Unbuffered? ==> net.sent == []
      ensures o.Returned? ==> |net.sent| > 0 && net.world.attempt(|net.sent| - 1) == Responded(o.response)
      ensures o.Returned? ==> o.response.status !in {429, 500, 502, 503, 504}
      ensures forall k :: 0 <= k < |net.sent| && !(o.Returned? && k == |net.sent| - 1) ==>
                net.world.attempt(k).NetworkError? ||
                net.world.attempt(k).response.status in {429, 500, 502, 503, 504}
      ensures !o.Unbuffered? ==>
                Explains(net.world, opts.maxRetries, old(req.getBody.Some? || Buffers(req)), o, |net.sent|)
      ensures net.sent == Bodies(old(req.body), old(Replayed(req)), |net.sent|)
      ensures net.closed == TransientResponses(net.world, |net.sent|)
    {
      if Buffers(req) {
        if net.world.unreadable {
          return Unbuffered;
        }
        var bytes := req.body;
        req.body := bytes;
        req.getBody := bytes;
      }
      o := Try(req, net);
      OutcomeMeans(net.world, opts.maxRetries, old(req.getBody.Some? || Buffers(req)), o, |net.sent|);
    }

    /** What every attempt but the first sends. */
    function Replayed(req: Request): Option<string>
      reads req
    {
      if req.getBody.Some? then req.getBody else req.body
    }

    /** Before a retry: wait unless the context ends, then reset the body. */
    method Prepare(req: Request, world: World, attempt: nat) returns (stop: Option<Outcome>)
      requires attempt > 0
      modifies req`body
      ensures stop.None? <==> Reaches(world, req.getBody.Some?, attempt)
      ensures stop.Some? ==> stop.value == if world.cancelled(attempt) then Cancelled else NotReset
      ensures stop.None? ==> req.body == old(Replayed(req))
    {
      if world.cancelled(attempt) {
        return Some(Cancelled);
      }
      if req.getBody.Some? {
        if world.resetFails(attempt) {
          return Some(NotReset);
        }
        req.body := req.getBody;
      }
      stop := None;
    }

    /** After an attempt: return a response that is not transient; drain and close one that is. */
    method Settle(a: Attempt, k: nat, net: Network) returns (done: Option<Response>, err: Option<LastError>)
      requires a == net.world.attempt(k) && net.closed == TransientResponses(net.world, k)
      modifies net`closed
      ensures Transient(a) ==> done.None? && err == Some(ErrorOf(a))
      ensures !Transient(a) ==> done.Some? && a == Responded(done.value)
      ensures net.closed == TransientResponses(net.world, k + 1)
    {
      match a {
        case NetworkError(message) =>
          return None, Some(Network(message));
        case Responded(response) =>
          if !RetryableStatus(response.status) {
            return Some(response), None;
          }
          net.Close(k);
          return None, Some(Status(response.status, Excerpt(response.body)));
      }
    }

    /** The loop over attempts. */
    method Try(req: Request, net: Network) returns (o: Outcome)
      requires opts.maxRetries >= 0 && net.sent == [] && net.closed == []
      requires req.getBody.Some? || req.body.None? || opts.maxRetries == 0
      modifies req, net
      ensures Explains(net.world, opts.maxRetries, old(req.getBody.Some?), o, |net.sent|)
      ensures net.sent == Bodies(old(req.body), old(Replayed(req)), |net.sent|)
      ensures net.closed == TransientResponses(net.world, |net.sent|)
    {
      ghost var own, replayed, replays := req.body, Replayed(req), req.getBody.Some?;
      var lastErr: Option<LastError> := None;
      var attempt := 0;
      while attempt <= opts.maxRetries
        invariant 0 <= attempt <= opts.maxRetries + 1
        invariant req.getBody.Some? == replays && Replayed(req) == (if replays || attempt == 0 then replayed else req.body)
        invariant attempt == 0 ==> req.body == own
        invariant replays || opts.maxRetries == 0 || (req.body.None? && own.None? && replayed.None?)
        invariant Failing(net.world, replays, attempt)
        invariant attempt > 0 ==> lastErr == Some(ErrorOf(net.world.attempt(attempt - 1)))
        invariant Recorded(net, own, replayed, attempt)
      {
        if attempt > 0 {
          var stop := Prepare(req, net.world, attempt);
          if stop.Some? {
            return stop.value;
          }
        }
        var done: Option<Response>;
        done, lastErr := One(req, net, attempt, own, replayed);
        attempt := attempt + 1;
        if done.Some? {
          return Returned(done.value);
        }
      }
      // There was at least one attempt, so there is an error: the loop is never left with a response in hand.
      o := Exhausted(opts.maxRetries + 1, lastErr.value);
    }

    /**
      Reads a body, asking for one byte more than is allowed so as to notice one that is
      too long. The sum wraps around: the largest limit of all lets nothing be read.
     */
    method ReadBody(body: string, broken: bool) returns (data: Option<string>)
      ensures opts.maxBodySize < 9_223_372_036_854_775_807 ==>
                data == if !broken && |body| <= opts.maxBodySize then Some(body) else None
      ensures opts.maxBodySize == 9_223_372_036_854_775_807 ==> data == Some("")
    {
      var limit: int64 := if opts.maxBodySize == INT64_MAX then -INT64_MAX - 1 else opts.maxBodySize + 1;
      if broken && |body| < limit {
        return None;
      }
      var read := if |body| < limit then body else if limit > 0 then body[..limit] else "";
      if |read| > opts.maxBodySize {
        return None;
      }
      data := Some(read);
    }

    /** What the network has seen after n attempts. */
    ghost predicate Recorded(net: Network, own: Option<string>, replayed: Option<string>, n: nat)
      reads net
    {
      net.sent == Bodies(own, replayed, n) && |net.sent| == n && net.closed == TransientResponses(net.world, n)
    }

    /** Attempt k, and what is done about its outcome. */
    method One(req: Request, net: Network, k: nat, ghost own: Option<string>, ghost replayed: Option<string>)
      returns (done: Option<Response>, err: Option<LastError>)
      requires Recorded(net, own, replayed, k) && req.body == if k == 0 then own else replayed
      modifies net`sent, net`closed, req`body
      ensures Recorded(net, own, replayed, k + 1)
      ensures Transient(net.world.attempt(k)) ==> done.None? && err == Some(ErrorOf(net.world.attempt(k)))
      ensures !Transient(net.world.attempt(k)) ==> done.Some? && net.world.attempt(k) == Responded(done.value)
      ensures req.body.None? <==> old(req.body).None?
    {
      var a := net.RoundTrip(req);
      done, err := Settle(a, k, net);
    }
  }

  // ---- What callers may rely on ----

  /** The world fixes the outcome. */
  lemma OutcomeUnique(w: World, max: nat, replays: bool, o: Outcome, made: nat, o': Outcome, made': nat)
    requires Explains(w, max, replays, o, made) && Explains(w, max, replays, o', made')
    ensures o == o' && made == made'
  {
  }

  /** Undisturbed, the first response with any other status is returned, or the last error after all attempts. */
  lemma FirstNonTransient(w: World, max: nat, replays: bool, o: Outcome, made: nat, k: nat)
    requires Explains(w, max, replays, o, made)
    requires forall j :: 0 < j <= max ==> !w.cancelled(j) && !w.resetFails(j)
    requires k <= max + 1
    requires forall j :: 0 <= j < k ==>
               w.attempt(j).NetworkError? || w.attempt(j).response.status in {429, 500, 502, 503, 504}
    ensures k <= max && w.attempt(k).Responded? && w.attempt(k).response.status !in {429, 500, 502, 503, 504} ==>
              o == Returned(w.attempt(k).response) && made == k + 1
    ensures k == max + 1 ==> o == Exhausted(max + 1, ErrorOf(w.attempt(max))) && made == max + 1
  {
    forall j | 0 <= j <= max ensures Reaches(w, replays, j) {
    }
    forall j | 0 <= j < k ensures Transient(w.attempt(j)) {
    }
    if k <= max && !Transient(w.attempt(k)) {
      OutcomeUnique(w, max, replays, o, made, Returned(w.attempt(k).response), k + 1);
    } else if k == max + 1 {
      OutcomeUnique(w, max, replays, o, made, Exhausted(max + 1, ErrorOf(w.attempt(max))), max + 1);
    }
  }

  lemma {:induction false} ClosedOnce(w: World, n: nat, i: nat, j: nat)
    requires i < j < |TransientResponses(w, n)|
    ensures TransientResponses(w, n)[i] != TransientResponses(w, n)[j]
  {
    var before := TransientResponses(w, n - 1);
    if j < |before| {
      ClosedOnce(w, n - 1, i, j);
    } else {
      ClosedAre(w, n - 1, before[i]);
    }
  }

  /** Every response obtained has been closed, except the one returned to the caller; none is closed twice. */
  lemma OnlyReturnedStaysOpen(w: World, max: nat, replays: bool, o: Outcome, made: nat, k: nat)
    requires Explains(w, max, replays, o, made) && k < made && w.attempt(k).Responded?
    ensures k in TransientResponses(w, made) <==> !(o.Returned? && k == made - 1)
    ensures forall i, j :: 0 <= i < j < |TransientResponses(w, made)| ==>
              TransientResponses(w, made)[i] != TransientResponses(w, made)[j]
  {
    ClosedAre(w, made, k);
    forall i, j | 0 <= i < j < |TransientResponses(w, made)|
      ensures TransientResponses(w, made)[i] != TransientResponses(w, made)[j]
    {
      ClosedOnce(w, made, i, j);
    }
  }

  /** All attempts send the same body exactly if the replayed body is the request's own, or there was no retry. */
  lemma SameBody(own: Option<string>, replayed: Option<string>, n: nat)
    requires n > 0
    ensures (forall k :: 0 <= k < |Bodies(own, replayed, n)| ==> Bodies(own, replayed, n)[k] == own) <==>
            n == 1 || own == replayed
  {
    forall k | 0 <= k < n
      ensures |Bodies(own, replayed, n)| == n && Bodies(own, replayed, n)[k] == if k == 0 then own else replayed
    {
      BodyAt(own, replayed, n, k);
    }
    assert |Bodies(own, replayed, n)| == n by {
      BodyAt(own, replayed, n, 0);
    }
    if n > 1 {
      assert Bodies(own, replayed, n)[1] == replayed;
    }
  }
}
