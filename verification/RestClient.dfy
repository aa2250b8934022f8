/**
 * The REST layer of `BinanceFuturesDemoClient`: the rate-limit embargo of `_request` with its nested
 * time synchronization, and idempotent submission of standard and algo orders. The transport and the
 * clock are nondeterministic; the clock never runs backwards.
 */
module RestClient {
  import opened Trading

  datatype Request =
    | ServerTime
    | PostOrder(id: string)
    | GetOrder(id: string)
    | PostAlgo(id: string)
    | GetAlgo(id: string)
    | Other(mutating: bool)
  {
    /** POST, PUT or DELETE. */
    predicate Mutating() { PostOrder? || PostAlgo? || (Other? && mutating) }

    /** Submitting this request creates an order under a client id. */
    predicate Submits() { PostOrder? || PostAlgo? }

    /** The read that resolves a submission: of the same book, for the same id. */
    function Query(): (read: Request)
      requires Submits()
      ensures (PostOrder? <==> read.GetOrder?) && (PostAlgo? <==> read.GetAlgo?)
      ensures read.id == id && !read.Mutating()
    {
      if PostOrder? then GetOrder(id) else GetAlgo(id)
    }
  }

  /** `BinanceApiError`: what the submission logic looks at, and the HTTP status. */
  datatype Failure = Failure(status: Option<int>, executionUnknown: bool, duplicateId: bool) {
    predicate NeedsQuery() { executionUnknown || duplicateId }
  }

  /** `answers` names the request that a decoded payload belongs to; `isObject` says whether it is a JSON object. */
  datatype Reply = Payload(answers: Request, isObject: bool) | Failed(error: Failure)

  datatype Body = Object | OtherJson | Undecodable

  /** What a request that left comes back with; a lost one may have been executed. */
  datatype Response =
    | NoConnection
    | Lost
    | Accepted(body: Body)
    | Refused(status: int, duplicate: bool, retryAfter: Option<real>)
  {
    predicate Throttles() { Refused? && (status == 418 || status == 429) }
  }

  /**
   * How long the server has to be left alone after this response, if at all: as long as it demands, else five minutes for a
   * 418 and one for a 429. A demand of zero is no demand.
   */
  ghost function Demanded(response: Response): Option<real> {
    if !response.Refused? || response.status !in {418, 429} then None
    else if response.retryAfter.Some? && response.retryAfter.value > 0.0 then response.retryAfter
    else Some(if response.status == 418 then 300.0 else 60.0)
  }

  /** What `_request` makes of a response. */
  function Outcome(request: Request, response: Response): Reply {
    match response
    case NoConnection => Failed(Failure(None, false, false))
    case Lost => Failed(Failure(None, request.Mutating(), false))
    case Accepted(body) => if body == Undecodable then Failed(Failure(None, false, false)) else Payload(request, body == Object)
    case Refused(status, duplicate, _) => Failed(Failure(Some(status), status == 503 && request.Mutating(), duplicate))
  }

  /** `_expect_dict`. */
  function ExpectObject(reply: Reply): Reply {
    if reply.Payload? && !reply.isObject then Failed(Failure(None, false, false)) else reply
  }

  /**
   * What the response to a submission means for the caller: the order itself exactly if the response is a decodable object;
   * a lookup exactly if the response leaves open whether the order exists, unless it throttles; and otherwise an error at
   * once, also when the exchange accepted the order in a body that is no object.
   */
  ghost predicate Resolves(request: Request, response: Response, reply: Reply, queried: bool)
    requires request.Submits()
  {
    && (reply == Payload(request, true) <==> response == Accepted(Object))
    && (queried ==> LeavesDoubt(response)) && (LeavesDoubt(response) && Demanded(response).None? ==> queried)
    && (reply == Payload(request.Query(), true) ==> queried)
    && (response.Accepted? && response.body != Object ==> reply == Failed(Failure(None, false, false)))
    && (!response.Accepted? ==>
          || reply == Payload(request.Query(), true)
          || (&& reply.Failed? && reply.error.status == (if response.Refused? then Some(response.status) else None)
              && (reply.error.executionUnknown <==> response.Lost? || (response.Refused? && response.status == 503))
              && (reply.error.duplicateId <==> response.Refused? && response.duplicate)))
  }

  /** The responses to a submission after which the order is looked up. */
  ghost predicate LeavesDoubt(response: Response) {
    response.Lost? || (response.Refused? && (response.status == 503 || response.duplicate))
  }

  /** What goes over the wire, with the time of each event; a request with the response to it. */
  datatype Wire =
    | Sent(at: real, request: Request, response: Response)
    | Throttled(at: real, wait: real)

  /** No request is sent before any earlier throttle has run out. */
  ghost predicate Embargoed(wire: seq<Wire>) {
    forall i, k :: 0 <= i < k < |wire| && wire[i].Throttled? && wire[k].Sent? ==>
      wire[i].at + wire[i].wait <= wire[k].at
  }

  /** After a 418 or a 429 no request is sent before the wait that the response demands is over. */
  ghost predicate Heeded(wire: seq<Wire>) {
    forall i, k :: 0 <= i < k < |wire| && wire[i].Sent? && Demanded(wire[i].response).Some? && wire[k].Sent? ==>
      wire[i].at + Demanded(wire[i].response).value <= wire[k].at
  }

  /** Each client id is submitted at most once. */
  ghost predicate SubmittedOnce(wire: seq<Wire>) {
    forall i, k :: 0 <= i < k < |wire| && IsSubmission(wire[i]) && IsSubmission(wire[k]) ==>
      wire[i].request != wire[k].request
  }

  datatype WireLaw = EmbargoKept | DemandsHeeded | OnceSubmitted

  ghost predicate Obeys(law: WireLaw, wire: seq<Wire>) {
    match law
    case EmbargoKept => Embargoed(wire)
    case DemandsHeeded => Heeded(wire)
    case OnceSubmitted => SubmittedOnce(wire)
  }

  /** All laws of the wire. */
  ghost predicate Orderly(wire: seq<Wire>) { forall law :: Obeys(law, wire) }

  lemma OrderlyParts(wire: seq<Wire>)
    requires Orderly(wire)
    ensures Embargoed(wire) && Heeded(wire) && SubmittedOnce(wire)
  {
    assert Obeys(EmbargoKept, wire) && Obeys(DemandsHeeded, wire) && Obeys(OnceSubmitted, wire);
  }

  ghost predicate IsSubmission(event: Wire) { event.Sent? && event.request.Submits() }

  /** From `lo` on the request left. */
  ghost predicate SentSince(wire: seq<Wire>, lo: nat, request: Request) {
    exists k :: lo <= k < |wire| && IsSame(wire[k], request)
  }

  /** The wait a throttle response imposes: Retry-After when present and not zero, else the fallback. */
  function ThrottleWait(status: int, retryAfter: Option<real>): real {
    if retryAfter.Some? && retryAfter.value != 0.0 then retryAfter.value
    else if status == 418 then 300.0 else 60.0
  }

  /** `^[.A-Z:/a-z0-9_-]{1,36}$`. */
  predicate ValidClientId(id: string) {
    1 <= |id| <= 36 && forall k :: 0 <= k < |id| ==> AllowedChar(id[k])
  }

  predicate AllowedChar(c: char) {
    'A' <= c <= 'Z' || 'a' <= c <= 'z' || '0' <= c <= '9' || c in {'.', ':', '/', '_', '-'}
  }

  /** One more event keeps the laws of the wire if it is a throttle, or leaves late enough and is no second submission. */
  lemma WireGrows(wire: seq<Wire>, event: Wire)
    requires Orderly(wire)
    requires event.Sent? ==>
               && (forall i :: 0 <= i < |wire| && wire[i].Throttled? ==> wire[i].at + wire[i].wait <= event.at)
               && (forall i :: 0 <= i < |wire| && wire[i].Sent? && Demanded(wire[i].response).Some? ==>
                     wire[i].at + Demanded(wire[i].response).value <= event.at)
               && (event.request.Submits() ==> forall i :: 0 <= i < |wire| ==> !IsSame(wire[i], event.request))
    ensures Orderly(wire + [event])
  {
    OrderlyParts(wire);
  }

  /** The pattern allows four stretches of ASCII and, for the length, what `_child_id` cuts to. */
  lemma ValidIffInRanges(id: string)
    ensures ValidClientId(id) <==>
              && 0 < |id| < 37
              && forall c :: c in id ==> '-' <= c <= ':' || 'A' <= c <= 'Z' || c == '_' || 'a' <= c <= 'z'
  {
    assert forall c :: c in id ==> exists k :: 0 <= k < |id| && id[k] == c;
    assert forall k :: 0 <= k < |id| ==> id[k] in id;
  }

  class Client {
    const credentials: bool
    const production: bool
    ghost var wire: seq<Wire>
    var now: real
    var blockedUntil: real
    var timeSynced: bool
    var allowed: bool
    var submitted: set<string>
    var submittedAlgos: set<string>

    function Remembered(request: Request): bool
      requires request.Submits()
      reads this
    {
      if request.PostOrder? then request.id in submitted else request.id in submittedAlgos
    }

    ghost predicate Valid()
      reads this
    {
      Sound() && forall k :: 0 <= k < |wire| ==> Waits(wire[k])
    }

    /** If the event is a response that throttles, the embargo covers what it demands. */
    ghost predicate Waits(event: Wire)
      reads this
    {
      event.Sent? && Demanded(event.response).Some? ==> event.at + Demanded(event.response).value <= blockedUntil
    }

    /** What holds also while the newest response is not handled yet. */
    ghost predicate Sound()
      reads this
    {
      && Orderly(wire)
      && (forall k :: 0 <= k < |wire| ==> wire[k].at <= now)
      && (forall k :: 0 <= k < |wire| && wire[k].Throttled? ==> wire[k].at + wire[k].wait <= blockedUntil)
      && (forall k :: 0 <= k < |wire| && IsSubmission(wire[k]) ==> Remembered(wire[k].request))
    }

    constructor (credentials: bool, production: bool, start: real)
      requires start >= 0.0
      ensures Valid() && wire == [] && submitted == {} && submittedAlgos == {}
    {
      this.credentials, this.production := credentials, production;
      wire, now, blockedUntil, timeSynced := [], start, 0.0, false;
      allowed, submitted, submittedAlgos := !production, {}, {};
    }

    /** Time passes; the embargo is never shortened and the wire is only extended. */
    twostate predicate Later()
      reads this
    {
      old(now) <= now && old(blockedUntil) <= blockedUntil && old(wire) <= wire
    }

    /** The calls of this stretch of the wire submit nothing. */
    twostate predicate OnlyReads()
      reads this
    {
      && Later() && submitted == old(submitted) && submittedAlgos == old(submittedAlgos)
      && forall k :: |old(wire)| <= k < |wire| ==> !IsSubmission(wire[k])
    }

    method ReadClock() returns (time: real)
      requires Sound()
      modifies `now
      ensures Sound() && old(now) <= now && time == now
      ensures old(Valid()) ==> Valid()
    {
      var later: real := *;
      if now < later { now := later; }
      time := now;
    }

    /** The embargo check at the start of `_request`. */
    method CheckEmbargo() returns (open: bool)
      requires Valid()
      modifies `now
      ensures Valid() && old(now) <= now && (open <==> blockedUntil <= now)
    {
      var time := ReadClock();
      open := blockedUntil <= time;
    }

    /** The transport call and the handling of its response. */
    method Send(request: Request) returns (reply: Reply)
      requires Valid() && blockedUntil <= now
      requires request.Submits() ==> Remembered(request) && NeverSent(request)
      modifies `wire, `now, `blockedUntil
      ensures Valid() && Later()
      ensures |wire| > |old(wire)| && IsSame(wire[|old(wire)|], request)
      ensures forall k :: |old(wire)| < k < |wire| ==> wire[k].Throttled?
      ensures var response := wire[|old(wire)|].response;
              && reply == Outcome(request, response)
              && if response.Refused? && response.status in {418, 429} then
                   |wire| == |old(wire)| + 2 && Imposes(wire[|wire| - 1], response.status, response.retryAfter)
                 else
                   |wire| == |old(wire)| + 1 && blockedUntil == old(blockedUntil)
    {
      var response := Transmit(request);
      reply := Outcome(request, response);
      if response.Throttles() { Throttle(response.status, response.retryAfter); }
    }

    /**
     * The embargo that follows a throttle response: as long as the server demands if it demands anything, else five minutes
     * for a 418 and one for a 429. A demand of zero is no demand.
     */
    ghost predicate Imposes(event: Wire, status: int, retryAfter: Option<real>)
      reads this
    {
      && event.Throttled? && event.wait > 0.0 && blockedUntil >= event.at + event.wait
      && (retryAfter.Some? ==> event.wait >= retryAfter.value && (event.wait == retryAfter.value || retryAfter.value <= 0.0))
      && (retryAfter.None? || retryAfter.value <= 0.0 ==> event.wait == if status == 418 then 300.0 else 60.0)
    }

    ghost predicate NeverSent(request: Request)
      reads this
    {
      forall k :: 0 <= k < |wire| ==> !IsSame(wire[k], request)
    }

    /** The request leaves at the current time. */
    method Transmit(request: Request) returns (response: Response)
      requires Valid() && blockedUntil <= now
      requires request.Submits() ==> Remembered(request) && NeverSent(request)
      modifies `wire, `now
      ensures Sound() && Later() && blockedUntil == old(blockedUntil)
      ensures forall k :: 0 <= k < |old(wire)| ==> Waits(wire[k])
      ensures |wire| == |old(wire)| + 1 && IsSame(wire[|old(wire)|], request) && wire[|old(wire)|].response == response
    {
      var at := ReadClock();
      response := *;
      WireGrows(wire, Sent(at, request, response));
      wire := wire + [Sent(at, request, response)];
      assert forall k :: 0 <= k < |old(wire)| ==> wire[k] == old(wire)[k] && !(request.Submits() && IsSame(wire[k], request));
    }

    method Throttle(status: int, retryAfter: Option<real>)
      requires Sound() && status in {418, 429} && |wire| > 0 && forall k :: 0 <= k < |wire| - 1 ==> Waits(wire[k])
      requires var last := wire[|wire| - 1];
               last.Sent? && last.response.Refused? && last.response.status == status && last.response.retryAfter == retryAfter
      modifies `wire, `now, `blockedUntil
      ensures Valid() && Later()
      ensures |wire| == |old(wire)| + 1 && Imposes(wire[|wire| - 1], status, retryAfter)
    {
      var demanded := if retryAfter.Some? then Some(Max(0.0, retryAfter.value)) else None;
      var wait := ThrottleWait(status, demanded);
      var time := ReadClock();
      blockedUntil := Max(blockedUntil, time + wait);
      WireGrows(wire, Throttled(time, wait));
      wire := wire + [Throttled(time, wait)];
    }

    /** `sync_time`: an unsigned request with its own embargo check; its answer may be malformed. */
    method SyncTime() returns (ok: bool, error: Failure)
      requires Valid()
      modifies `wire, `now, `blockedUntil, `timeSynced
      ensures Valid() && OnlyReads()
      ensures forall k :: |old(wire)| <= k < |wire| && wire[k].Sent? ==> wire[k].request == ServerTime
      ensures !ok ==> !error.executionUnknown
      ensures ok ==> timeSynced && blockedUntil == old(blockedUntil) && (old(blockedUntil <= now) ==> blockedUntil <= now)
    {
      var _ := ReadClock();
      var open := CheckEmbargo();
      if !open { return false, Failure(Some(429), false, false); }
      var reply := Send(ServerTime);
      if reply.Failed? { return false, reply.error; }
      var _ := ReadClock();
      var readable: bool := *;
      if !readable { return false, Failure(None, false, false); }
      timeSynced := true;
      return true, Failure(None, false, false);
    }

    /** `_request`; `sent` is where on the wire it left, if it did. */
    method Exchange(request: Request, signed: bool) returns (reply: Reply, ghost sent: Option<nat>)
      requires Valid()
      requires request.Submits() ==> Remembered(request) && NeverSent(request)
      modifies `wire, `now, `blockedUntil, `timeSynced
      ensures Valid() && Later() && (old(timeSynced) ==> timeSynced)
      ensures forall k :: |old(wire)| <= k < |wire| && wire[k].Sent? && sent != Some(k) ==> wire[k].request == ServerTime
      ensures sent.Some? ==>
                && |old(wire)| <= sent.value < |wire| && IsSame(wire[sent.value], request)
                && reply == Outcome(request, wire[sent.value].response)
                && (signed ==> timeSynced && credentials)
                && (if Demanded(wire[sent.value].response).Some? then
                      blockedUntil >= wire[sent.value].at + Demanded(wire[sent.value].response).value
                    else blockedUntil <= now)
      ensures sent.None? ==> reply.Failed? && !reply.error.executionUnknown
      ensures sent.None? && (!signed || old(timeSynced)) ==> !reply.error.NeedsQuery()
      ensures old(blockedUntil <= now) && (signed ==> credentials && old(timeSynced)) ==> sent.Some?
      ensures old(blockedUntil) > now || (signed && !credentials) ==> sent.None? && wire == old(wire)
      ensures old(blockedUntil) > now ==> reply == Failed(Failure(Some(429), false, false))
    {
      sent := None;
      var open := CheckEmbargo();
      if !open { return Failed(Failure(Some(429), false, false)), None; }
      if signed {
        if !credentials { return Failed(Failure(None, false, false)), None; }
        if !timeSynced {
          var ok, error := SyncTime();
          if !ok { return Failed(error), None; }
        }
        var _ := ReadClock();
      }
      sent := Some(|wire|);
      reply := Send(request);
    }

    /** `query_order` and `query_algo_order`. */
    method Query(request: Request) returns (reply: Reply)
      requires Valid() && request.Submits()
      modifies `wire, `now, `blockedUntil, `timeSynced
      ensures Valid() && OnlyReads()
      ensures old(blockedUntil) > now || !credentials ==> reply.Failed?
      ensures reply.Failed? ==> !reply.error.executionUnknown
      ensures reply.Payload? ==> reply == Payload(request.Query(), true) && SentSince(wire, |old(wire)|, request.Query())
      ensures old(blockedUntil <= now) && credentials && old(timeSynced) && ValidClientId(request.id) ==>
                SentSince(wire, |old(wire)|, request.Query())
    {
      if !ValidClientId(request.id) { return Failed(Failure(None, false, false)); }
      ghost var sent;
      reply, sent := Exchange(request.Query(), true);
      reply := ExpectObject(reply);
    }

    /** Whether this submission may be attempted at all: mutation lock, then the id pattern. */
    predicate Admissible(request: Request)
      requires request.Submits()
      reads this
    {
      (production ==> allowed) && ValidClientId(request.id)
    }

    /**
     * `_place_standard_order` and `_place_algo_order`; `posted` is where on the wire the submission left, if it did. An
     * attempt that fails before that point still uses up its id: it is remembered and can only be looked up from then on.
     */
    method Place(request: Request) returns (reply: Reply, ghost posted: Option<nat>)
      requires Valid() && request.Submits()
      modifies this
      ensures Valid() && Later() && allowed == old(allowed)
      ensures forall k :: |old(wire)| <= k < |wire| && IsSubmission(wire[k]) ==> posted == Some(k)
      ensures posted.Some? ==>
                && |old(wire)| <= posted.value < |wire| && IsSame(wire[posted.value], request)
                && old(Admissible(request)) && !old(Remembered(request))
                && Resolves(request, wire[posted.value].response, reply, SentSince(wire, posted.value, request.Query()))
      ensures Remembered(request) <==> old(Admissible(request) || Remembered(request))
      ensures !old(Admissible(request)) ==>
                && reply == Failed(Failure(None, false, false)) && wire == old(wire)
                && blockedUntil == old(blockedUntil) && timeSynced == old(timeSynced)
                && submitted == old(submitted) && submittedAlgos == old(submittedAlgos)
      ensures old(Admissible(request) && !Remembered(request) && timeSynced && blockedUntil <= now) && credentials ==>
                posted.Some?
      ensures old(blockedUntil) > now || !credentials ==> posted.None? && reply.Failed?
      ensures posted.None? && reply.Payload? ==> reply == Payload(request.Query(), true)
    {
      posted := None;
      if !Admissible(request) { return Failed(Failure(None, false, false)), None; }
      if Remembered(request) {
        reply := Query(request);
        return reply, None;
      }
      Remember(request);
      var first;
      first, posted := Exchange(request, true);
      if first.Payload? { return ExpectObject(first), posted; }
      if !first.error.NeedsQuery() { return first, posted; }
      var second := Query(request);
      reply := if second.Payload? then second else first;
    }

    method Remember(request: Request)
      requires Valid() && request.Submits() && !Remembered(request)
      modifies `submitted, `submittedAlgos
      ensures Valid() && Remembered(request) && NeverSent(request)
      ensures forall r: Request :: r.Submits() && old(Remembered(r)) ==> Remembered(r)
    {
      assert NeverSent(request);
      if request.PostOrder? {
        submitted := submitted + {request.id};
      } else {
        submittedAlgos := submittedAlgos + {request.id};
      }
    }

    /** `mutation_authorization`: the permission covers one submission and is restored afterwards. */
    method PlaceAuthorized(request: Request) returns (reply: Reply, ghost posted: Option<nat>)
      requires Valid() && request.Submits()
      modifies this
      ensures Valid() && Later() && allowed == old(allowed)
      ensures forall k :: |old(wire)| <= k < |wire| && IsSubmission(wire[k]) ==> posted == Some(k)
      ensures posted.Some? ==> ValidClientId(request.id) && !old(Remembered(request)) && |old(wire)| <= posted.value < |wire|
      ensures Remembered(request) <==> ValidClientId(request.id) || old(Remembered(request))
      ensures old(!Remembered(request) && timeSynced && blockedUntil <= now) && credentials && ValidClientId(request.id) ==>
                posted.Some?
      ensures old(blockedUntil) > now || !credentials ==> posted.None? && reply.Failed?
      ensures posted.None? && reply.Payload? ==> reply == Payload(request.Query(), true)
    {
      var previous := allowed;
      allowed := true;
      reply, posted := Place(request);
      allowed := previous;
    }

    /**
     * Two attempts under one new id, the second with the permission granted. The first uses up the id exactly if it is
     * admissible, whatever becomes of it; then the second submits nothing. Otherwise the second is a first attempt: with
     * credentials and a synchronized clock, outside an embargo, it goes out exactly if the id is valid.
     */
    method PlaceTwice(request: Request)
      returns (first: Reply, second: Reply, ghost posted: Option<nat>, ghost again: Option<nat>)
      requires Valid() && request.Submits() && !Remembered(request)
      modifies this
      ensures Valid() && Later() && allowed == old(allowed)
      ensures forall k :: |old(wire)| <= k < |wire| && IsSubmission(wire[k]) ==> Some(k) in {posted, again}
      ensures old(Admissible(request)) ==>
                again.None? && (second.Payload? ==> second == Payload(request.Query(), true))
      ensures !old(Admissible(request)) ==> posted.None? && first.Failed?
      ensures !old(Admissible(request)) && old(timeSynced && blockedUntil <= now) && credentials ==>
                (again.Some? <==> ValidClientId(request.id))
      ensures old(Admissible(request) && timeSynced && blockedUntil <= now) && credentials ==> posted.Some?
      ensures old(blockedUntil) > now || !credentials ==> posted.None? && again.None? && first.Failed? && second.Failed?
    {
      first, posted := Place(request);
      second, again := PlaceAuthorized(request);
    }

    /** Any run of one client instance: the embargo and the single submission hold throughout. */
    method Run(requests: seq<Request>)
      requires Valid()
      modifies this
      ensures Valid() && Later() && Embargoed(wire) && Heeded(wire) && SubmittedOnce(wire)
    {
      for i := 0 to |requests|
        invariant Valid() && Later()
      {
        if requests[i].Submits() {
          var _, _ := PlaceAuthorized(requests[i]);
        } else {
          var signed: bool := *;
          var _, _ := Exchange(requests[i], signed);
        }
      }
      OrderlyParts(wire);
    }
  }

  ghost predicate IsSame(event: Wire, request: Request) { event.Sent? && event.request == request }
}
