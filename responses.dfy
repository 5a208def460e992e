/**
 * The outcome of dispatching a message: one handler's response, the aggregate
 * of several handlers' responses, the "unhandled" marker, or any other
 * response a middleware may return.
 */
module Responses {

  import opened Wrappers

  /** MessageBusResponseStatusCode. */
  datatype StatusCode = FAILED | INVALID | REFUSED | ACCEPTED | SUCCEEDED | SKIPPED

  /** The string a status code converts to. */
  function StatusName(c: StatusCode): string
  {
    match c
    case FAILED => "FAILED"
    case INVALID => "INVALID"
    case REFUSED => "REFUSED"
    case ACCEPTED => "ACCEPTED"
    case SUCCEEDED => "SUCCEEDED"
    case SKIPPED => "SKIPPED"
  }

  /** A captured exception: its class, message, file and line. */
  datatype Exception = Exception(className: string, message: string, file: string, line: int)

  /**
   * A response payload: a plain return value, a captured exception (a PHP
   * Throwable), or an array of payloads.
   */
  datatype Payload = Value(repr: string) | Throwable(exception: Exception) | List(items: seq<Payload>)

  /** MessageHandlerResponse: the outcome of one handler invocation. */
  datatype HandlerResponse = HandlerResponse(handlerName: string, status: StatusCode, payload: Payload)

  /** An element handed to the multi-response constructor: a handler response or anything else. */
  datatype Element = Response(response: HandlerResponse) | Foreign(description: string)

  datatype Error = InvalidArgument

  datatype Result<+T> = Success(value: T) | Failure(error: Error)

  /*
   * Status precedence. The ranking is a parameter: the larger rank dominates.
   */

  type Ranking = StatusCode -> nat

  /** The ranking orders the codes strictly: two codes of equal rank are the same code. */
  ghost predicate Strict(rank: Ranking)
  {
    forall a, b :: rank(a) == rank(b) ==> a == b
  }

  /**
   * A ranking the aggregate may use: strict, FAILED above every other code
   * (an assumption of this model), and the precedences the aggregate's status
   * fixtures fix: ACCEPTED above SUCCEEDED, INVALID above REFUSED and above SUCCEEDED.
   */
  ghost predicate Admissible(rank: Ranking)
  {
    && Strict(rank)
    && (forall c :: c != FAILED ==> rank(c) < rank(FAILED))
    && rank(SUCCEEDED) < rank(ACCEPTED)
    && rank(REFUSED) < rank(INVALID)
    && rank(SUCCEEDED) < rank(INVALID)
  }

  /** One admissible order: FAILED > INVALID > REFUSED > ACCEPTED > SUCCEEDED > SKIPPED. */
  function DefaultRank(c: StatusCode): nat
  {
    match c
    case FAILED => 5
    case INVALID => 4
    case REFUSED => 3
    case ACCEPTED => 2
    case SUCCEEDED => 1
    case SKIPPED => 0
  }

  lemma DefaultRankIsAdmissible()
    ensures Admissible(DefaultRank)
  {
  }

  /** The dominant status of a non-empty list: a status of the list that no other outranks. */
  function Dominant(statuses: seq<StatusCode>, rank: Ranking): (d: StatusCode)
    requires |statuses| > 0
    ensures d in statuses
    ensures forall c | c in statuses :: rank(c) <= rank(d)
  {
    if |statuses| == 1 then statuses[0]
    else
      var rest := Dominant(statuses[1..], rank);
      if rank(statuses[0]) >= rank(rest) then statuses[0] else rest
  }

  /** A present code that outranks every other present code is the dominant status. */
  lemma DominantIsTheOutrankingCode(statuses: seq<StatusCode>, rank: Ranking, c: StatusCode)
    requires c in statuses
    requires forall x | x in statuses :: x == c || rank(x) < rank(c)
    ensures Dominant(statuses, rank) == c
  {
  }

  /** Under a strict ranking the dominant status depends only on which codes occur, not on order or multiplicity. */
  lemma DominantDependsOnlyOnCodesPresent(s1: seq<StatusCode>, s2: seq<StatusCode>, rank: Ranking)
    requires |s1| > 0 && |s2| > 0
    requires Strict(rank)
    requires forall c :: c in s1 <==> c in s2
    ensures Dominant(s1, rank) == Dominant(s2, rank)
  {
    var d1, d2 := Dominant(s1, rank), Dominant(s2, rank);
    assert rank(d1) <= rank(d2) && rank(d2) <= rank(d1);
  }

  /** Under an admissible ranking, the dominant status is FAILED exactly when some status is FAILED. */
  lemma DominantFailedIffFailedPresent(statuses: seq<StatusCode>, rank: Ranking)
    requires |statuses| > 0
    requires Admissible(rank)
    ensures Dominant(statuses, rank) == FAILED <==> FAILED in statuses
  {
    var d := Dominant(statuses, rank);
    if FAILED in statuses {
      assert rank(FAILED) <= rank(d);
    }
  }

  /*
   * Queries over a list of handler responses.
   */

  /** The status codes of the responses, in order. */
  function Statuses(rs: seq<HandlerResponse>): (s: seq<StatusCode>)
    ensures |s| == |rs|
    ensures forall i | 0 <= i < |rs| :: s[i] == rs[i].status
  {
    seq(|rs|, i requires 0 <= i < |rs| => rs[i].status)
  }

  /** The payloads of the responses, in order. */
  function Payloads(rs: seq<HandlerResponse>): (p: seq<Payload>)
    ensures |p| == |rs|
    ensures forall i | 0 <= i < |rs| :: p[i] == rs[i].payload
  {
    seq(|rs|, i requires 0 <= i < |rs| => rs[i].payload)
  }

  /** The position of the first response with status c, if any. */
  function FindFirst(rs: seq<HandlerResponse>, c: StatusCode): (r: Option<nat>)
    ensures r.Some? ==> r.value < |rs| && rs[r.value].status == c
    ensures r.Some? ==> forall j | 0 <= j < r.value :: rs[j].status != c
    ensures r.None? <==> forall j | 0 <= j < |rs| :: rs[j].status != c
  {
    if |rs| == 0 then None
    else if rs[0].status == c then Some(0)
    else match FindFirst(rs[1..], c)
      case None => None
      case Some(k) => Some(k + 1)
  }

  /** The handler responses inside the elements, or None as soon as one element is not a handler response. */
  function Collect(elements: seq<Element>): (r: Option<seq<HandlerResponse>>)
    ensures r.Some? <==> forall i | 0 <= i < |elements| :: elements[i].Response?
    ensures r.Some? ==> |r.value| == |elements|
    ensures r.Some? ==> forall i | 0 <= i < |elements| :: r.value[i] == elements[i].response
  {
    if |elements| == 0 then Some([])
    else if elements[0].Foreign? then None
    else match Collect(elements[1..])
      case None => None
      case Some(rest) => Some([elements[0].response] + rest)
  }

  /*
   * MultiMessageHandlerResponse.
   */

  /** The aggregate: its constituents in order and the status fixed when it was built. */
  datatype MultiResponse = MultiResponse(responses: seq<HandlerResponse>, statusCode: StatusCode)

  /** What construction guarantees: at least two constituents, and the stored status is their dominant one. */
  ghost predicate ValidMulti(m: MultiResponse, rank: Ranking)
  {
    |m.responses| >= 2 && m.statusCode == Dominant(Statuses(m.responses), rank)
  }

  /**
   * Builds the aggregate, failing with InvalidArgument when an element is not a
   * handler response or when fewer than two are given.
   */
  function Construct(elements: seq<Element>, rank: Ranking): (r: Result<MultiResponse>)
    ensures r.Success? <==> |elements| >= 2 && forall i | 0 <= i < |elements| :: elements[i].Response?
    ensures r.Failure? ==> r.error == InvalidArgument
    ensures r.Success? ==> ValidMulti(r.value, rank)
    ensures r.Success? ==> |r.value.responses| == |elements|
    ensures r.Success? ==> forall i | 0 <= i < |elements| :: r.value.responses[i] == elements[i].response
  {
    match Collect(elements)
    case None => Failure(InvalidArgument)
    case Some(rs) =>
      if |rs| < 2 then Failure(InvalidArgument)
      else Success(MultiResponse(rs, Dominant(Statuses(rs), rank)))
  }

  function GetHandlerResponses(m: MultiResponse): seq<HandlerResponse>
  {
    m.responses
  }

  /** True exactly when some constituent has status c. */
  predicate HasResponseWithStatus(m: MultiResponse, c: StatusCode)
  {
    FindFirst(m.responses, c).Some?
  }

  predicate IsFailure(m: MultiResponse)
  {
    m.statusCode == FAILED
  }

  predicate IsSuccess(m: MultiResponse)
  {
    m.statusCode == SUCCEEDED
  }

  function GetStatusCode(m: MultiResponse): StatusCode
  {
    m.statusCode
  }

  /** The first failure's payload when a constituent failed, otherwise the list of every constituent's payload. */
  function GetPayload(m: MultiResponse): Payload
  {
    match FindFirst(m.responses, FAILED)
    case Some(i) => m.responses[i].payload
    case None => List(Payloads(m.responses))
  }

  /** hasResponseWithStatus(c) holds exactly when some constituent has status c. */
  lemma HasResponseWithStatusMeansSomeConstituent(m: MultiResponse, c: StatusCode)
    ensures HasResponseWithStatus(m, c) <==> exists i | 0 <= i < |m.responses| :: m.responses[i].status == c
  {
    if HasResponseWithStatus(m, c) {
      var i := FindFirst(m.responses, c).value;
      assert m.responses[i].status == c;
    }
  }

  /** A built aggregate reports failure exactly when one of its constituents failed. */
  lemma FailureIffFailedConstituent(m: MultiResponse, rank: Ranking)
    requires ValidMulti(m, rank) && Admissible(rank)
    ensures IsFailure(m) <==> HasResponseWithStatus(m, FAILED)
    ensures IsFailure(m) ==> !IsSuccess(m)
  {
    var s := Statuses(m.responses);
    DominantFailedIffFailedPresent(s, rank);
    if FAILED in s {
      var i :| 0 <= i < |s| && s[i] == FAILED;
      assert m.responses[i].status == FAILED;
    }
    if HasResponseWithStatus(m, FAILED) {
      var i := FindFirst(m.responses, FAILED).value;
      assert s[i] == FAILED;
    }
  }

  /**
   * With a failed constituent: the aggregate is a failure, not a success, its
   * status is FAILED, and its payload is the payload of the first failed
   * constituent (not of any later one).
   */
  lemma FailedConstituentDecides(m: MultiResponse, rank: Ranking, k: nat)
    requires ValidMulti(m, rank) && Admissible(rank)
    requires k < |m.responses| && m.responses[k].status == FAILED
    ensures IsFailure(m) && !IsSuccess(m) && GetStatusCode(m) == FAILED
    ensures exists i | 0 <= i <= k ::
      && m.responses[i].status == FAILED
      && (forall j | 0 <= j < i :: m.responses[j].status != FAILED)
      && GetPayload(m) == m.responses[i].payload
  {
    HasResponseWithStatusMeansSomeConstituent(m, FAILED);
    FailureIffFailedConstituent(m, rank);
    var i := FindFirst(m.responses, FAILED).value;
    assert i <= k;
  }

  /**
   * Without a failed constituent: the aggregate is not a failure, its status
   * is not FAILED, and its payload is the array of all payloads, in order.
   */
  lemma NoFailedConstituentPayload(m: MultiResponse, rank: Ranking)
    requires ValidMulti(m, rank) && Admissible(rank)
    requires forall i | 0 <= i < |m.responses| :: m.responses[i].status != FAILED
    ensures !IsFailure(m) && GetStatusCode(m) != FAILED
    ensures GetPayload(m).List?
    ensures |GetPayload(m).items| == |m.responses|
    ensures forall i | 0 <= i < |m.responses| :: GetPayload(m).items[i] == m.responses[i].payload
  {
    HasResponseWithStatusMeansSomeConstituent(m, FAILED);
    FailureIffFailedConstituent(m, rank);
  }

  /*
   * The construction and query fixtures of the aggregate.
   */

  /** Two handler responses, in either order, build an aggregate that keeps them in order. */
  lemma ConstructFromTwoResponses(a: HandlerResponse, b: HandlerResponse, rank: Ranking)
    ensures Construct([Response(a), Response(b)], rank).Success?
    ensures GetHandlerResponses(Construct([Response(a), Response(b)], rank).value) == [a, b]
  {
    var r := Construct([Response(a), Response(b)], rank);
    assert r.value.responses[0] == a && r.value.responses[1] == b;
  }

  /** Any foreign element makes construction fail, wherever it stands. */
  lemma ConstructRejectsForeignElement(elements: seq<Element>, k: nat, rank: Ranking)
    requires k < |elements| && elements[k].Foreign?
    ensures Construct(elements, rank) == Failure(InvalidArgument)
  {
  }

  lemma ConstructRejectsEmpty(rank: Ranking)
    ensures Construct([], rank) == Failure(InvalidArgument)
  {
  }

  lemma ConstructRejectsSingle(a: HandlerResponse, rank: Ranking)
    ensures Construct([Response(a)], rank) == Failure(InvalidArgument)
  {
  }

  /** [FAILED, SUCCEEDED]: both codes are present, ACCEPTED is not; the status is FAILED and the payload is the failure's. */
  lemma FailedSucceededFixture(f: HandlerResponse, s: HandlerResponse, rank: Ranking)
    requires f.status == FAILED && s.status == SUCCEEDED
    requires Admissible(rank)
    ensures Construct([Response(f), Response(s)], rank).Success?
    ensures var m := Construct([Response(f), Response(s)], rank).value;
      && HasResponseWithStatus(m, FAILED)
      && HasResponseWithStatus(m, SUCCEEDED)
      && !HasResponseWithStatus(m, ACCEPTED)
      && |GetHandlerResponses(m)| == 2
      && IsFailure(m) && !IsSuccess(m)
      && GetStatusCode(m) == FAILED
      && GetPayload(m) == f.payload
  {
    var m := Construct([Response(f), Response(s)], rank).value;
    HasResponseWithStatusMeansSomeConstituent(m, FAILED);
    HasResponseWithStatusMeansSomeConstituent(m, SUCCEEDED);
    HasResponseWithStatusMeansSomeConstituent(m, ACCEPTED);
    FailedConstituentDecides(m, rank, 0);
  }

  /** [SKIPPED, SUCCEEDED]: the payload is the array of both payloads. */
  lemma SkippedSucceededPayloadFixture(a: HandlerResponse, b: HandlerResponse, rank: Ranking)
    requires a.status == SKIPPED && b.status == SUCCEEDED
    requires Admissible(rank)
    ensures Construct([Response(a), Response(b)], rank).Success?
    ensures GetPayload(Construct([Response(a), Response(b)], rank).value) == List([a.payload, b.payload])
  {
    var m := Construct([Response(a), Response(b)], rank).value;
    NoFailedConstituentPayload(m, rank);
  }

  /** [ACCEPTED, ACCEPTED, SUCCEEDED] has status ACCEPTED. */
  lemma AcceptedAcceptedSucceededFixture(a: HandlerResponse, b: HandlerResponse, c: HandlerResponse, rank: Ranking)
    requires a.status == ACCEPTED && b.status == ACCEPTED && c.status == SUCCEEDED
    requires Admissible(rank)
    ensures Construct([Response(a), Response(b), Response(c)], rank).Success?
    ensures GetStatusCode(Construct([Response(a), Response(b), Response(c)], rank).value) == ACCEPTED
  {
    var m := Construct([Response(a), Response(b), Response(c)], rank).value;
    var s := Statuses(m.responses);
    assert s[0] == ACCEPTED && s[2] == SUCCEEDED;
    forall x | x in s
      ensures x == ACCEPTED || rank(x) < rank(ACCEPTED)
    {
      var i :| 0 <= i < |s| && s[i] == x;
    }
    DominantIsTheOutrankingCode(s, rank, ACCEPTED);
  }

  /** [REFUSED, INVALID, INVALID, SUCCEEDED] has status INVALID. */
  lemma RefusedInvalidInvalidSucceededFixture(a: HandlerResponse, b: HandlerResponse, c: HandlerResponse, d: HandlerResponse, rank: Ranking)
    requires a.status == REFUSED && b.status == INVALID && c.status == INVALID && d.status == SUCCEEDED
    requires Admissible(rank)
    ensures Construct([Response(a), Response(b), Response(c), Response(d)], rank).Success?
    ensures GetStatusCode(Construct([Response(a), Response(b), Response(c), Response(d)], rank).value) == INVALID
  {
    var m := Construct([Response(a), Response(b), Response(c), Response(d)], rank).value;
    var s := Statuses(m.responses);
    assert s[0] == REFUSED && s[1] == INVALID && s[3] == SUCCEEDED;
    forall x | x in s
      ensures x == INVALID || rank(x) < rank(INVALID)
    {
      var i :| 0 <= i < |s| && s[i] == x;
    }
    DominantIsTheOutrankingCode(s, rank, INVALID);
  }

  /*
   * Every response the bus can return.
   */

  datatype BusResponse =
    | Single(handler: HandlerResponse)
    | Multi(multi: MultiResponse)
    | Unhandled(unhandledStatus: StatusCode, unhandledPayload: Payload)
    | Other(otherStatus: StatusCode, otherPayload: Payload)

  function StatusOf(r: BusResponse): StatusCode
  {
    match r
    case Single(h) => h.status
    case Multi(m) => GetStatusCode(m)
    case Unhandled(c, _) => c
    case Other(c, _) => c
  }

  function PayloadOf(r: BusResponse): Payload
  {
    match r
    case Single(h) => h.payload
    case Multi(m) => GetPayload(m)
    case Unhandled(_, p) => p
    case Other(_, p) => p
  }

}
