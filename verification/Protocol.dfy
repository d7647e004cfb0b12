/** RPC requests, errors and envelopes, and the stored form from which a request is replayed. */
module Protocol {
  import opened Prelude
  import opened Json

  // ---- Errors --------------------------------------------------------------------------------

  datatype Code =
    | InvalidRequest | MethodNotFound | InvalidParams | Unauthorized | Forbidden | NotFound | Conflict
    | PreconditionFailed | RateLimited | Timeout | ServiceUnavailable | Internal | TaskNotFound | LoopNotFound
    | PlanningSessionNotFound | CollectionNotFound | ConfigInvalid | IdempotencyConflict | BackpressureDropped

  function AsStr(c: Code): string {
    match c
    case InvalidRequest => "INVALID_REQUEST"
    case MethodNotFound => "METHOD_NOT_FOUND"
    case InvalidParams => "INVALID_PARAMS"
    case Unauthorized => "UNAUTHORIZED"
    case Forbidden => "FORBIDDEN"
    case NotFound => "NOT_FOUND"
    case Conflict => "CONFLICT"
    case PreconditionFailed => "PRECONDITION_FAILED"
    case RateLimited => "RATE_LIMITED"
    case Timeout => "TIMEOUT"
    case ServiceUnavailable => "SERVICE_UNAVAILABLE"
    case Internal => "INTERNAL"
    case TaskNotFound => "TASK_NOT_FOUND"
    case LoopNotFound => "LOOP_NOT_FOUND"
    case PlanningSessionNotFound => "PLANNING_SESSION_NOT_FOUND"
    case CollectionNotFound => "COLLECTION_NOT_FOUND"
    case ConfigInvalid => "CONFIG_INVALID"
    case IdempotencyConflict => "IDEMPOTENCY_CONFLICT"
    case BackpressureDropped => "BACKPRESSURE_DROPPED"
  }

  // The source reads a code with one match; the table is cut in three here to keep each proof small.
  function ReadRequestCode(s: string): Option<Code> {
    if s == "INVALID_REQUEST" then Some(InvalidRequest)
    else if s == "METHOD_NOT_FOUND" then Some(MethodNotFound)
    else if s == "INVALID_PARAMS" then Some(InvalidParams)
    else if s == "UNAUTHORIZED" then Some(Unauthorized)
    else if s == "FORBIDDEN" then Some(Forbidden)
    else if s == "NOT_FOUND" then Some(NotFound)
    else None
  }

  function ReadServiceCode(s: string): Option<Code> {
    if s == "CONFLICT" then Some(Conflict)
    else if s == "PRECONDITION_FAILED" then Some(PreconditionFailed)
    else if s == "RATE_LIMITED" then Some(RateLimited)
    else if s == "TIMEOUT" then Some(Timeout)
    else if s == "SERVICE_UNAVAILABLE" then Some(ServiceUnavailable)
    else if s == "INTERNAL" then Some(Internal)
    else None
  }

  function ReadDomainCode(s: string): Option<Code> {
    if s == "TASK_NOT_FOUND" then Some(TaskNotFound)
    else if s == "LOOP_NOT_FOUND" then Some(LoopNotFound)
    else if s == "PLANNING_SESSION_NOT_FOUND" then Some(PlanningSessionNotFound)
    else if s == "COLLECTION_NOT_FOUND" then Some(CollectionNotFound)
    else if s == "CONFIG_INVALID" then Some(ConfigInvalid)
    else if s == "IDEMPOTENCY_CONFLICT" then Some(IdempotencyConflict)
    else if s == "BACKPRESSURE_DROPPED" then Some(BackpressureDropped)
    else None
  }

  function FromContract(s: string): Option<Code> {
    if ReadRequestCode(s).Some? then ReadRequestCode(s)
    else if ReadServiceCode(s).Some? then ReadServiceCode(s)
    else ReadDomainCode(s)
  }

  // Length and first letter tell the printed codes apart.
  function Shape(c: Code): (nat, char) {
    match c
    case InvalidRequest => (15, 'I')
    case MethodNotFound => (16, 'M')
    case InvalidParams => (14, 'I')
    case Unauthorized => (12, 'U')
    case Forbidden => (9, 'F')
    case NotFound => (9, 'N')
    case Conflict => (8, 'C')
    case PreconditionFailed => (19, 'P')
    case RateLimited => (12, 'R')
    case Timeout => (7, 'T')
    case ServiceUnavailable => (19, 'S')
    case Internal => (8, 'I')
    case TaskNotFound => (14, 'T')
    case LoopNotFound => (14, 'L')
    case PlanningSessionNotFound => (26, 'P')
    case CollectionNotFound => (20, 'C')
    case ConfigInvalid => (14, 'C')
    case IdempotencyConflict => (20, 'I')
    case BackpressureDropped => (20, 'B')
  }

  lemma ShapeOfPrinted(c: Code)
    ensures |AsStr(c)| == Shape(c).0 && AsStr(c)[0] == Shape(c).1
  {}

  lemma PrintedCodesDiffer(a: Code, b: Code)
    requires AsStr(a) == AsStr(b)
    ensures a == b
  {
    ShapeOfPrinted(a);
    ShapeOfPrinted(b);
  }

  lemma ReadRequestIsPrinted(s: string)
    ensures ReadRequestCode(s).Some? ==> s == AsStr(ReadRequestCode(s).value)
  {}

  lemma ReadServiceIsPrinted(s: string)
    ensures ReadServiceCode(s).Some? ==> s == AsStr(ReadServiceCode(s).value)
  {}

  lemma ReadDomainIsPrinted(s: string)
    ensures ReadDomainCode(s).Some? ==> s == AsStr(ReadDomainCode(s).value)
  {}

  lemma PrintedIsRead(s: string, c: Code)
    requires s == AsStr(c)
    ensures FromContract(s).Some?
  {}

  /** Printing a code and reading it back are inverse to each other. */
  lemma CodeRoundTrip(c: Code, s: string)
    ensures FromContract(s) == Some(c) <==> s == AsStr(c)
  {
    ReadRequestIsPrinted(s);
    ReadServiceIsPrinted(s);
    ReadDomainIsPrinted(s);
    if s == AsStr(c) {
      PrintedIsRead(s, c);
      PrintedCodesDiffer(FromContract(s).value, c);
    }
  }

  // What `http::StatusCode` can hold.
  type Status = n: int | 100 <= n < 1000 witness 200

  function StatusFor(c: Code): Status {
    match c
    case InvalidRequest | InvalidParams | ConfigInvalid => 400
    case Unauthorized => 401
    case Forbidden => 403
    case MethodNotFound | NotFound | TaskNotFound | LoopNotFound | PlanningSessionNotFound | CollectionNotFound => 404
    case Timeout => 408
    case Conflict | IdempotencyConflict => 409
    case PreconditionFailed => 412
    case RateLimited => 429
    case Internal => 500
    case ServiceUnavailable | BackpressureDropped => 503
  }

  datatype ApiError = ApiError(
    code: Code, message: string, retryable: bool, details: Option<Value>, status: Status,
    requestId: string, rpc: Option<string>)

  function NewError(code: Code, message: string): ApiError {
    ApiError(code, message,
             code.RateLimited? || code.Timeout? || code.ServiceUnavailable? || code.BackpressureDropped?,
             None, StatusFor(code), "unknown", None)
  }

  function WithContext(e: ApiError, requestId: string, rpc: Option<string>): ApiError {
    e.(requestId := requestId, rpc := rpc)
  }

  // ---- Envelopes -----------------------------------------------------------------------------

  datatype Request = Request(id: string, rpc: string, params: Value, idempotencyKey: Option<string>)

  function Meta(servedBy: string, servedAt: string): Value {
    Object(map["servedBy" := Str(servedBy), "servedAt" := Str(servedAt)])
  }

  function ErrorBody(e: ApiError): Value {
    Object(map["code" := Str(AsStr(e.code)), "message" := Str(e.message), "retryable" := Bool(e.retryable)]
           + if e.details.Some? then map["details" := e.details.value] else map[])
  }

  function SuccessEnvelope(req: Request, result: Value, meta: Value): Value {
    Object(map["apiVersion" := Str("v1"), "id" := Str(req.id), "method" := Str(req.rpc),
               "result" := result, "meta" := meta])
  }

  // The fields that do not depend on when and for whom the error is told.
  function LastingFields(body: Value, rpc: Option<string>): map<string, Value> {
    var fields := map["apiVersion" := Str("v1"), "error" := body];
    if rpc.Some? then fields["method" := Str(rpc.value)] else fields
  }

  function ErrorFields(id: Value, body: Value, rpc: Option<string>, meta: Value): map<string, Value> {
    LastingFields(body, rpc)["id" := id]["meta" := meta]
  }

  function ErrorEnvelope(e: ApiError, meta: Value): Value {
    Object(ErrorFields(Str(e.requestId), ErrorBody(e), e.rpc, meta))
  }

  // ---- Execution, storage and replay ---------------------------------------------------------

  // What `dispatch` answered; errors get the request's context before anything else happens.
  type Outcome = Result<Value, ApiError>

  function InContext(o: Outcome, req: Request): Outcome {
    match o
    case Ok(v) => Ok(v)
    case Err(e) => Err(WithContext(e, req.id, Some(req.rpc)))
  }

  type Word16 = n: int | 0 <= n < 65536
  datatype Stored = Stored(status: Word16, envelope: Value)

  function ToStored(req: Request, o: Outcome, meta: Value): Stored {
    match o
    case Ok(v) => Stored(200, SuccessEnvelope(req, v, meta))
    case Err(e) => Stored(e.status, ErrorEnvelope(e, meta))
  }

  function StatusOr(status: Word16, default: Status): Status {
    if 100 <= status < 1000 then status else default
  }

  function ReplayError(req: Request, status: Word16, body: Value): ApiError {
    var code := match body.GetStr("code")
      case Some(s) => FromContract(s).GetOr(Internal)
      case None => Internal;
    var e := WithContext(NewError(code, body.GetStr("message").GetOr("stored idempotency replay failed")),
                         req.id, Some(req.rpc));
    e.(retryable := body.GetBool("retryable").GetOr(false),
       details := body.Get("details"),
       status := StatusOr(status, e.status))
  }

  function Replay(req: Request, stored: Stored): Outcome {
    match stored.envelope.Get("result")
    case Some(v) => Ok(v)
    case None =>
      match stored.envelope.Get("error")
      case Some(Object(body)) => Err(ReplayError(req, stored.status, Object(body)))
      case _ =>
        Err(WithContext(NewError(Internal, "stored idempotency response was missing an error payload"),
                        req.id, Some(req.rpc)))
  }

  lemma ErrorEnvelopeReads(e: ApiError, meta: Value)
    ensures ErrorEnvelope(e, meta).Get("result") == None
    ensures ErrorEnvelope(e, meta).Get("error") == Some(ErrorBody(e))
  {}

  lemma ErrorBodyReads(e: ApiError)
    ensures var body := ErrorBody(e);
            && body.GetStr("code") == Some(AsStr(e.code)) && body.GetStr("message") == Some(e.message)
            && body.GetBool("retryable") == Some(e.retryable) && body.Get("details") == e.details
  {}

  lemma ReplayErrorReads(req: Request, e: ApiError)
    ensures ReplayError(req, e.status, ErrorBody(e)) == WithContext(e, req.id, Some(req.rpc))
  {
    CodeRoundTrip(e.code, AsStr(e.code));
    ErrorBodyReads(e);
  }

  lemma SuccessReads(req: Request, v: Value, meta: Value)
    ensures SuccessEnvelope(req, v, meta).Get("result") == Some(v)
  {}

  lemma ReplayOfSuccess(first: Request, again: Request, v: Value, meta: Value)
    ensures Replay(again, Stored(200, SuccessEnvelope(first, v, meta))) == Ok(v)
  {
    SuccessReads(first, v, meta);
  }

  lemma ReplayOfError(again: Request, e: ApiError, meta: Value)
    ensures Replay(again, Stored(e.status, ErrorEnvelope(e, meta))) == Err(WithContext(e, again.id, Some(again.rpc)))
  {
    ErrorEnvelopeReads(e, meta);
    ReplayErrorReads(again, e);
  }

  /** Whatever dispatch answered, the replay answers the same: the value on success; on error the same code,
      message, retryability, details, status and method. Only the id is the replaying request's own. */
  lemma ReplayIsFaithful(first: Request, again: Request, answer: Outcome, meta: Value)
    requires first.rpc == again.rpc
    ensures Replay(again, ToStored(first, InContext(answer, first), meta)) == InContext(answer, again)
  {
    match answer {
      case Ok(v) => ReplayOfSuccess(first, again, v, meta);
      case Err(e) => ReplayOfError(again, WithContext(e, first.id, Some(first.rpc)), meta);
    }
  }

  // The HTTP side answers a fresh call with an envelope of its own and a replay with the stored one.
  function HttpFresh(req: Request, o: Outcome, meta: Value): (Status, Value) {
    match o
    case Ok(v) => (200, SuccessEnvelope(req, v, meta))
    case Err(e) => (e.status, ErrorEnvelope(e, meta))
  }

  function HttpReplay(stored: Stored): (Status, Value) {
    (StatusOr(stored.status, 200), stored.envelope)
  }

  // Whom the answer says it answers.
  function AnsweredId(body: Value): Option<string> {
    body.GetStr("id")
  }

  // Two bodies that differ in id and time stamp at most.
  predicate SameButFor(a: Value, aId: string, b: Value, bId: string) {
    && a.Object? && b.Object? && a.fields.Keys == b.fields.Keys
    && a.fields - {"meta", "id"} == b.fields - {"meta", "id"}
    && AnsweredId(a) == Some(aId) && AnsweredId(b) == Some(bId)
  }

  lemma ReplacedFields(a: map<string, Value>, b: map<string, Value>, id: Value, meta: Value)
    requires "id" in b && "meta" in b && a == b["id" := id]["meta" := meta]
    ensures a.Keys == b.Keys && a - {"meta", "id"} == b - {"meta", "id"}
  {}

  lemma SuccessesDiffer(first: Request, again: Request, v: Value, stored: Value, sent: Value)
    requires first.rpc == again.rpc
    ensures SameButFor(SuccessEnvelope(again, v, sent), again.id, SuccessEnvelope(first, v, stored), first.id)
  {
    var a, b := SuccessEnvelope(again, v, sent).fields, SuccessEnvelope(first, v, stored).fields;
    assert a == b["id" := Str(again.id)]["meta" := sent];
    ReplacedFields(a, b, Str(again.id), sent);
  }

  lemma Overwritten(m: map<string, Value>, id: Value, meta: Value, other: Value, sent: Value)
    ensures var b := m["id" := id]["meta" := meta];
            && "id" in b && "meta" in b && b["id"] == id
            && m["id" := other]["meta" := sent] == b["id" := other]["meta" := sent]
  {}

  lemma ErrorsDiffer(id: string, stored: Value, body: Value, rpc: Option<string>, other: string, sent: Value)
    ensures SameButFor(Object(ErrorFields(Str(other), body, rpc, sent)), other,
                       Object(ErrorFields(Str(id), body, rpc, stored)), id)
  {
    Overwritten(LastingFields(body, rpc), Str(id), stored, Str(other), sent);
    ReplacedFields(ErrorFields(Str(other), body, rpc, sent), ErrorFields(Str(id), body, rpc, stored), Str(other), sent);
  }

  /** Over HTTP a retry gets the status and body a fresh call would get, but for the time stamp in `meta` and the id:
      it is answered with the first request's id, so it finds its own exactly when the two ids are the same. */
  lemma HttpReplayIsFaithful(first: Request, again: Request, answer: Outcome, servedBy: string, storedAt: string,
                             sentAt: string)
    requires first.rpc == again.rpc
    ensures var (freshStatus, freshBody) := HttpFresh(again, InContext(answer, again), Meta(servedBy, sentAt));
            var (status, body) := HttpReplay(ToStored(first, InContext(answer, first), Meta(servedBy, storedAt)));
            && status == freshStatus
            && SameButFor(freshBody, again.id, body, first.id)
            && (AnsweredId(body) == Some(again.id) <==> again.id == first.id)
  {
    var stored, sent := Meta(servedBy, storedAt), Meta(servedBy, sentAt);
    match answer {
      case Ok(v) => SuccessesDiffer(first, again, v, stored, sent);
      case Err(e) =>
        ErrorsDiffer(first.id, stored, ErrorBody(e), Some(first.rpc), again.id, sent);
    }
  }

  // ---- Methods -------------------------------------------------------------------------------

  const TASK_METHODS: seq<string> := [
    "task.create", "task.update", "task.close", "task.archive", "task.unarchive", "task.delete", "task.clear",
    "task.run", "task.run_all", "task.retry", "task.cancel"]

  const LOOP_METHODS: seq<string> := [
    "loop.process", "loop.prune", "loop.retry", "loop.discard", "loop.stop", "loop.merge",
    "loop.trigger_merge_task"]

  const OTHER_METHODS: seq<string> := [
    "planning.start", "planning.respond", "planning.resume", "planning.delete", "config.update",
    "collection.create", "collection.update", "collection.delete", "collection.import"]

  predicate IsMutating(rpc: string) {
    rpc in TASK_METHODS || rpc in LOOP_METHODS || rpc in OTHER_METHODS
  }

  lemma TaskMethodsHaveNoColon(rpc: string)
    requires rpc in TASK_METHODS
    ensures ':' !in rpc
  {}

  lemma LoopMethodsHaveNoColon(rpc: string)
    requires rpc in LOOP_METHODS
    ensures ':' !in rpc
  {}

  lemma OtherMethodsHaveNoColon(rpc: string)
    requires rpc in OTHER_METHODS
    ensures ':' !in rpc
  {}

  lemma MutatingMethodsHaveNoColon(rpc: string)
    requires IsMutating(rpc)
    ensures ':' !in rpc
  {
    if rpc in TASK_METHODS {
      TaskMethodsHaveNoColon(rpc);
    } else if rpc in LOOP_METHODS {
      LoopMethodsHaveNoColon(rpc);
    } else {
      OtherMethodsHaveNoColon(rpc);
    }
  }
}
