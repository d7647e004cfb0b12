/** The wire contract of errors and envelopes, and what one request does. */
module ProtocolLaws {
  import opened Prelude
  import opened Json
  import opened Protocol
  import opened Idempotency
  import opened RpcRuntime

  // ---- Errors --------------------------------------------------------------------------------

  // HTTP status and default retryability of every code.
  const BAD_REQUEST: set<Code> := {InvalidRequest, InvalidParams, ConfigInvalid}
  const MISSING: set<Code> := {
    MethodNotFound, NotFound, TaskNotFound, LoopNotFound, PlanningSessionNotFound, CollectionNotFound}
  const CONFLICTING: set<Code> := {Conflict, IdempotencyConflict}
  const UNAVAILABLE: set<Code> := {ServiceUnavailable, BackpressureDropped}

  /** A new error bears the status of its code and no details; it is retryable exactly for the codes that say to come
      back: too many requests, timeouts and unavailable services. */
  lemma NewErrorsSay(code: Code, message: string)
    ensures var e := NewError(code, message);
            && e.code == code && e.message == message && e.details == None && e.requestId == "unknown" && e.rpc == None
            && (e.status == 400 <==> code in BAD_REQUEST) && (e.status == 401 <==> code == Unauthorized)
            && (e.status == 403 <==> code == Forbidden) && (e.status == 404 <==> code in MISSING)
            && (e.status == 408 <==> code == Timeout) && (e.status == 409 <==> code in CONFLICTING)
            && (e.status == 412 <==> code == PreconditionFailed) && (e.status == 429 <==> code == RateLimited)
            && (e.status == 500 <==> code == Internal) && (e.status == 503 <==> code in UNAVAILABLE)
            && (e.retryable <==> e.status == 408 || e.status == 429 || e.status == 503)
  {}

  // The value of a field.
  predicate Says(v: Value, key: string, field: Value) {
    v.Object? && key in v.fields && v.fields[key] == field
  }

  predicate IsSilent(v: Value, key: string) {
    v.Object? && key !in v.fields
  }

  /** A success names its request and holds the result and no error. */
  lemma SuccessSays(req: Request, result: Value, meta: Value)
    ensures var v := SuccessEnvelope(req, result, meta);
            && Says(v, "apiVersion", Str("v1")) && Says(v, "id", Str(req.id)) && Says(v, "method", Str(req.rpc))
            && Says(v, "result", result) && Says(v, "meta", meta) && IsSilent(v, "error")
  {}

  /** An error names its request and, if known, the method; it holds the error and no result. */
  lemma ErrorSays(e: ApiError, meta: Value)
    ensures var v := ErrorEnvelope(e, meta);
            && Says(v, "apiVersion", Str("v1")) && Says(v, "id", Str(e.requestId)) && Says(v, "meta", meta)
            && IsSilent(v, "result") && Says(v, "error", ErrorBody(e))
            && (e.rpc.Some? ==> Says(v, "method", Str(e.rpc.value))) && (e.rpc.None? ==> IsSilent(v, "method"))
  {}

  /** The error is told by code, message, retryability and, if there are any, details. */
  lemma ErrorBodySays(e: ApiError)
    ensures var v := ErrorBody(e);
            && Says(v, "code", Str(AsStr(e.code))) && Says(v, "message", Str(e.message))
            && Says(v, "retryable", Bool(e.retryable))
            && (e.details.Some? ==> Says(v, "details", e.details.value))
            && (e.details.None? ==> IsSilent(v, "details"))
  {}

  // ---- One request ---------------------------------------------------------------------------

  // The answer of a request is what dispatch said, an error under the request's own name.
  predicate Answers(req: Request, said: Outcome, answer: Outcome) {
    match said
    case Ok(v) => answer == Ok(v)
    case Err(e) =>
      && answer.Err? && answer.error.requestId == req.id && answer.error.rpc == Some(req.rpc)
      && answer.error.code == e.code && answer.error.message == e.message && answer.error.retryable == e.retryable
      && answer.error.details == e.details && answer.error.status == e.status
  }

  /** A request that changes nothing is dispatched and leaves the store alone, whatever key it brings. */
  lemma ReadsPassThrough(entries: Entries, ttl: nat, req: Request, said: Outcome, started: Clock, ended: Clock,
                         stored: nat, meta: Value)
    requires !IsMutating(req.rpc)
    ensures var i := Invoke(entries, ttl, req, said, started, ended, stored, meta);
            i.dispatched && i.entries == entries && Answers(req, said, i.answer)
  {}

  /** A mutating request without a key is refused as invalid, undispatched, and leaves the store alone. */
  lemma KeylessIsRefused(entries: Entries, ttl: nat, req: Request, said: Outcome, started: Clock, ended: Clock,
                         stored: nat, meta: Value)
    requires IsMutating(req.rpc) && req.idempotencyKey.None?
    ensures var i := Invoke(entries, ttl, req, said, started, ended, stored, meta);
            && !i.dispatched && i.entries == entries
            && i.answer.Err? && i.answer.error.code == InvalidParams && i.answer.error.status == 400
            && i.answer.error.requestId == req.id && i.answer.error.rpc == Some(req.rpc)
  {}

  /** A mutating request whose key is not held, or no longer, is dispatched, and its answer is kept with its parameters
      and the time. */
  lemma FirstIsKept(entries: Entries, ttl: nat, req: Request, said: Outcome, started: Clock, ended: Clock, stored: nat,
                    meta: Value, key: string)
    requires IsMutating(req.rpc) && req.idempotencyKey.Some? && key == req.rpc + ":" + req.idempotencyKey.value
    requires key in entries ==> started(key) - entries[key].createdAt > ttl
    ensures var i := Invoke(entries, ttl, req, said, started, ended, stored, meta);
            && i.dispatched && Answers(req, said, i.answer)
            && key in i.entries && i.entries[key].params == req.params && i.entries[key].createdAt == stored
            && i.entries[key].response.status == (match i.answer case Ok(_) => 200 case Err(e) => e.status)
            && (forall k :: k in i.entries && k != key ==>
                  k in entries && started(k) - entries[k].createdAt <= ttl && ended(k) - entries[k].createdAt <= ttl)
  {}

  /** A key held with other parameters is a conflict, undispatched, that names the method and the key. */
  lemma OthersConflict(entries: Entries, ttl: nat, req: Request, said: Outcome, started: Clock, ended: Clock,
                       stored: nat, meta: Value, key: string)
    requires IsMutating(req.rpc) && req.idempotencyKey.Some? && key == req.rpc + ":" + req.idempotencyKey.value
    requires key in entries && started(key) - entries[key].createdAt <= ttl && entries[key].params != req.params
    ensures var i := Invoke(entries, ttl, req, said, started, ended, stored, meta);
            && !i.dispatched && i.answer.Err?
            && var e := i.answer.error;
            && e.code == IdempotencyConflict && e.status == 409 && !e.retryable
            && e.requestId == req.id && e.rpc == Some(req.rpc) && e.details.Some?
            && Says(e.details.value, "method", Str(req.rpc))
            && Says(e.details.value, "idempotencyKey", Str(req.idempotencyKey.value))
  {}

  // ---- Replies nothing was stored for --------------------------------------------------------

  predicate IsInternal(req: Request, answer: Outcome) {
    && answer.Err? && answer.error.code == Internal && !answer.error.retryable && answer.error.details == None
    && answer.error.requestId == req.id && answer.error.rpc == Some(req.rpc)
  }

  /** A stored reply with neither result nor error is an internal error. */
  lemma EmptyIsInternal(req: Request, status: Word16, fields: map<string, Value>)
    requires "result" !in fields && ("error" in fields ==> !fields["error"].Object?)
    ensures var answer := Replay(req, Stored(status, Object(fields)));
            IsInternal(req, answer) && answer.error.status == 500
  {}

  /** A stored error that says nothing is an internal one too, under the stored status if that can be one. */
  lemma SilentIsInternal(req: Request, status: Word16, body: Value)
    requires body == Object(map[])
    ensures var e := ReplayError(req, status, body);
            IsInternal(req, Err(e)) && e.status == if 100 <= status < 1000 then status else 500
  {}

  /** Over HTTP a stored status that is none is answered with 200. */
  lemma HttpStatusIs(status: Word16, envelope: Value)
    ensures HttpReplay(Stored(status, envelope)).0 == if 100 <= status < 1000 then status else 200
  {}
}
