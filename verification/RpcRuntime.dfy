/** One request from check to answer, as `invoke_method` runs it once the request has been parsed. */
module RpcRuntime {
  import opened Prelude
  import opened Protocol
  import opened Idempotency
  import Json

  // What the idempotency check decides about a request.
  datatype Decision = Reject(error: ApiError) | Repeat(response: Stored) | Proceed(key: Option<string>)

  function MissingKey(req: Request): ApiError {
    WithContext(NewError(InvalidParams, "mutating methods require meta.idempotencyKey"), req.id, Some(req.rpc))
  }

  function KeyConflict(req: Request, key: string): ApiError {
    WithContext(NewError(IdempotencyConflict, "idempotency key was already used with different parameters"),
                req.id, Some(req.rpc))
    .(details := Some(Json.Object(map["method" := Json.Str(req.rpc), "idempotencyKey" := Json.Str(key)])))
  }

  function Decide(entries: Entries, ttl: nat, req: Request, clock: Clock): Decision {
    if !IsMutating(req.rpc) then Proceed(None)
    else
      match req.idempotencyKey
      case None => Reject(MissingKey(req))
      case Some(key) =>
        match Answer(Pruned(entries, ttl, clock), MakeKey(req.rpc, key), req.params)
        case New => Proceed(Some(key))
        case Replayed(response) => Repeat(response)
        case Conflicting => Reject(KeyConflict(req, key))
  }

  predicate Touches(req: Request) {
    IsMutating(req.rpc) && req.idempotencyKey.Some?
  }

  datatype Invocation = Invocation(entries: Entries, answer: Outcome, dispatched: bool)

  // `dispatch` is what the domains would answer; the clock is read by the pruning of the check, by the
  // pruning before storing, and for the entry.
  function Invoke(entries: Entries, ttl: nat, req: Request, dispatch: Outcome, started: Clock, ended: Clock,
                  stored: nat, meta: Json.Value): Invocation {
    var pruned := if Touches(req) then Pruned(entries, ttl, started) else entries;
    match Decide(entries, ttl, req, started)
    case Reject(error) => Invocation(pruned, Err(error), false)
    case Repeat(response) => Invocation(pruned, Replay(req, response), false)
    case Proceed(None) => Invocation(pruned, InContext(dispatch, req), true)
    case Proceed(Some(key)) =>
      var o := InContext(dispatch, req);
      Invocation(
        Pruned(pruned, ttl, ended)[MakeKey(req.rpc, key) := Entry(req.params, ToStored(req, o, meta), stored)],
        o, true)
  }

  class Runtime {
    const store: Store

    constructor (ttl: nat)
      ensures fresh(store) && store.ttl == ttl && store.entries == map[]
    {
      store := new Store(ttl);
    }

    method Begin(req: Request, clock: Clock) returns (d: Decision)
      modifies store
      ensures d == Decide(old(store.entries), store.ttl, req, clock)
      ensures store.entries == if Touches(req) then Pruned(old(store.entries), store.ttl, clock) else old(store.entries)
    {
      if !IsMutating(req.rpc) {
        return Proceed(None);
      }
      if req.idempotencyKey.None? {
        return Reject(MissingKey(req));
      }
      var key := req.idempotencyKey.value;
      var check := store.CheckKey(req.rpc, key, req.params, clock);
      match check {
        case Replayed(response) => d := Repeat(response);
        case Conflicting => d := Reject(KeyConflict(req, key));
        case New => d := Proceed(Some(key));
      }
    }

    method InvokeMethod(req: Request, dispatch: Outcome, started: Clock, ended: Clock, stored: nat, meta: Json.Value)
      returns (answer: Outcome, dispatched: bool)
      modifies store
      ensures Invocation(store.entries, answer, dispatched)
              == Invoke(old(store.entries), store.ttl, req, dispatch, started, ended, stored, meta)
    {
      var decision := Begin(req, started);
      match decision {
        case Reject(error) =>
          answer, dispatched := Err(error), false;
        case Repeat(response) =>
          answer, dispatched := Replay(req, response), false;
        case Proceed(key) =>
          answer, dispatched := InContext(dispatch, req), true;
          if key.Some? {
            store.StoreKey(req.rpc, key.value, req.params, ToStored(req, answer, meta), ended, stored);
          }
      }
    }
  }

  /** A mutating request repeated within the TTL of its answer is not dispatched again and gets that answer,
      whatever dispatch would say by then. */
  lemma RetryGetsTheSameAnswer(
    entries: Entries, ttl: nat,
    first: Request, answer: Outcome, started: Clock, ended: Clock, stored: nat, meta: Json.Value,
    again: Request, other: Outcome, retried: Clock, later: Clock, last: nat)
    requires IsMutating(first.rpc) && again.rpc == first.rpc && again.params == first.params
    requires again.idempotencyKey == first.idempotencyKey
    requires first.idempotencyKey.Some? ==>
               retried(MakeKey(first.rpc, first.idempotencyKey.value)) - stored <= ttl
    requires Invoke(entries, ttl, first, answer, started, ended, stored, meta).dispatched
    ensures var after := Invoke(entries, ttl, first, answer, started, ended, stored, meta);
            var retry := Invoke(after.entries, ttl, again, other, retried, later, last, meta);
            && !retry.dispatched
            && after.answer == InContext(answer, first)
            && retry.answer == InContext(answer, again)
  {
    ReplayIsFaithful(first, again, answer, meta);
  }

  /** The same key with other parameters is refused within the TTL, and the kept answer survives the refusal. */
  lemma ReusedKeyIsRefused(
    entries: Entries, ttl: nat,
    first: Request, answer: Outcome, started: Clock, ended: Clock, stored: nat, meta: Json.Value,
    again: Request, other: Outcome, retried: Clock, later: Clock, last: nat)
    requires IsMutating(first.rpc) && again.rpc == first.rpc && again.params != first.params
    requires again.idempotencyKey == first.idempotencyKey
    requires first.idempotencyKey.Some? ==>
               retried(MakeKey(first.rpc, first.idempotencyKey.value)) - stored <= ttl
    requires Invoke(entries, ttl, first, answer, started, ended, stored, meta).dispatched
    ensures var after := Invoke(entries, ttl, first, answer, started, ended, stored, meta);
            var retry := Invoke(after.entries, ttl, again, other, retried, later, last, meta);
            var k := MakeKey(first.rpc, first.idempotencyKey.value);
            && !retry.dispatched
            && retry.answer.Err? && retry.answer.error.code == IdempotencyConflict && retry.answer.error.status == 409
            && k in retry.entries && retry.entries[k] == after.entries[k]
  {}
}
