/** What each operation leaves in the task store, field by field. */
module TaskLaws {
  import opened Prelude
  import opened TaskRecords
  import opened TaskDomain
  import opened QueueIds

  // Nothing but the record under `id` differs.
  predicate OnlyAt(d: Domain, after: Domain, id: string) {
    && id in after.tasks && after.tasks.Keys == d.tasks.Keys + {id}
    && forall k :: k in d.tasks && k != id ==> after.tasks[k] == d.tasks[k]
  }

  // The call reports the value, unless saving fails.
  predicate Reports<T(==)>(result: Result<T, Error>, env: Env, value: T) {
    result == if env.disk then Ok(value) else Err(PersistFailed)
  }

  // The given priority, brought into 1 to 5; 2 if none is given.
  predicate IsPriority(x: int, given: Option<Word8>) {
    && 1 <= x <= 5
    && match given
       case None => x == 2
       case Some(n) => (1 <= n <= 5 ==> x == n) && (n == 0 ==> x == 1) && (5 < n ==> x == 5)
  }

  // The number after the counter's, or the last there is.
  predicate IsNext(n: Word64, counter: Word64) {
    n == if counter == 0xFFFF_FFFF_FFFF_FFFF then counter else counter + 1
  }

  // ---- Create --------------------------------------------------------------------------------

  predicate WantsQueue(p: CreateParams) {
    p.autoExecute == None || p.autoExecute == Some(true)
  }

  predicate GivenStatus(p: CreateParams, s: Status) {
    match p.status
    case None => s == Open
    case Some(t) => s == t
  }

  // The record as it is written before anything is queued.
  predicate IsNew(t: Task, p: CreateParams) {
    && t.id == p.id && t.title == p.title && t.blockedBy == p.blockedBy && t.mergeLoopPrompt == p.mergeLoopPrompt
    && IsPriority(t.priority, p.priority) && t.archivedAt == None && t.errorMessage == None
  }

  // In the queue under the next number, since `now`.
  predicate IsQueuedAs(d: Domain, after: Domain, t: Task, millis: int, now: string) {
    && t.status == Pending && t.queuedTaskId == Some(QueueId(millis, after.counter)) && IsNext(after.counter, d.counter)
    && t.completedAt == None && t.errorMessage == None && t.updatedAt == now
  }

  /** A known id, and automatic queueing of a task that is not open, are refused, in this order, and change nothing. */
  lemma CreateRefuses(d: Domain, p: CreateParams, env: Env, status: Status)
    requires GivenStatus(p, status)
    ensures p.id in d.tasks ==> Create(d, p, env) == Answer(d, Err(AlreadyExists(p.id)))
    ensures p.id !in d.tasks && WantsQueue(p) && status != Open ==>
              Create(d, p, env) == Answer(d, Err(AutoExecuteNotOpen(p.id, status)))
  {}

  // A record that is not queued at its creation.
  predicate IsKept(d: Domain, after: Domain, t: Task, status: Status, now: string) {
    && t.status == status && t.queuedTaskId == None && after.counter == d.counter && t.updatedAt == now
    && t.completedAt == if status == Closed || status == Failed then Some(now) else None
  }

  // One record more, as given.
  predicate AddsNew(d: Domain, p: CreateParams, env: Env, a: Answer<Task>) {
    && OnlyAt(d, a.domain, p.id) && IsNew(a.domain.tasks[p.id], p) && a.domain.tasks[p.id].createdAt == env.now
    && Reports(a.result, env, a.domain.tasks[p.id])
  }

  lemma WrittenFirst(p: CreateParams, now: string, status: Status)
    requires GivenStatus(p, status)
    ensures var t := NewTask(p, now);
            && IsNew(t, p) && t.createdAt == now && t.updatedAt == now && t.status == status && t.queuedTaskId == None
            && t.completedAt == if status == Closed || status == Failed then Some(now) else None
  {}

  lemma CreateQueues(d: Domain, p: CreateParams, env: Env, a: Answer<Task>)
    requires GivenStatus(p, Open) && p.id !in d.tasks && WantsQueue(p) && p.blockedBy == None && a == Create(d, p, env)
    ensures AddsNew(d, p, env, a) && IsQueuedAs(d, a.domain, a.domain.tasks[p.id], env.millis, env.later)
  {
    var written := Put(d, p.id, NewTask(p, env.now));
    WrittenFirst(p, env.now, Open);
    RunQueues(written, p.id, AtQueueing(env));
  }

  lemma CreateKeeps(d: Domain, p: CreateParams, env: Env, status: Status, a: Answer<Task>)
    requires GivenStatus(p, status) && p.id !in d.tasks && (WantsQueue(p) ==> status == Open && p.blockedBy != None)
    requires a == Create(d, p, env)
    ensures AddsNew(d, p, env, a) && IsKept(d, a.domain, a.domain.tasks[p.id], status, env.now)
  {
    WrittenFirst(p, env.now, status);
  }

  /** Any other create adds exactly one record with the given fields. It is queued exactly if that is wanted and nothing
      blocks it; otherwise it keeps its status and the counter stays. */
  lemma CreateAdds(d: Domain, p: CreateParams, env: Env, status: Status, a: Answer<Task>)
    requires GivenStatus(p, status) && p.id !in d.tasks && (WantsQueue(p) ==> status == Open)
    requires a == Create(d, p, env)
    ensures AddsNew(d, p, env, a)
    ensures var t := a.domain.tasks[p.id];
            if WantsQueue(p) && p.blockedBy == None then IsQueuedAs(d, a.domain, t, env.millis, env.later)
            else IsKept(d, a.domain, t, status, env.now)
  {
    if WantsQueue(p) && p.blockedBy == None {
      CreateQueues(d, p, env, a);
    } else {
      CreateKeeps(d, p, env, status, a);
    }
  }

  // ---- Update and close ----------------------------------------------------------------------

  // A record that moved to a status: finished ones bear the time, queue ids stay with pending and running ones, error
  // messages with failed ones.
  predicate MovedTo(t: Task, was: Task, status: Status, now: string) {
    && t.status == status
    && t.completedAt == (if status == Closed || status == Failed then Some(now) else None)
    && t.queuedTaskId == (if status == Pending || status == Running then was.queuedTaskId else None)
    && t.errorMessage == (if status == Failed then was.errorMessage else None)
  }

  predicate SameStatus(t: Task, was: Task) {
    && t.status == was.status && t.completedAt == was.completedAt && t.queuedTaskId == was.queuedTaskId
    && t.errorMessage == was.errorMessage
  }

  // What no call changes.
  predicate SameOrigin(t: Task, was: Task) {
    && t.id == was.id && t.mergeLoopPrompt == was.mergeLoopPrompt && t.createdAt == was.createdAt
  }

  predicate SameText(t: Task, was: Task) {
    t.title == was.title && t.priority == was.priority && t.blockedBy == was.blockedBy
  }

  /** An update of a missing task is refused. Any other sets exactly the given fields and the time. */
  lemma UpdateSets(d: Domain, u: UpdateInput, env: Env)
    ensures u.id !in d.tasks ==> Update(d, u, env) == Answer(d, Err(NotFound(u.id)))
    ensures u.id in d.tasks ==>
              var after := Update(d, u, env).domain;
              && OnlyAt(d, after, u.id) && after.counter == d.counter
              && var t, was := after.tasks[u.id], d.tasks[u.id];
              && Reports(Update(d, u, env).result, env, t)
              && SameOrigin(t, was) && t.archivedAt == was.archivedAt && t.updatedAt == env.now
              && t.title == (if u.title.Some? then u.title.value else was.title)
              && t.blockedBy == (if u.blockedBy.Some? then u.blockedBy.value else was.blockedBy)
              && (if u.priority.Some? then IsPriority(t.priority, u.priority) else t.priority == was.priority)
              && (if u.status.Some? then MovedTo(t, was, u.status.value, env.now) else SameStatus(t, was))
  {}

  /** Closing moves the task to closed and changes nothing else but the time. */
  lemma CloseSets(d: Domain, id: string, env: Env)
    ensures id !in d.tasks ==> Close(d, id, env) == Answer(d, Err(NotFound(id)))
    ensures id in d.tasks ==>
              var after := Close(d, id, env).domain;
              && OnlyAt(d, after, id) && after.counter == d.counter
              && var t, was := after.tasks[id], d.tasks[id];
              && Reports(Close(d, id, env).result, env, t)
              && SameOrigin(t, was) && SameText(t, was) && t.archivedAt == was.archivedAt
              && MovedTo(t, was, Closed, env.now) && t.updatedAt == env.now
  {
    if id in d.tasks {
      var t := SetStatus(d.tasks[id], Closed, env.now).(updatedAt := env.now);
      assert Close(d, id, env) == Saved(Put(d, id, t), t, env.disk);
    }
  }

  // ---- Archive, delete, clear ----------------------------------------------------------------

  /** Archiving notes its time, at an earlier clock reading than the update; unarchiving takes the note away. Neither
      changes anything else. */
  lemma ArchiveMarks(d: Domain, id: string, env: Env)
    ensures id !in d.tasks ==> Archive(d, id, env) == Unarchive(d, id, env) == Answer(d, Err(NotFound(id)))
    ensures id in d.tasks ==>
              var marked, unmarked := Archive(d, id, env), Unarchive(d, id, env);
              && OnlyAt(d, marked.domain, id) && OnlyAt(d, unmarked.domain, id)
              && marked.domain.counter == unmarked.domain.counter == d.counter
              && var was, a, b := d.tasks[id], marked.domain.tasks[id], unmarked.domain.tasks[id];
              && Reports(marked.result, env, a) && Reports(unmarked.result, env, b)
              && SameOrigin(a, was) && SameText(a, was) && SameStatus(a, was)
              && SameOrigin(b, was) && SameText(b, was) && SameStatus(b, was)
              && a.archivedAt == Some(env.now) && a.updatedAt == env.later
              && b.archivedAt == None && b.updatedAt == env.now
  {}

  /** Only closed and failed tasks are deleted, and only the one asked for; clearing deletes all. The counter stays. */
  lemma DeleteRemoves(d: Domain, id: string, env: Env)
    ensures id !in d.tasks ==> Delete(d, id, env) == Answer(d, Err(NotFound(id)))
    ensures id in d.tasks && d.tasks[id].status != Closed && d.tasks[id].status != Failed ==>
              Delete(d, id, env) == Answer(d, Err(CannotDelete(id, d.tasks[id].status)))
    ensures id in d.tasks && (d.tasks[id].status == Closed || d.tasks[id].status == Failed) ==>
              var after := Delete(d, id, env).domain;
              && Reports(Delete(d, id, env).result, env, ()) && after.counter == d.counter
              && (forall k :: k in after.tasks <==> k in d.tasks && k != id)
              && (forall k :: k in after.tasks ==> after.tasks[k] == d.tasks[k])
    ensures Reports(Clear(d, env).result, env, ())
            && Clear(d, env).domain.tasks == map[] && Clear(d, env).domain.counter == d.counter
  {}

  // ---- Queue, retry, cancel ------------------------------------------------------------------

  /** Running draws the next number first. A missing, archived, pending or running task is then refused; any other is
      queued under that number and told. */
  lemma RunQueues(d: Domain, id: string, env: Env)
    ensures IsNext(Run(d, id, env).domain.counter, d.counter)
    ensures id !in d.tasks ==> Run(d, id, env).domain.tasks == d.tasks && Run(d, id, env).result == Err(NotFound(id))
    ensures id in d.tasks && d.tasks[id].archivedAt.Some? ==>
              Run(d, id, env).domain.tasks == d.tasks && Run(d, id, env).result == Err(IsArchived(id))
    ensures id in d.tasks && d.tasks[id].archivedAt.None?
            && (d.tasks[id].status == Pending || d.tasks[id].status == Running) ==>
              && Run(d, id, env).domain.tasks == d.tasks
              && Run(d, id, env).result == Err(AlreadyQueued(id, d.tasks[id].status))
    ensures id in d.tasks && d.tasks[id].archivedAt.None?
            && d.tasks[id].status != Pending && d.tasks[id].status != Running ==>
              var after := Run(d, id, env).domain;
              && OnlyAt(d, after, id)
              && var t, was := after.tasks[id], d.tasks[id];
              && IsQueuedAs(d, after, t, env.millis, env.now) && SameOrigin(t, was) && SameText(t, was)
              && t.archivedAt == None
              && Reports(Run(d, id, env).result, env, RunResult(QueueId(env.millis, after.counter), t))
  {}

  lemma RetryRefuses(d: Domain, id: string, env: Env)
    ensures id !in d.tasks ==> Retry(d, id, env) == Answer(d, Err(NotFound(id)))
    ensures id in d.tasks && d.tasks[id].status != Failed ==>
              Retry(d, id, env) == Answer(d, Err(NotFailed(id, d.tasks[id].status)))
  {}

  lemma ReopenedIs(was: Task, now: string)
    ensures var t := Reopened(was, now);
            && SameOrigin(t, was) && SameText(t, was) && t.archivedAt == was.archivedAt
            && MovedTo(t, was, Open, now) && t.updatedAt == now
  {}

  /** Only failed tasks are retried: queued anew, at a later clock reading, or, if archived, left open and refused. */
  lemma RetryRequeues(d: Domain, id: string, env: Env, a: Answer<RunResult>)
    requires a == Retry(d, id, env)
    ensures id !in d.tasks ==> a == Answer(d, Err(NotFound(id)))
    ensures id in d.tasks && d.tasks[id].status != Failed ==> a == Answer(d, Err(NotFailed(id, d.tasks[id].status)))
    ensures id in d.tasks && d.tasks[id].status == Failed ==>
              && OnlyAt(d, a.domain, id) && IsNext(a.domain.counter, d.counter)
              && var t, was := a.domain.tasks[id], d.tasks[id];
              && SameOrigin(t, was) && SameText(t, was) && t.archivedAt == was.archivedAt
              && if was.archivedAt == None then
                   && IsQueuedAs(d, a.domain, t, env.millis, env.later)
                   && Reports(a.result, env, RunResult(QueueId(env.millis, a.domain.counter), t))
                 else MovedTo(t, was, Open, env.now) && t.updatedAt == env.now && a.result == Err(IsArchived(id))
  {
    RetryRefuses(d, id, env);
    if id in d.tasks && d.tasks[id].status == Failed {
      var reopened := Put(d, id, Reopened(d.tasks[id], env.now));
      ReopenedIs(d.tasks[id], env.now);
      RunQueues(reopened, id, AtQueueing(env));
    }
  }

  /** Only pending and running tasks are cancelled: they fail, with a message. */
  lemma CancelFails(d: Domain, id: string, env: Env)
    ensures id !in d.tasks ==> Cancel(d, id, env) == Answer(d, Err(NotFound(id)))
    ensures id in d.tasks && d.tasks[id].status != Pending && d.tasks[id].status != Running ==>
              Cancel(d, id, env) == Answer(d, Err(NotCancellable(id, d.tasks[id].status)))
    ensures id in d.tasks && (d.tasks[id].status == Pending || d.tasks[id].status == Running) ==>
              var after := Cancel(d, id, env).domain;
              && OnlyAt(d, after, id) && after.counter == d.counter
              && var t, was := after.tasks[id], d.tasks[id];
              && Reports(Cancel(d, id, env).result, env, t)
              && SameOrigin(t, was) && SameText(t, was) && t.archivedAt == was.archivedAt
              && t.status == Failed && t.queuedTaskId == None && t.completedAt == Some(env.now)
              && t.errorMessage == Some("Task cancelled by user") && t.updatedAt == env.now
  {}
}
