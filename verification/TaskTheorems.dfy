/** What holds of the task store after any sequence of operations, and what single operations promise. */
module TaskTheorems {
  import opened Prelude
  import opened Text
  import opened TaskRecords
  import opened Sequences
  import opened TaskDomain
  import opened QueueIds

  datatype Op =
    | OpCreate(params: CreateParams, env: Env)
    | OpUpdate(input: UpdateInput, env: Env)
    | OpClose(id: string, env: Env)
    | OpArchive(id: string, env: Env)
    | OpUnarchive(id: string, env: Env)
    | OpDelete(id: string, env: Env)
    | OpClear(env: Env)
    | OpRun(id: string, env: Env)
    | OpRunAll(envs: string -> Env)
    | OpRetry(id: string, env: Env)
    | OpCancel(id: string, env: Env)

  function ErrorOf<T>(r: Result<T, Error>): Option<Error> {
    match r
    case Ok(_) => None
    case Err(e) => Some(e)
  }

  datatype After = After(domain: Domain, error: Option<Error>)

  function Apply(d: Domain, op: Op): After {
    match op
    case OpCreate(p, env) => var a := Create(d, p, env); After(a.domain, ErrorOf(a.result))
    case OpUpdate(u, env) => var a := Update(d, u, env); After(a.domain, ErrorOf(a.result))
    case OpClose(id, env) => var a := Close(d, id, env); After(a.domain, ErrorOf(a.result))
    case OpArchive(id, env) => var a := Archive(d, id, env); After(a.domain, ErrorOf(a.result))
    case OpUnarchive(id, env) => var a := Unarchive(d, id, env); After(a.domain, ErrorOf(a.result))
    case OpDelete(id, env) => var a := Delete(d, id, env); After(a.domain, ErrorOf(a.result))
    case OpClear(env) => var a := Clear(d, env); After(a.domain, ErrorOf(a.result))
    case OpRun(id, env) => var a := Run(d, id, env); After(a.domain, ErrorOf(a.result))
    case OpRunAll(envs) => After(RunAll(d, envs).domain, None)
    case OpRetry(id, env) => var a := Retry(d, id, env); After(a.domain, ErrorOf(a.result))
    case OpCancel(id, env) => var a := Cancel(d, id, env); After(a.domain, ErrorOf(a.result))
  }

  function History(ops: seq<Op>): Domain {
    if ops == [] then Domain(map[], 0) else Apply(History(ops[..|ops| - 1]), ops[|ops| - 1]).domain
  }

  // ---- The record invariant ------------------------------------------------------------------

  predicate Sound(t: Task) {
    && 1 <= t.priority <= 5
    && (t.queuedTaskId.Some? ==> IsActive(t.status))
    && (t.completedAt.Some? <==> IsTerminal(t.status))
    && (t.errorMessage.Some? ==> t.status.Failed?)
  }

  ghost predicate Consistent(d: Domain) {
    && WellKeyed(d.tasks)
    && (forall k :: k in d.tasks ==> Sound(d.tasks[k]))
    && (forall k :: k in d.tasks && d.tasks[k].queuedTaskId.Some? ==>
          d.tasks[k].queuedTaskId.value.counter <= d.counter)
    && (d.counter < U64_MAX ==> DistinctQueueIds(d.tasks))
  }

  ghost predicate DistinctQueueIds(m: Tasks) {
    forall a, b :: a in m && b in m && a != b && m[a].queuedTaskId.Some? ==> m[a].queuedTaskId != m[b].queuedTaskId
  }

  // A record that keeps its queue id or loses it.
  predicate Adjusts(t: Task, t': Task) {
    t'.id == t.id && Sound(t') && (t'.queuedTaskId.Some? ==> t'.queuedTaskId == t.queuedTaskId)
  }

  lemma ConsistentAfterPut(d: Domain, id: string, t': Task)
    requires Consistent(d)
    requires if id in d.tasks then Adjusts(d.tasks[id], t')
             else t'.id == id && Sound(t') && t'.queuedTaskId.None?
    ensures Consistent(Put(d, id, t'))
  {}

  lemma ConsistentAfterChange(d: Domain, id: string, f: Task -> Task, disk: bool)
    requires Consistent(d)
    requires id in d.tasks ==> Adjusts(d.tasks[id], f(d.tasks[id]))
    ensures Consistent(Change(d, id, f, disk).domain)
  {
    if id in d.tasks {
      ConsistentAfterPut(d, id, f(d.tasks[id]));
    }
  }

  lemma ConsistentAfterQueue(d: Domain, id: string, env: Env)
    requires Consistent(d)
    ensures Consistent(Queue(d, id, env).domain)
  {}

  lemma {:induction false} ConsistentAfterQueueEach(d: Domain, ids: seq<string>, envs: string -> Env)
    requires Consistent(d)
    ensures Consistent(QueueEach(d, ids, envs).domain)
  {
    if ids != [] {
      ConsistentAfterQueueEach(d, ids[..|ids| - 1], envs);
      ConsistentAfterQueue(QueueEach(d, ids[..|ids| - 1], envs).domain, ids[|ids| - 1], envs(ids[|ids| - 1]));
    }
  }

  lemma ConsistentAfterCreate(d: Domain, p: CreateParams, env: Env)
    requires Consistent(d)
    ensures Consistent(Create(d, p, env).domain)
  {
    if p.id !in d.tasks {
      var t := NewTask(p, env.now);
      ConsistentAfterPut(d, p.id, t);
      ConsistentAfterQueue(Put(d, p.id, t), p.id, AtQueueing(env));
    }
  }

  lemma ConsistentAfterRetry(d: Domain, id: string, env: Env)
    requires Consistent(d)
    ensures Consistent(Retry(d, id, env).domain)
  {
    if id in d.tasks && d.tasks[id].status.Failed? {
      var t := Reopened(d.tasks[id], env.now);
      ConsistentAfterPut(d, id, t);
      ConsistentAfterQueue(Put(d, id, t), id, AtQueueing(env));
    }
  }

  lemma ConsistentAfterCancel(d: Domain, id: string, env: Env)
    requires Consistent(d)
    ensures Consistent(Cancel(d, id, env).domain)
  {
    if id in d.tasks {
      ConsistentAfterPut(d, id, Cancelled(d.tasks[id], env.now));
    }
  }

  lemma UpdatedAdjusts(t: Task, u: UpdateInput, now: string)
    requires Sound(t)
    ensures Adjusts(t, Updated(t, u, now))
  {}

  lemma ConsistentAfterUpdate(d: Domain, u: UpdateInput, env: Env)
    requires Consistent(d)
    ensures Consistent(Update(d, u, env).domain)
  {
    if u.id in d.tasks {
      UpdatedAdjusts(d.tasks[u.id], u, env.now);
    }
    ConsistentAfterChange(d, u.id, (t: Task) => Updated(t, u, env.now), env.disk);
  }

  lemma ConsistentAfterClose(d: Domain, id: string, env: Env)
    requires Consistent(d)
    ensures Consistent(Close(d, id, env).domain)
  {
    ConsistentAfterChange(d, id, (t: Task) => SetStatus(t, Closed, env.now).(updatedAt := env.now), env.disk);
  }

  lemma ConsistentAfterArchiving(d: Domain, id: string, env: Env)
    requires Consistent(d)
    ensures Consistent(Archive(d, id, env).domain) && Consistent(Unarchive(d, id, env).domain)
  {
    ConsistentAfterChange(d, id, (t: Task) => t.(archivedAt := Some(env.now), updatedAt := env.later), env.disk);
    ConsistentAfterChange(d, id, (t: Task) => t.(archivedAt := None, updatedAt := env.now), env.disk);
  }

  lemma ConsistentAfterRemoval(d: Domain, id: string, env: Env)
    requires Consistent(d)
    ensures Consistent(Delete(d, id, env).domain) && Consistent(Clear(d, env).domain)
  {}

  lemma ConsistentAfterOp(d: Domain, op: Op)
    requires Consistent(d)
    ensures Consistent(Apply(d, op).domain)
  {
    match op
    case OpCreate(p, env) => ConsistentAfterCreate(d, p, env);
    case OpUpdate(u, env) => ConsistentAfterUpdate(d, u, env);
    case OpClose(id, env) => ConsistentAfterClose(d, id, env);
    case OpArchive(id, env) => ConsistentAfterArchiving(d, id, env);
    case OpUnarchive(id, env) => ConsistentAfterArchiving(d, id, env);
    case OpDelete(id, env) => ConsistentAfterRemoval(d, id, env);
    case OpClear(env) => ConsistentAfterRemoval(d, "", env);
    case OpRun(id, env) => ConsistentAfterQueue(d, id, env);
    case OpRunAll(envs) => ConsistentAfterQueueEach(d, ReadyIds(d.tasks), envs);
    case OpRetry(id, env) => ConsistentAfterRetry(d, id, env);
    case OpCancel(id, env) => ConsistentAfterCancel(d, id, env);
  }

  /** Whatever is done to an empty store, with whatever clocks and a disk that fails at will: records stay under
      their own ids and stay sound, and queued tasks bear different queue ids until the counter saturates. */
  lemma {:induction false} EveryHistoryIsConsistent(ops: seq<Op>)
    ensures Consistent(History(ops))
  {
    if ops != [] {
      EveryHistoryIsConsistent(ops[..|ops| - 1]);
      ConsistentAfterOp(History(ops[..|ops| - 1]), ops[|ops| - 1]);
    }
  }

  // ---- Failures ------------------------------------------------------------------------------

  // The one call that changes a task and then refuses.
  predicate RetriesArchived(d: Domain, op: Op) {
    op.OpRetry? && op.id in d.tasks && d.tasks[op.id].status.Failed? && d.tasks[op.id].archivedAt.Some?
  }

  lemma RetryRefusals(d: Domain, id: string, env: Env)
    requires Retry(d, id, env).result.Err? && !Retry(d, id, env).result.error.PersistFailed?
    ensures Retry(d, id, env).domain.tasks == d.tasks <==> !RetriesArchived(d, OpRetry(id, env))
  {
    if RetriesArchived(d, OpRetry(id, env)) {
      assert Retry(d, id, env).domain.tasks[id].status.Open?;
    }
  }

  lemma CreateRefusals(d: Domain, p: CreateParams, env: Env)
    requires Create(d, p, env).result.Err? && !Create(d, p, env).result.error.PersistFailed?
    ensures Create(d, p, env).domain == d
  {
    if p.id !in d.tasks && p.status.GetOr(Open).Open? {
      QueueIdle(Put(d, p.id, NewTask(p, env.now)), p.id, AtQueueing(env));
    }
  }

  /** A refused call leaves every task as it was, with one exception: retrying an archived failed task
      reopens it and then refuses to queue it. */
  lemma RefusalsKeepTasks(d: Domain, op: Op)
    requires Consistent(d)
    requires Apply(d, op).error.Some? && !Apply(d, op).error.value.PersistFailed?
    ensures Apply(d, op).domain.tasks == d.tasks <==> !RetriesArchived(d, op)
  {
    if op.OpRetry? {
      RetryRefusals(d, op.id, op.env);
    } else if op.OpCreate? {
      CreateRefusals(d, op.params, op.env);
    }
  }

  lemma HistoryOfOneMore(ops: seq<Op>, op: Op)
    ensures History(ops + [op]) == Apply(History(ops), op).domain
  {
    assert (ops + [op])[..|ops|] == ops;
  }

  lemma HistoryOfThree(a: Op, b: Op, c: Op)
    ensures History([a, b, c]) == Apply(Apply(Apply(Domain(map[], 0), a).domain, b).domain, c).domain
  {
    assert [] + [a] == [a] && [a] + [b] == [a, b] && [a, b] + [c] == [a, b, c];
    HistoryOfOneMore([], a);
    HistoryOfOneMore([a], b);
    HistoryOfOneMore([a, b], c);
  }

  /** The exception happens: a task that is created, cancelled and archived refuses a retry, and is open afterwards. */
  lemma ArchivedRetryHappens(p: CreateParams, env: Env)
    requires p.status.None? && p.autoExecute.None? && p.blockedBy.None? && env.disk
    ensures var ops := [OpCreate(p, env), OpCancel(p.id, env), OpArchive(p.id, env)];
            var retry := OpRetry(p.id, env);
            && RetriesArchived(History(ops), retry)
            && Apply(History(ops), retry).error == Some(IsArchived(p.id))
            && Apply(History(ops), retry).domain.tasks != History(ops).tasks
  {
    HistoryOfThree(OpCreate(p, env), OpCancel(p.id, env), OpArchive(p.id, env));
    RetryOfArchived(p, env);
  }

  lemma RetryOfArchived(p: CreateParams, env: Env)
    requires p.status.None? && p.autoExecute.None? && p.blockedBy.None? && env.disk
    ensures var d := Archive(Cancel(Create(Domain(map[], 0), p, env).domain, p.id, env).domain, p.id, env).domain;
            && RetriesArchived(d, OpRetry(p.id, env))
            && Retry(d, p.id, env).result == Err(IsArchived(p.id))
            && Retry(d, p.id, env).domain.tasks != d.tasks
  {
    var created := Create(Domain(map[], 0), p, env).domain;
    assert created.tasks[p.id].status.Pending? && created.tasks[p.id].archivedAt.None?;
    var archived := Archive(Cancel(created, p.id, env).domain, p.id, env).domain;
    assert archived.tasks[p.id].status.Failed? && archived.tasks[p.id].archivedAt.Some?;
    assert Retry(archived, p.id, env).domain.tasks[p.id].status.Open?;
  }

  // ---- A failing disk ------------------------------------------------------------------------

  function WithDisk(op: Op, disk: bool): Op {
    match op
    case OpCreate(p, env) => OpCreate(p, env.(disk := disk))
    case OpUpdate(u, env) => OpUpdate(u, env.(disk := disk))
    case OpClose(id, env) => OpClose(id, env.(disk := disk))
    case OpArchive(id, env) => OpArchive(id, env.(disk := disk))
    case OpUnarchive(id, env) => OpUnarchive(id, env.(disk := disk))
    case OpDelete(id, env) => OpDelete(id, env.(disk := disk))
    case OpClear(env) => OpClear(env.(disk := disk))
    case OpRun(id, env) => OpRun(id, env.(disk := disk))
    case OpRunAll(envs) => OpRunAll(EnvsWithDisk(envs, disk))
    case OpRetry(id, env) => OpRetry(id, env.(disk := disk))
    case OpCancel(id, env) => OpCancel(id, env.(disk := disk))
  }

  function EnvsWithDisk(envs: string -> Env, disk: bool): string -> Env {
    id => envs(id).(disk := disk)
  }

  // What a failing disk makes of an error.
  function DiskError(e: Option<Error>): Option<Error> {
    if e.None? then Some(PersistFailed) else e
  }

  lemma DiskOnlyReportsQueueing(d: Domain, id: string, env: Env)
    ensures var on, off := Run(d, id, env.(disk := true)), Run(d, id, env.(disk := false));
            off.domain == on.domain && ErrorOf(off.result) == DiskError(ErrorOf(on.result))
  {}

  lemma DiskOnlyReportsCreating(d: Domain, p: CreateParams, env: Env)
    ensures var on, off := Create(d, p, env.(disk := true)), Create(d, p, env.(disk := false));
            off.domain == on.domain && ErrorOf(off.result) == DiskError(ErrorOf(on.result))
  {
    DiskOnlyReportsQueueing(Put(d, p.id, NewTask(p, env.now)), p.id, AtQueueing(env));
  }

  lemma DiskOnlyReportsRetrying(d: Domain, id: string, env: Env)
    ensures var on, off := Retry(d, id, env.(disk := true)), Retry(d, id, env.(disk := false));
            off.domain == on.domain && ErrorOf(off.result) == DiskError(ErrorOf(on.result))
  {
    if id in d.tasks {
      DiskOnlyReportsQueueing(Put(d, id, Reopened(d.tasks[id], env.now)), id, AtQueueing(env));
    }
  }

  lemma {:induction false} DiskOnlyReportsQueueingEach(d: Domain, ids: seq<string>, envs: string -> Env)
    ensures QueueEach(d, ids, EnvsWithDisk(envs, false)).domain == QueueEach(d, ids, EnvsWithDisk(envs, true)).domain
  {
    if ids != [] {
      DiskOnlyReportsQueueingEach(d, ids[..|ids| - 1], envs);
    }
  }

  predicate Queues(op: Op) {
    op.OpCreate? || op.OpRun? || op.OpRetry? || op.OpRunAll?
  }

  // What a failing disk changes about an operation: nothing in memory, and its error.
  predicate OnlyReports(d: Domain, op: Op) {
    var on, off := Apply(d, WithDisk(op, true)), Apply(d, WithDisk(op, false));
    off.domain == on.domain && (!op.OpRunAll? ==> off.error == DiskError(on.error))
  }

  lemma DiskOnlyReportsEditing(d: Domain, op: Op)
    requires !Queues(op)
    ensures OnlyReports(d, op)
  {}

  /** A failing disk is reported but changes nothing else: after any operation memory is as if it had succeeded, and an
      error is what it would have been, or the failed save. `run_all` reports by its own list. */
  lemma DiskOnlyReports(d: Domain, op: Op)
    ensures OnlyReports(d, op)
  {
    match op {
      case OpCreate(p, env) => DiskOnlyReportsCreating(d, p, env);
      case OpRun(id, env) => DiskOnlyReportsQueueing(d, id, env);
      case OpRetry(id, env) => DiskOnlyReportsRetrying(d, id, env);
      case OpRunAll(envs) => DiskOnlyReportsQueueingEach(d, ReadyIds(d.tasks), envs);
      case _ => DiskOnlyReportsEditing(d, op);
    }
  }

  // ---- Ready tasks ---------------------------------------------------------------------------

  lemma NoDuplicateIds(f: Task -> string, ts: seq<Task>, listed: seq<Task>)
    requires ById(ts) && multiset(listed) == multiset(ts) && RankedSeq(f, listed)
    ensures forall i, j :: 0 <= i < j < |listed| ==> listed[i].id != listed[j].id
  {
    forall i, j | 0 <= i < j < |listed| ensures listed[i].id != listed[j].id {
      assert listed[i] in multiset(ts) && listed[j] in multiset(ts);
      assert listed[i] in ts && listed[j] in ts;
      var a :| 0 <= a < |ts| && ts[a] == listed[i];
      var b :| 0 <= b < |ts| && ts[b] == listed[j];
      if a == b {
        RankedIrreflexive(f, listed[i]);
      } else {
        BeforeIrreflexive(ts[a].id);
      }
    }
  }

  /** `ready` lists exactly the open, unarchived, unblocked tasks, each once, by creation time and then id. */
  lemma ReadyIsExact(m: Tasks)
    requires WellKeyed(m)
    ensures forall t: Task :: t in Ready(m) <==> t.id in m && m[t.id] == t && IsReady(UnblockingIds(m), t)
    ensures RankedSeq((t: Task) => t.createdAt, Ready(m))
    ensures forall i, j :: 0 <= i < j < |Ready(m)| ==> Ready(m)[i].id != Ready(m)[j].id
  {
    var unblocking := UnblockingIds(m);
    var p := (t: Task) => IsReady(unblocking, t);
    var f := (t: Task) => t.createdAt;
    var kept := Filter(p, Values(m));
    ValuesById(m);
    FilterKeeps(Values(m), p);
    SortRanks(f, kept);
    NoDuplicateIds(f, kept, Ready(m));
    forall t: Task ensures t in Ready(m) <==> t in kept {
      assert t in Ready(m) <==> t in multiset(Ready(m));
      assert t in kept <==> t in multiset(kept);
    }
  }

  lemma ReadyIdsAreExact(m: Tasks)
    requires WellKeyed(m)
    ensures forall id :: id in ReadyIds(m) <==> id in m && IsReady(UnblockingIds(m), m[id])
    ensures forall i, j :: 0 <= i < j < |ReadyIds(m)| ==> ReadyIds(m)[i] != ReadyIds(m)[j]
  {
    ReadyIsExact(m);
    var ids := ReadyIds(m);
    forall id ensures id in ids <==> id in m && IsReady(UnblockingIds(m), m[id]) {
      if id in ids {
        var i :| 0 <= i < |ids| && ids[i] == id;
        assert Ready(m)[i] in Ready(m);
      }
      if id in m && IsReady(UnblockingIds(m), m[id]) {
        assert m[id] in Ready(m);
        var i :| 0 <= i < |Ready(m)| && Ready(m)[i] == m[id];
        assert ids[i] == id;
      }
    }
  }

  // ---- run_all -------------------------------------------------------------------------------

  // A list of different tasks, each of which can be queued.
  predicate Idle(m: Tasks, ids: seq<string>) {
    && (forall i :: 0 <= i < |ids| ==> ids[i] in m && m[ids[i]].archivedAt.None? && !IsActive(m[ids[i]].status))
    && (forall i, j :: 0 <= i < j < |ids| ==> ids[i] != ids[j])
  }

  // How the record at position `i` ends up.
  function MovedTask(d: Domain, ids: seq<string>, envs: string -> Env, i: nat): Task
    requires i < |ids| && ids[i] in d.tasks
  {
    Queued(d.tasks[ids[i]], QueueId(envs(ids[i]).millis, Counter(d.counter, i + 1)), envs(ids[i]).now)
  }

  // What queueing such a list leaves behind.
  ghost predicate Moved(d: Domain, ids: seq<string>, envs: string -> Env, after: Domain)
    requires Idle(d.tasks, ids)
  {
    && after.tasks.Keys == d.tasks.Keys
    && (forall id :: id in d.tasks && id !in ids ==> after.tasks[id] == d.tasks[id])
    && (forall i :: 0 <= i < |ids| ==> after.tasks[ids[i]] == MovedTask(d, ids, envs, i))
    && after.counter == Counter(d.counter, |ids|)
  }

  // The counter after `n` more ids.
  function Counter(start: Word64, n: nat): Word64 {
    if start + n > U64_MAX then U64_MAX else start + n
  }

  // What is reported: every task counted or listed, and listed exactly if its saving failed.
  predicate Reported(ids: seq<string>, envs: string -> Env, b: Batch) {
    && b.enqueued + |b.errors| == |ids|
    && (forall e :: e in b.errors ==> e.0 in ids && e.1 == PersistFailed && !envs(e.0).disk)
    && (forall i :: 0 <= i < |ids| && !envs(ids[i]).disk ==> (ids[i], PersistFailed) in b.errors)
  }

  lemma IdleFront(m: Tasks, ids: seq<string>)
    requires Idle(m, ids) && ids != []
    ensures Idle(m, ids[..|ids| - 1]) && ids[|ids| - 1] !in ids[..|ids| - 1]
  {
    assert forall i :: 0 <= i < |ids| - 1 ==> ids[..|ids| - 1][i] == ids[i];
  }

  lemma QueueEachNext(d: Domain, front: seq<string>, id: string, envs: string -> Env)
    ensures QueueEach(d, front + [id], envs).domain == Queue(QueueEach(d, front, envs).domain, id, envs(id)).domain
  {
    assert (front + [id])[..|front|] == front;
  }

  lemma {:induction false} QueueEachMoves(d: Domain, ids: seq<string>, envs: string -> Env)
    requires Idle(d.tasks, ids)
    ensures Moved(d, ids, envs, QueueEach(d, ids, envs).domain)
  {
    if ids != [] {
      var front, id := ids[..|ids| - 1], ids[|ids| - 1];
      IdleFront(d.tasks, ids);
      QueueEachMoves(d, front, envs);
      assert front + [id] == ids;
      MovedFurther(d, front, id, envs, QueueEach(d, front, envs).domain);
      QueueEachNext(d, front, id, envs);
    }
  }

  // Queueing one idle task.
  lemma QueueIdle(d: Domain, id: string, env: Env)
    requires id in d.tasks && d.tasks[id].archivedAt.None? && !IsActive(d.tasks[id].status)
    ensures var q := Queue(d, id, env);
            var c := SaturatingAdd(d.counter, 1);
            && q.domain == Domain(d.tasks[id := Queued(d.tasks[id], QueueId(env.millis, c), env.now)], c)
            && (q.result.Ok? <==> env.disk) && (!env.disk ==> q.result == Err(PersistFailed))
  {}

  lemma MovedByPut(d: Domain, front: seq<string>, id: string, envs: string -> Env, before: Domain, after: Domain)
    requires Idle(d.tasks, front) && Idle(d.tasks, front + [id]) && Moved(d, front, envs, before)
    requires after == Domain(before.tasks[id := MovedTask(d, front + [id], envs, |front|)],
                             Counter(d.counter, |front| + 1))
    ensures Moved(d, front + [id], envs, after)
  {
    var ids := front + [id];
    assert ids[|front|] == id;
    forall i | 0 <= i < |front| ensures after.tasks[ids[i]] == MovedTask(d, ids, envs, i) {
      assert ids[i] == front[i] && ids[i] != ids[|front|];
    }
    forall k | k in d.tasks && k !in ids ensures after.tasks[k] == d.tasks[k] {
      assert k != id && k !in front;
    }
  }

  lemma MovedFurther(d: Domain, front: seq<string>, id: string, envs: string -> Env, before: Domain)
    requires Idle(d.tasks, front) && Idle(d.tasks, front + [id]) && Moved(d, front, envs, before)
    ensures Moved(d, front + [id], envs, Queue(before, id, envs(id)).domain)
    ensures Queue(before, id, envs(id)).result.Ok? <==> envs(id).disk
    ensures !envs(id).disk ==> Queue(before, id, envs(id)).result == Err(PersistFailed)
  {
    IdleFront(d.tasks, front + [id]);
    assert (front + [id])[..|front|] == front && (front + [id])[|front|] == id;
    assert before.tasks[id] == d.tasks[id];
    QueueIdle(before, id, envs(id));
    MovedByPut(d, front, id, envs, before, Queue(before, id, envs(id)).domain);
  }

  lemma {:induction false} QueueEachReports(d: Domain, ids: seq<string>, envs: string -> Env)
    requires Idle(d.tasks, ids) && |ids| <= U64_MAX
    ensures Reported(ids, envs, QueueEach(d, ids, envs))
  {
    if ids != [] {
      var front, id := ids[..|ids| - 1], ids[|ids| - 1];
      IdleFront(d.tasks, ids);
      QueueEachMoves(d, front, envs);
      assert front + [id] == ids;
      MovedFurther(d, front, id, envs, QueueEach(d, front, envs).domain);
      QueueEachReports(d, front, envs);
      ReportedFurther(front, id, envs, QueueEach(d, front, envs), QueueEach(d, ids, envs));
    }
  }

  lemma ReportedFurther(front: seq<string>, id: string, envs: string -> Env, before: Batch, after: Batch)
    requires Reported(front, envs, before) && |front| < U64_MAX
    requires if envs(id).disk then after.enqueued == before.enqueued + 1 && after.errors == before.errors
             else after.enqueued == before.enqueued && after.errors == before.errors + [(id, PersistFailed)]
    ensures Reported(front + [id], envs, after)
  {}

  lemma ReadyAreIdle(m: Tasks)
    requires WellKeyed(m)
    ensures Idle(m, ReadyIds(m))
  {
    ReadyIdsAreExact(m);
    assert forall i :: 0 <= i < |ReadyIds(m)| ==> ReadyIds(m)[i] in ReadyIds(m);
  }

  lemma FirstIsMember<T>(s: seq<T>)
    ensures s == [] || s[0] in s
  {}

  lemma QueueEachDelivers(d: Domain, ids: seq<string>, envs: string -> Env)
    requires Idle(d.tasks, ids) && |ids| <= U64_MAX
    ensures var b := QueueEach(d, ids, envs);
            && Moved(d, ids, envs, b.domain) && Reported(ids, envs, b)
            && ((forall id :: id in ids ==> envs(id).disk) ==> b.errors == [] && b.enqueued == |ids|)
  {
    QueueEachMoves(d, ids, envs);
    QueueEachReports(d, ids, envs);
    FirstIsMember(QueueEach(d, ids, envs).errors);
  }

  /** `run_all` moves exactly the ready tasks to the queue, in order, with ever higher counters, and leaves every
      other record alone; this is so whether or not the disk obeys. It reports as errors exactly the tasks whose
      saving failed, so with a working disk it enqueues all and reports none. */
  lemma RunAllMovesTheReady(d: Domain, envs: string -> Env)
    requires WellKeyed(d.tasks) && |ReadyIds(d.tasks)| <= U64_MAX
    ensures var ids := ReadyIds(d.tasks);
            var b := RunAll(d, envs);
            && Idle(d.tasks, ids) && Moved(d, ids, envs, b.domain) && Reported(ids, envs, b)
            && ((forall id :: id in ids ==> envs(id).disk) ==> b.errors == [] && b.enqueued == |ids|)
  {
    ReadyAreIdle(d.tasks);
    QueueEachDelivers(d, ReadyIds(d.tasks), envs);
  }

  // A ready task was not unblocking anyone, and is not once it is queued.
  lemma QueueingUnblocksNobody(m: Tasks, m': Tasks)
    requires WellKeyed(m) && WellKeyed(m') && m'.Keys == m.Keys
    requires forall k :: k in m && m'[k] != m[k] ==>
               m[k].status.Open? && m[k].archivedAt.None? && m'[k].status.Pending? && m'[k].archivedAt.None?
    ensures UnblockingIds(m') == UnblockingIds(m)
  {
    assert forall k :: k in m ==> (m'[k].status.Closed? || m'[k].archivedAt.Some?
                                   <==> m[k].status.Closed? || m[k].archivedAt.Some?);
  }

  lemma NothingLeftReady(m: Tasks, ids: seq<string>, m': Tasks)
    requires WellKeyed(m) && m'.Keys == m.Keys
    requires forall id :: id in ids <==> id in m && IsReady(UnblockingIds(m), m[id])
    requires forall id :: id in m && id !in ids ==> m'[id] == m[id]
    requires forall id :: id in ids ==> m'[id].id == id && m'[id].status.Pending? && m'[id].archivedAt.None?
    ensures ReadyIds(m') == []
  {
    forall k | k in m && m'[k] != m[k]
      ensures m[k].status.Open? && m[k].archivedAt.None? && m'[k].status.Pending? && m'[k].archivedAt.None?
    {
      assert k in ids;
    }
    QueueingUnblocksNobody(m, m');
    ReadyIdsAreExact(m');
    forall id ensures id !in ReadyIds(m') {
      assert id in m ==> id in ids || m'[id] == m[id];
    }
    FirstIsMember(ReadyIds(m'));
  }

  /** Once everything ready is queued nothing more becomes ready: an immediate second `run_all` does nothing. */
  lemma RunAllIsIdempotent(d: Domain, envs: string -> Env, again: string -> Env)
    requires WellKeyed(d.tasks)
    ensures var after := RunAll(d, envs).domain;
            ReadyIds(after.tasks) == [] && RunAll(after, again) == Batch(after, 0, [])
  {
    var ids := ReadyIds(d.tasks);
    ReadyAreIdle(d.tasks);
    QueueEachMoves(d, ids, envs);
    ReadyIdsAreExact(d.tasks);
    var after := RunAll(d, envs).domain;
    forall id | id in ids
      ensures after.tasks[id].id == id && after.tasks[id].status.Pending? && after.tasks[id].archivedAt.None?
    {
      var i :| 0 <= i < |ids| && ids[i] == id;
    }
    NothingLeftReady(d.tasks, ids, after.tasks);
  }

  // ---- The queue -----------------------------------------------------------------------------

  lemma QueueOrderIsExact(m: Tasks)
    requires WellKeyed(m)
    ensures var f := (t: Task) => t.updatedAt;
            && RankedSeq(f, QueueOrder(m))
            && (forall t: Task :: t in QueueOrder(m) <==> t.id in m && m[t.id] == t && IsQueued(t))
            && (forall i, j :: 0 <= i < j < |QueueOrder(m)| ==> QueueOrder(m)[i].id != QueueOrder(m)[j].id)
  {
    var f := (t: Task) => t.updatedAt;
    var p := (t: Task) => IsQueued(t);
    var kept := Filter(p, Values(m));
    ValuesById(m);
    FilterKeeps(Values(m), p);
    SortRanks(f, kept);
    NoDuplicateIds(f, kept, QueueOrder(m));
    forall t: Task ensures t in QueueOrder(m) <==> t in kept {
      assert t in QueueOrder(m) <==> t in multiset(QueueOrder(m));
      assert t in kept <==> t in multiset(kept);
    }
  }

  // The queued tasks that were last changed before this one, or at the same time and with a smaller id.
  function Ahead(m: Tasks, t: Task): set<Task> {
    set k | k in m && IsQueued(m[k]) && Ranked((x: Task) => x.updatedAt, m[k], t) :: m[k]
  }

  /** `queue_position` answers for queued tasks only, and answers how many queued tasks are ahead. */
  lemma QueuePositionRanks(m: Tasks, id: string)
    requires WellKeyed(m)
    ensures (exists p :: 0 <= p < |QueueOrder(m)| && QueueOrder(m)[p].id == id) <==> id in m && IsQueued(m[id])
    ensures forall p :: 0 <= p < |QueueOrder(m)| && QueueOrder(m)[p].id == id ==> |Ahead(m, m[id])| == p
  {
    QueueOrderIsExact(m);
    var f := (t: Task) => t.updatedAt;
    var queue := QueueOrder(m);
    if id in m && IsQueued(m[id]) {
      assert m[id] in queue;
    }
    forall p | 0 <= p < |queue| && queue[p].id == id ensures |Ahead(m, m[id])| == p {
      assert queue[p] in queue;
      PositionCounts(f, queue, p);
      assert Ahead(m, m[id]) == set t | t in queue && Ranked(f, t, queue[p]);
    }
  }

  /** The positions of the queued tasks are 0, 1, ..., n - 1, one each. */
  lemma QueuePositionsAreABijection(m: Tasks)
    requires WellKeyed(m)
    ensures var queued := set k | k in m && IsQueued(m[k]);
            && |queued| == |QueueOrder(m)|
            && (forall p :: 0 <= p < |QueueOrder(m)| ==> QueueOrder(m)[p].id in queued)
            && (forall k :: k in queued ==> 0 <= |Ahead(m, m[k])| < |queued| && QueueOrder(m)[|Ahead(m, m[k])|].id == k)
  {
    QueueOrderIsExact(m);
    var queue := QueueOrder(m);
    var queued := set k | k in m && IsQueued(m[k]);
    forall p | 0 <= p < |queue| ensures queue[p].id in queued {
      assert queue[p] in queue;
    }
    DistinctIdsCount(queue);
    assert queued == set t | t in queue :: t.id by {
      forall k | k in queued ensures k in set t | t in queue :: t.id {
        assert m[k] in queue;
      }
    }
    forall k | k in queued
      ensures 0 <= |Ahead(m, m[k])| < |queued| && queue[|Ahead(m, m[k])|].id == k
    {
      QueuePositionRanks(m, k);
    }
  }

  lemma {:induction false} DistinctIdsCount(ts: seq<Task>)
    requires forall i, j :: 0 <= i < j < |ts| ==> ts[i].id != ts[j].id
    ensures |set t | t in ts :: t.id| == |ts|
  {
    if ts != [] {
      var front, last := ts[..|ts| - 1], ts[|ts| - 1];
      DistinctIdsCount(front);
      assert ts == front + [last];
      assert (set t | t in ts :: t.id) == (set t | t in front :: t.id) + {last.id};
      assert last.id !in set t | t in front :: t.id;
    }
  }
}
