/** Queue ids over whole histories: which operation issues which id, and when two ids can be the same. */
module TaskQueueIds {
  import opened Prelude
  import opened Sequences
  import opened TaskRecords
  import opened TaskDomain
  import opened TaskTheorems
  import opened QueueIds

  /** As printed: no two tasks of a history show the same queue id while the counter has not saturated. */
  lemma PrintedQueueIdsDiffer(ops: seq<Op>, a: string, b: string)
    requires var d := History(ops);
             && d.counter < U64_MAX && a in d.tasks && b in d.tasks && a != b
             && d.tasks[a].queuedTaskId.Some? && d.tasks[b].queuedTaskId.Some?
    ensures var m := History(ops).tasks;
            Print(m[a].queuedTaskId.value) != Print(m[b].queuedTaskId.value)
  {
    EveryHistoryIsConsistent(ops);
    PrintInjective(History(ops).tasks[a].queuedTaskId.value, History(ops).tasks[b].queuedTaskId.value);
  }

  // ---- The counter ---------------------------------------------------------------------------

  lemma RunCounts(d: Domain, id: string, env: Env)
    ensures Run(d, id, env).domain.counter == SaturatingAdd(d.counter, 1)
  {}

  lemma CreateCounts(d: Domain, p: CreateParams, env: Env)
    ensures Create(d, p, env).domain.counter >= d.counter
  {
    RunCounts(Put(d, p.id, NewTask(p, env.now)), p.id, AtQueueing(env));
  }

  lemma RetryCounts(d: Domain, id: string, env: Env)
    ensures Retry(d, id, env).domain.counter >= d.counter
  {
    if id in d.tasks {
      RunCounts(Put(d, id, Reopened(d.tasks[id], env.now)), id, AtQueueing(env));
    }
  }

  lemma CounterNeverFalls(d: Domain, op: Op)
    ensures Apply(d, op).domain.counter >= d.counter
  {
    match op {
      case OpCreate(p, env) => CreateCounts(d, p, env);
      case OpRun(id, env) => RunCounts(d, id, env);
      case OpRetry(id, env) => RetryCounts(d, id, env);
      case OpRunAll(envs) => QueueEachCounts(d, ReadyIds(d.tasks), envs);
      case _ =>
    }
  }

  lemma {:induction false} QueueEachCounts(d: Domain, ids: seq<string>, envs: string -> Env)
    ensures QueueEach(d, ids, envs).domain.counter >= d.counter
  {
    if ids != [] {
      QueueEachCounts(d, ids[..|ids| - 1], envs);
    }
  }

  lemma {:induction false} CounterRises(ops: seq<Op>, i: nat)
    requires i <= |ops|
    ensures History(ops[..i]).counter <= History(ops).counter
    decreases |ops|
  {
    if i == |ops| {
      assert ops[..i] == ops;
    } else {
      var front := ops[..|ops| - 1];
      CounterRises(front, i);
      assert front[..i] == ops[..i];
      CounterNeverFalls(History(front), ops[|ops| - 1]);
    }
  }

  // ---- Which ids an operation issues ---------------------------------------------------------

  predicate Bears(m: Tasks, k: string, q: QueueId) {
    k in m && m[k].queuedTaskId == Some(q)
  }

  // The operation gives task `k` the id `q`.
  predicate Issues(d: Domain, op: Op, k: string, q: QueueId) {
    Bears(Apply(d, op).domain.tasks, k, q) && !Bears(d.tasks, k, q)
  }

  // The millisecond clock when `k` is queued by the operation.
  function ClockOf(op: Op, k: string): int {
    match op
    case OpRunAll(envs) => envs(k).millis
    case _ => op.env.millis
  }

  // How many ids the operation has drawn once `k` has its own.
  function TurnOf(d: Domain, op: Op, k: string): nat {
    if op.OpRunAll? then Index(ReadyIds(d.tasks), k) + 1 else 1
  }

  function TargetOf(op: Op): string {
    match op
    case OpCreate(p, _) => p.id
    case OpUpdate(u, _) => u.id
    case OpClear(_) => ""
    case OpRunAll(_) => ""
    case _ => op.id
  }

  predicate KeepsId(t: Task, t': Task) {
    t'.queuedTaskId.Some? ==> t'.queuedTaskId == t.queuedTaskId
  }

  lemma QueueIssues(d: Domain, id: string, env: Env, k: string, q: QueueId)
    requires Bears(Queue(d, id, env).domain.tasks, k, q) && !Bears(d.tasks, k, q)
    ensures k == id && q == QueueId(env.millis, SaturatingAdd(d.counter, 1))
  {}

  // Queueing after one record was put in place with no id of its own.
  lemma PutThenQueueIssues(d: Domain, id: string, t: Task, env: Env, k: string, q: QueueId)
    requires t.queuedTaskId.None?
    requires Bears(Queue(Put(d, id, t), id, env).domain.tasks, k, q) && !Bears(d.tasks, k, q)
    ensures k == id && q == QueueId(env.millis, SaturatingAdd(d.counter, 1))
  {
    QueueIssues(Put(d, id, t), id, env, k, q);
  }

  lemma CreateIssues(d: Domain, p: CreateParams, env: Env, k: string, q: QueueId)
    requires Bears(Create(d, p, env).domain.tasks, k, q) && !Bears(d.tasks, k, q)
    ensures k == p.id && q == QueueId(env.millis, SaturatingAdd(d.counter, 1))
    ensures Create(d, p, env).domain.counter == SaturatingAdd(d.counter, 1)
  {
    var t := NewTask(p, env.now);
    RunCounts(Put(d, p.id, t), p.id, AtQueueing(env));
    PutThenQueueIssues(d, p.id, t, AtQueueing(env), k, q);
  }

  lemma RetryIssues(d: Domain, id: string, env: Env, k: string, q: QueueId)
    requires Bears(Retry(d, id, env).domain.tasks, k, q) && !Bears(d.tasks, k, q)
    ensures k == id && q == QueueId(env.millis, SaturatingAdd(d.counter, 1))
    ensures Retry(d, id, env).domain.counter == SaturatingAdd(d.counter, 1)
  {
    var t := Reopened(d.tasks[id], env.now);
    RunCounts(Put(d, id, t), id, AtQueueing(env));
    PutThenQueueIssues(d, id, t, AtQueueing(env), k, q);
  }

  lemma MovedIssues(d: Domain, ids: seq<string>, envs: string -> Env, after: Domain, k: string, q: QueueId)
    requires Idle(d.tasks, ids) && Moved(d, ids, envs, after)
    requires Bears(after.tasks, k, q) && !Bears(d.tasks, k, q)
    ensures k in ids && q == QueueId(envs(k).millis, Counter(d.counter, Index(ids, k) + 1))
    ensures q.counter <= after.counter
  {
    FirstIsAt(ids, k);
  }

  lemma QueueEachIssues(d: Domain, ids: seq<string>, envs: string -> Env, after: Domain, k: string, q: QueueId)
    requires Idle(d.tasks, ids) && after == QueueEach(d, ids, envs).domain
    requires Bears(after.tasks, k, q) && !Bears(d.tasks, k, q)
    ensures k in ids && q == QueueId(envs(k).millis, Counter(d.counter, Index(ids, k) + 1))
    ensures q.counter <= after.counter
  {
    QueueEachMoves(d, ids, envs);
    MovedIssues(d, ids, envs, after, k, q);
  }

  lemma RunAllIssues(d: Domain, ids: seq<string>, envs: string -> Env, after: Domain, k: string, q: QueueId)
    requires WellKeyed(d.tasks) && ids == ReadyIds(d.tasks) && after == RunAll(d, envs).domain
    requires Bears(after.tasks, k, q) && !Bears(d.tasks, k, q)
    ensures k in ids && q == QueueId(envs(k).millis, Counter(d.counter, Index(ids, k) + 1))
    ensures q.counter <= after.counter
  {
    ReadyAreIdle(d.tasks);
    QueueEachIssues(d, ids, envs, after, k, q);
  }

  lemma ChangeIssuesNothing(d: Domain, id: string, f: Task -> Task, disk: bool, k: string, q: QueueId)
    requires id in d.tasks ==> KeepsId(d.tasks[id], f(d.tasks[id]))
    ensures Bears(Change(d, id, f, disk).domain.tasks, k, q) ==> Bears(d.tasks, k, q)
  {}

  // The operations that never queue.
  lemma OthersIssueNothing(d: Domain, op: Op, k: string, q: QueueId)
    requires !Queues(op)
    ensures !Issues(d, op, k, q)
  {
    match op {
      case OpUpdate(u, env) => ChangeIssuesNothing(d, u.id, (t: Task) => Updated(t, u, env.now), env.disk, k, q);
      case OpClose(id, env) =>
        ChangeIssuesNothing(d, id, (t: Task) => SetStatus(t, Closed, env.now).(updatedAt := env.now), env.disk, k, q);
      case OpArchive(id, env) =>
        ChangeIssuesNothing(
          d, id, (t: Task) => t.(archivedAt := Some(env.now), updatedAt := env.later), env.disk, k, q);
      case OpUnarchive(id, env) =>
        ChangeIssuesNothing(d, id, (t: Task) => t.(archivedAt := None, updatedAt := env.now), env.disk, k, q);
      case _ =>
    }
  }

  lemma OneIdIs(d: Domain, op: Op, k: string, q: QueueId)
    requires !op.OpRunAll? && Issues(d, op, k, q)
    ensures k == TargetOf(op) && q == QueueId(op.env.millis, SaturatingAdd(d.counter, 1))
    ensures Apply(d, op).domain.counter == SaturatingAdd(d.counter, 1)
  {
    match op {
      case OpCreate(p, env) => CreateIssues(d, p, env, k, q);
      case OpRun(id, env) =>
        RunCounts(d, id, env);
        QueueIssues(d, id, env, k, q);
      case OpRetry(id, env) => RetryIssues(d, id, env, k, q);
      case _ => OthersIssueNothing(d, op, k, q);
    }
  }

  /** Whatever operation issues an id, the id is the clock reading and the counter as it stood at that turn. Only
      `run_all` issues more than one. */
  lemma IssuedIdsAre(d: Domain, op: Op, k: string, q: QueueId)
    requires Consistent(d) && Issues(d, op, k, q)
    ensures q == QueueId(ClockOf(op, k), Counter(d.counter, TurnOf(d, op, k)))
    ensures if op.OpRunAll? then k in ReadyIds(d.tasks) else k == TargetOf(op)
    ensures q.counter <= Apply(d, op).domain.counter
  {
    if op.OpRunAll? {
      RunAllIssues(d, ReadyIds(d.tasks), op.envs, Apply(d, op).domain, k, q);
    } else {
      OneIdIs(d, op, k, q);
    }
  }

  /** The id that `run` returns is the one it issues to its task. */
  lemma RunReturnsTheIssued(d: Domain, id: string, env: Env)
    requires Consistent(d) && Run(d, id, env).result.Ok?
    ensures Issues(d, OpRun(id, env), id, Run(d, id, env).result.value.queuedTaskId)
  {
    assert d.tasks[id].queuedTaskId.None?;
  }

  // ---- Ids across a history ------------------------------------------------------------------

  // Step `i` of the history gives task `k` the id `q`.
  predicate IssuedTo(ops: seq<Op>, i: nat, k: string, q: QueueId)
    requires i < |ops|
  {
    Issues(History(ops[..i]), ops[i], k, q)
  }

  /** Nothing bears an id that no step issued to it. */
  lemma {:induction false} BorneIdsWereIssued(ops: seq<Op>, k: string, q: QueueId) returns (i: nat)
    requires Bears(History(ops).tasks, k, q)
    ensures i < |ops| && IssuedTo(ops, i, k, q)
  {
    var front := ops[..|ops| - 1];
    if Bears(History(front).tasks, k, q) {
      i := BorneIdsWereIssued(front, k, q);
      assert front[..i] == ops[..i];
    } else {
      i := |front|;
    }
  }

  // The counter has run out by the time step `i` queues `k`.
  predicate Saturated(ops: seq<Op>, i: nat, k: string)
    requires i < |ops|
  {
    History(ops[..i]).counter + TurnOf(History(ops[..i]), ops[i], k) >= U64_MAX
  }

  lemma StepOf(ops: seq<Op>, i: nat)
    requires i < |ops|
    ensures History(ops[..i + 1]) == Apply(History(ops[..i]), ops[i]).domain
  {
    assert ops[..i + 1][..i] == ops[..i];
  }

  lemma CounterRisesBetween(ops: seq<Op>, i: nat, j: nat)
    requires i <= j <= |ops|
    ensures History(ops[..i]).counter <= History(ops[..j]).counter
  {
    CounterRises(ops[..j], i);
    assert ops[..j][..i] == ops[..i];
  }

  lemma LaterIdsAreAbove(ops: seq<Op>, i: nat, a: string, p: QueueId, j: nat, b: string, q: QueueId)
    requires i < j < |ops| && IssuedTo(ops, i, a, p) && IssuedTo(ops, j, b, q)
    ensures p.counter <= History(ops[..j]).counter
    ensures p.counter < q.counter || q.counter == U64_MAX
  {
    EveryHistoryIsConsistent(ops[..i]);
    EveryHistoryIsConsistent(ops[..j]);
    IssuedIdsAre(History(ops[..i]), ops[i], a, p);
    IssuedIdsAre(History(ops[..j]), ops[j], b, q);
    StepOf(ops, i);
    CounterRisesBetween(ops, i + 1, j);
  }

  lemma IdsOfOneStep(d: Domain, op: Op, a: string, p: QueueId, b: string, q: QueueId)
    requires Consistent(d) && Issues(d, op, a, p) && Issues(d, op, b, q) && a != b
    ensures op.OpRunAll? && (p.counter == q.counter ==> p.counter == U64_MAX)
  {
    IssuedIdsAre(d, op, a, p);
    IssuedIdsAre(d, op, b, q);
    FirstIsAt(ReadyIds(d.tasks), a);
    FirstIsAt(ReadyIds(d.tasks), b);
  }

  lemma IssuedShows(ops: seq<Op>, i: nat, k: string, q: QueueId)
    requires i < |ops| && IssuedTo(ops, i, k, q)
    ensures q.millis == ClockOf(ops[i], k) && (q.counter == U64_MAX <==> Saturated(ops, i, k))
  {
    EveryHistoryIsConsistent(ops[..i]);
    IssuedIdsAre(History(ops[..i]), ops[i], k, q);
  }

  /** Over any history, two ids issued by whatever operations, even by one `run_all`, print the same exactly when the
      counter had run out for both and the millisecond clock read the same. */
  lemma IdsCollideOnlyOnceSaturated(ops: seq<Op>, i: nat, a: string, p: QueueId, j: nat, b: string, q: QueueId)
    requires i <= j < |ops| && (i < j || a != b)
    requires IssuedTo(ops, i, a, p) && IssuedTo(ops, j, b, q)
    ensures Print(p) == Print(q) <==>
            Saturated(ops, i, a) && Saturated(ops, j, b) && ClockOf(ops[i], a) == ClockOf(ops[j], b)
    ensures i < j && History(ops[..j]).counter < U64_MAX ==> Print(p) != Print(q)
  {
    IssuedShows(ops, i, a, p);
    IssuedShows(ops, j, b, q);
    if i < j {
      LaterIdsAreAbove(ops, i, a, p, j, b, q);
    } else {
      EveryHistoryIsConsistent(ops[..i]);
      IdsOfOneStep(History(ops[..i]), ops[i], a, p, b, q);
    }
    PrintInjective(p, q);
  }
}
