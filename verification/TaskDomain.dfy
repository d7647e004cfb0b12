/** The task store: its operations as state changes, and the class that performs them in place. */
module TaskDomain {
  import opened Prelude
  import opened TaskRecords
  import opened Sequences
  import opened QueueIds

  // What an operation reads from outside: two clock readings, the millisecond clock, and whether the disk obeys.
  datatype Env = Env(now: string, later: string, millis: int, disk: bool)

  datatype Error =
    | NotFound(id: string)
    | AlreadyExists(id: string)
    | AutoExecuteNotOpen(id: string, status: Status)
    | CannotDelete(id: string, status: Status)
    | NotFailed(id: string, status: Status)
    | NotCancellable(id: string, status: Status)
    | IsArchived(id: string)
    | AlreadyQueued(id: string, status: Status)
    | PersistFailed

  datatype Domain = Domain(tasks: Tasks, counter: Word64)
  datatype Answer<T> = Answer(domain: Domain, result: Result<T, Error>)

  type Word8 = n: int | 0 <= n < 256

  datatype CreateParams = CreateParams(
    id: string, title: string, status: Option<Status>, priority: Option<Word8>, blockedBy: Option<string>,
    autoExecute: Option<bool>, mergeLoopPrompt: Option<string>)

  datatype UpdateInput = UpdateInput(
    id: string, title: Option<string>, status: Option<Status>, priority: Option<Word8>,
    blockedBy: Option<Option<string>>)

  datatype RunResult = RunResult(queuedTaskId: QueueId, task: Task)
  datatype RunAllResult = RunAllResult(enqueued: Word64, errors: seq<(string, Error)>)

  // ---- Record changes ------------------------------------------------------------------------

  function Clamp(p: int): int {
    if p < 1 then 1 else if p > 5 then 5 else p
  }

  function SetStatus(t: Task, status: Status, now: string): Task {
    t.(status := status,
       completedAt := if IsTerminal(status) then Some(now) else None,
       queuedTaskId := if IsActive(status) then t.queuedTaskId else None,
       errorMessage := if status.Failed? then t.errorMessage else None)
  }

  function Queued(t: Task, queueId: QueueId, now: string): Task {
    t.(status := Pending, queuedTaskId := Some(queueId), completedAt := None, errorMessage := None, updatedAt := now)
  }

  function Cancelled(t: Task, now: string): Task {
    t.(status := Failed, completedAt := Some(now), updatedAt := now,
       errorMessage := Some("Task cancelled by user"), queuedTaskId := None)
  }

  function Reopened(t: Task, now: string): Task {
    t.(status := Open, queuedTaskId := None, completedAt := None, errorMessage := None, updatedAt := now)
  }

  function NewTask(p: CreateParams, now: string): Task {
    var status := p.status.GetOr(Open);
    Task(p.id, p.title, status, Clamp(p.priority.GetOr(2)), p.blockedBy, None, None, p.mergeLoopPrompt,
         now, now, if IsTerminal(status) then Some(now) else None, None)
  }

  function Updated(t: Task, u: UpdateInput, now: string): Task {
    var titled := if u.title.Some? then t.(title := u.title.value) else t;
    var moved := if u.status.Some? then SetStatus(titled, u.status.value, now) else titled;
    var ranked := if u.priority.Some? then moved.(priority := Clamp(u.priority.value)) else moved;
    var linked := if u.blockedBy.Some? then ranked.(blockedBy := u.blockedBy.value) else ranked;
    linked.(updatedAt := now)
  }

  // ---- Operations ----------------------------------------------------------------------------

  function Put(d: Domain, id: string, t: Task): Domain {
    d.(tasks := d.tasks[id := t])
  }

  // Memory is changed before the disk is asked, so a failing disk reports an error and undoes nothing.
  function Saved<T>(d: Domain, value: T, disk: bool): Answer<T> {
    Answer(d, if disk then Ok(value) else Err(PersistFailed))
  }

  // Queueing that follows a change of the record reads the clock again.
  function AtQueueing(env: Env): Env {
    env.(now := env.later)
  }

  // The counter moves before anything can fail.
  function Queue(d: Domain, id: string, env: Env): Answer<QueueId> {
    var c := SaturatingAdd(d.counter, 1);
    var bumped := d.(counter := c);
    if id !in d.tasks then Answer(bumped, Err(NotFound(id)))
    else if d.tasks[id].archivedAt.Some? then Answer(bumped, Err(IsArchived(id)))
    else if IsActive(d.tasks[id].status) then Answer(bumped, Err(AlreadyQueued(id, d.tasks[id].status)))
    else
      var queueId := QueueId(env.millis, c);
      Saved(Put(bumped, id, Queued(d.tasks[id], queueId, env.now)), queueId, env.disk)
  }

  function Run(d: Domain, id: string, env: Env): Answer<RunResult> {
    var q := Queue(d, id, env);
    match q.result
    case Err(e) => Answer(q.domain, Err(e))
    case Ok(queueId) =>
      if id in q.domain.tasks then Answer(q.domain, Ok(RunResult(queueId, q.domain.tasks[id])))
      else Answer(q.domain, Err(NotFound(id)))
  }

  function Create(d: Domain, p: CreateParams, env: Env): Answer<Task> {
    var status := p.status.GetOr(Open);
    var autoExecute := p.autoExecute.GetOr(true);
    if p.id in d.tasks then Answer(d, Err(AlreadyExists(p.id)))
    else if autoExecute && !status.Open? then Answer(d, Err(AutoExecuteNotOpen(p.id, status)))
    else
      var t := NewTask(p, env.now);
      var inserted := Put(d, p.id, t);
      if autoExecute && p.blockedBy.None? then
        var run := Run(inserted, p.id, AtQueueing(env));
        Answer(run.domain, match run.result case Ok(r) => Ok(r.task) case Err(e) => Err(e))
      else Saved(inserted, t, env.disk)
  }

  function Change(d: Domain, id: string, f: Task -> Task, disk: bool): Answer<Task> {
    if id !in d.tasks then Answer(d, Err(NotFound(id)))
    else Saved(Put(d, id, f(d.tasks[id])), f(d.tasks[id]), disk)
  }

  function Update(d: Domain, u: UpdateInput, env: Env): Answer<Task> {
    Change(d, u.id, (t: Task) => Updated(t, u, env.now), env.disk)
  }

  function Close(d: Domain, id: string, env: Env): Answer<Task> {
    Change(d, id, (t: Task) => SetStatus(t, Closed, env.now).(updatedAt := env.now), env.disk)
  }

  function Archive(d: Domain, id: string, env: Env): Answer<Task> {
    Change(d, id, (t: Task) => t.(archivedAt := Some(env.now), updatedAt := env.later), env.disk)
  }

  function Unarchive(d: Domain, id: string, env: Env): Answer<Task> {
    Change(d, id, (t: Task) => t.(archivedAt := None, updatedAt := env.now), env.disk)
  }

  function Delete(d: Domain, id: string, env: Env): Answer<()> {
    if id !in d.tasks then Answer(d, Err(NotFound(id)))
    else if !IsTerminal(d.tasks[id].status) then Answer(d, Err(CannotDelete(id, d.tasks[id].status)))
    else Saved(d.(tasks := d.tasks - {id}), (), env.disk)
  }

  function Clear(d: Domain, env: Env): Answer<()> {
    Saved(d.(tasks := map[]), (), env.disk)
  }

  function Retry(d: Domain, id: string, env: Env): Answer<RunResult> {
    if id !in d.tasks then Answer(d, Err(NotFound(id)))
    else if !d.tasks[id].status.Failed? then Answer(d, Err(NotFailed(id, d.tasks[id].status)))
    else Run(Put(d, id, Reopened(d.tasks[id], env.now)), id, AtQueueing(env))
  }

  function Cancel(d: Domain, id: string, env: Env): Answer<Task> {
    if id !in d.tasks then Answer(d, Err(NotFound(id)))
    else if !IsActive(d.tasks[id].status) then Answer(d, Err(NotCancellable(id, d.tasks[id].status)))
    else Saved(Put(d, id, Cancelled(d.tasks[id], env.now)), Cancelled(d.tasks[id], env.now), env.disk)
  }

  // ---- Queries -------------------------------------------------------------------------------

  function UnblockingIds(m: Tasks): set<string> {
    set k | k in m && (m[k].status.Closed? || m[k].archivedAt.Some?) :: m[k].id
  }

  predicate IsReady(unblocking: set<string>, t: Task) {
    t.status.Open? && t.archivedAt.None? && (t.blockedBy.Some? ==> t.blockedBy.value in unblocking)
  }

  function Ready(m: Tasks): seq<Task> {
    var unblocking := UnblockingIds(m);
    SortBy((t: Task) => t.createdAt, Filter((t: Task) => IsReady(unblocking, t), Values(m)))
  }

  function IdsOf(ts: seq<Task>): seq<string> {
    seq(|ts|, i requires 0 <= i < |ts| => ts[i].id)
  }

  function ReadyIds(m: Tasks): seq<string> {
    IdsOf(Ready(m))
  }

  predicate IsQueued(t: Task) {
    t.queuedTaskId.Some? && IsActive(t.status)
  }

  function QueueOrder(m: Tasks): seq<Task> {
    SortBy((t: Task) => t.updatedAt, Filter((t: Task) => IsQueued(t), Values(m)))
  }

  // ---- Queueing several tasks ----------------------------------------------------------------

  datatype Batch = Batch(domain: Domain, enqueued: Word64, errors: seq<(string, Error)>)

  function QueueEach(d: Domain, ids: seq<string>, envs: string -> Env): Batch {
    if ids == [] then Batch(d, 0, [])
    else
      var before := QueueEach(d, ids[..|ids| - 1], envs);
      var id := ids[|ids| - 1];
      var q := Queue(before.domain, id, envs(id));
      match q.result
      case Ok(_) => Batch(q.domain, SaturatingAdd(before.enqueued, 1), before.errors)
      case Err(e) => Batch(q.domain, before.enqueued, before.errors + [(id, e)])
  }

  function RunAll(d: Domain, envs: string -> Env): Batch {
    QueueEach(d, ReadyIds(d.tasks), envs)
  }

  // ---- The store as the source has it --------------------------------------------------------

  class TaskStore {
    var tasks: Tasks
    var queueCounter: Word64

    constructor ()
      ensures Now() == Domain(map[], 0)
    {
      tasks, queueCounter := map[], 0;
    }

    function Now(): Domain
      reads this
    {
      Domain(tasks, queueCounter)
    }

    method CreateTask(p: CreateParams, env: Env) returns (r: Result<Task, Error>)
      modifies this
      ensures Answer(Now(), r) == Create(old(Now()), p, env)
    {
      if p.id in tasks {
        return Err(AlreadyExists(p.id));
      }
      var status := p.status.GetOr(Open);
      var autoExecute := p.autoExecute.GetOr(true);
      if autoExecute && status != Open {
        return Err(AutoExecuteNotOpen(p.id, status));
      }
      var completedAt := if IsTerminal(status) then Some(env.now) else None;
      var task := Task(p.id, p.title, status, Clamp(p.priority.GetOr(2)), p.blockedBy, None, None,
                       p.mergeLoopPrompt, env.now, env.now, completedAt, None);
      tasks := tasks[p.id := task];
      if autoExecute && tasks[p.id].blockedBy.None? && tasks[p.id].status.Open? {
        var run := RunTask(p.id, AtQueueing(env));
        match run {
          case Err(e) => return Err(e);
          case Ok(_) =>
        }
      } else if !env.disk {
        return Err(PersistFailed);
      }
      r := Ok(tasks[p.id]);
    }

    method UpdateTask(u: UpdateInput, env: Env) returns (r: Result<Task, Error>)
      modifies this
      ensures Answer(Now(), r) == Update(old(Now()), u, env)
    {
      if u.id !in tasks {
        return Err(NotFound(u.id));
      }
      var task := tasks[u.id];
      if u.title.Some? {
        task := task.(title := u.title.value);
      }
      if u.status.Some? {
        task := Transition(task, u.status.value, env.now);
      }
      if u.priority.Some? {
        task := task.(priority := Clamp(u.priority.value));
      }
      if u.blockedBy.Some? {
        task := task.(blockedBy := u.blockedBy.value);
      }
      tasks := tasks[u.id := task.(updatedAt := env.now)];
      r := if env.disk then Ok(tasks[u.id]) else Err(PersistFailed);
    }

    // The status change that `update` and `transition_task` both spell out.
    static method Transition(task: Task, status: Status, now: string) returns (t: Task)
      ensures t == SetStatus(task, status, now)
    {
      t := task.(status := status);
      if IsTerminal(status) {
        t := t.(completedAt := Some(now), queuedTaskId := None);
      } else {
        t := t.(completedAt := None);
        if !IsActive(status) {
          t := t.(queuedTaskId := None);
        }
      }
      if status != Failed {
        t := t.(errorMessage := None);
      }
    }

    method CloseTask(id: string, env: Env) returns (r: Result<Task, Error>)
      modifies this
      ensures Answer(Now(), r) == Close(old(Now()), id, env)
    {
      if id !in tasks {
        return Err(NotFound(id));
      }
      var task := Transition(tasks[id], Closed, env.now);
      tasks := tasks[id := task.(updatedAt := env.now)];
      r := if env.disk then Ok(tasks[id]) else Err(PersistFailed);
    }

    method ArchiveTask(id: string, env: Env) returns (r: Result<Task, Error>)
      modifies this
      ensures Answer(Now(), r) == Archive(old(Now()), id, env)
    {
      if id !in tasks {
        return Err(NotFound(id));
      }
      tasks := tasks[id := tasks[id].(archivedAt := Some(env.now), updatedAt := env.later)];
      r := if env.disk then Ok(tasks[id]) else Err(PersistFailed);
    }

    method UnarchiveTask(id: string, env: Env) returns (r: Result<Task, Error>)
      modifies this
      ensures Answer(Now(), r) == Unarchive(old(Now()), id, env)
    {
      if id !in tasks {
        return Err(NotFound(id));
      }
      tasks := tasks[id := tasks[id].(archivedAt := None, updatedAt := env.now)];
      r := if env.disk then Ok(tasks[id]) else Err(PersistFailed);
    }

    method DeleteTask(id: string, env: Env) returns (r: Result<(), Error>)
      modifies this
      ensures Answer(Now(), r) == Delete(old(Now()), id, env)
    {
      if id !in tasks {
        return Err(NotFound(id));
      }
      if !IsTerminal(tasks[id].status) {
        return Err(CannotDelete(id, tasks[id].status));
      }
      tasks := tasks - {id};
      r := if env.disk then Ok(()) else Err(PersistFailed);
    }

    method ClearTasks(env: Env) returns (r: Result<(), Error>)
      modifies this
      ensures Answer(Now(), r) == Clear(old(Now()), env)
    {
      tasks := map[];
      r := if env.disk then Ok(()) else Err(PersistFailed);
    }

    method QueueTask(id: string, env: Env) returns (r: Result<QueueId, Error>)
      modifies this
      ensures Answer(Now(), r) == Queue(old(Now()), id, env)
    {
      queueCounter := SaturatingAdd(queueCounter, 1);
      var queueId := QueueId(env.millis, queueCounter);
      if id !in tasks {
        return Err(NotFound(id));
      }
      var task := tasks[id];
      if task.archivedAt.Some? {
        return Err(IsArchived(id));
      }
      if IsActive(task.status) {
        return Err(AlreadyQueued(id, task.status));
      }
      task := task.(status := Pending, queuedTaskId := Some(queueId));
      task := task.(completedAt := None, errorMessage := None, updatedAt := env.now);
      tasks := tasks[id := task];
      r := if env.disk then Ok(queueId) else Err(PersistFailed);
    }

    method RunTask(id: string, env: Env) returns (r: Result<RunResult, Error>)
      modifies this
      ensures Answer(Now(), r) == Run(old(Now()), id, env)
    {
      var q := QueueTask(id, env);
      match q {
        case Err(e) => r := Err(e);
        case Ok(queueId) =>
          r := if id in tasks then Ok(RunResult(queueId, tasks[id])) else Err(NotFound(id));
      }
    }

    method RetryTask(id: string, env: Env) returns (r: Result<RunResult, Error>)
      modifies this
      ensures Answer(Now(), r) == Retry(old(Now()), id, env)
    {
      if id !in tasks {
        return Err(NotFound(id));
      }
      if tasks[id].status != Failed {
        return Err(NotFailed(id, tasks[id].status));
      }
      var task := tasks[id].(status := Open, queuedTaskId := None, completedAt := None);
      tasks := tasks[id := task.(errorMessage := None, updatedAt := env.now)];
      r := RunTask(id, AtQueueing(env));
    }

    method CancelTask(id: string, env: Env) returns (r: Result<Task, Error>)
      modifies this
      ensures Answer(Now(), r) == Cancel(old(Now()), id, env)
    {
      if id !in tasks {
        return Err(NotFound(id));
      }
      if !IsActive(tasks[id].status) {
        return Err(NotCancellable(id, tasks[id].status));
      }
      var task := tasks[id].(status := Failed, completedAt := Some(env.now), updatedAt := env.now);
      tasks := tasks[id := task.(errorMessage := Some("Task cancelled by user"), queuedTaskId := None)];
      r := if env.disk then Ok(tasks[id]) else Err(PersistFailed);
    }

    method RunAllTasks(envs: string -> Env) returns (r: RunAllResult)
      modifies this
      ensures Batch(Now(), r.enqueued, r.errors) == RunAll(old(Now()), envs)
    {
      ghost var start := Now();
      var ids := ReadyIds(tasks);
      var enqueued: Word64 := 0;
      var errors: seq<(string, Error)> := [];
      for i := 0 to |ids|
        invariant Batch(Now(), enqueued, errors) == QueueEach(start, ids[..i], envs)
      {
        assert ids[..i + 1][..i] == ids[..i];
        var q := QueueTask(ids[i], envs(ids[i]));
        match q {
          case Ok(_) => enqueued := SaturatingAdd(enqueued, 1);
          case Err(e) => errors := errors + [(ids[i], e)];
        }
      }
      assert ids[..|ids|] == ids;
      r := RunAllResult(enqueued, errors);
    }

    // The index of the task in the queue, if it is there.
    method QueuePosition(id: string) returns (position: Option<nat>)
      ensures position.Some? ==> position.value < |QueueOrder(tasks)| && QueueOrder(tasks)[position.value].id == id
      ensures position.Some? ==> forall j :: 0 <= j < position.value ==> QueueOrder(tasks)[j].id != id
      ensures position.None? ==> forall j :: 0 <= j < |QueueOrder(tasks)| ==> QueueOrder(tasks)[j].id != id
    {
      var queued := Filter((t: Task) => IsQueued(t), Values(tasks));
      queued := SortBy((t: Task) => t.updatedAt, queued);
      var i := 0;
      while i < |queued|
        invariant 0 <= i <= |queued|
        invariant forall j :: 0 <= j < i ==> queued[j].id != id
      {
        if queued[i].id == id {
          return Some(i);
        }
        i := i + 1;
      }
      position := None;
    }
  }
}
