/** Restarts: what the snapshot on disk holds, and which promises survive loading it again. */
module TaskRestarts {
  import opened Prelude
  import opened Sequences
  import opened TaskRecords
  import opened TaskDomain
  import opened TaskTheorems
  import opened TaskQueueIds
  import opened QueueIds

  // The store in memory and the snapshot last written.
  datatype World = World(memory: Domain, disk: Domain)

  // A restart finds a readable snapshot or starts empty.
  datatype Step = Perform(op: Op) | Restart(found: bool)

  const EMPTY := Domain(map[], 0)

  // Every successful save writes the whole store.
  function SnapshotOfEach(d: Domain, ids: seq<string>, envs: string -> Env, disk: Domain): Domain {
    if ids == [] then disk
    else
      var front, id := ids[..|ids| - 1], ids[|ids| - 1];
      var q := Queue(QueueEach(d, front, envs).domain, id, envs(id));
      if q.result.Ok? then q.domain else SnapshotOfEach(d, front, envs, disk)
  }

  function Snapshot(d: Domain, op: Op, disk: Domain): Domain {
    match op
    case OpRunAll(envs) => SnapshotOfEach(d, ReadyIds(d.tasks), envs, disk)
    case _ => if Apply(d, op).error.None? then Apply(d, op).domain else disk
  }

  function Loaded(w: World, found: bool): Domain {
    if found then w.disk else EMPTY
  }

  function After(w: World, step: Step): World {
    match step
    case Perform(op) => World(Apply(w.memory, op).domain, Snapshot(w.memory, op, w.disk))
    case Restart(found) => World(Loaded(w, found), w.disk)
  }

  function Life(steps: seq<Step>): World {
    if steps == [] then World(EMPTY, EMPTY) else After(Life(steps[..|steps| - 1]), steps[|steps| - 1])
  }

  // ---- The invariant survives ----------------------------------------------------------------

  lemma EmptyIsConsistent()
    ensures Consistent(EMPTY)
  {}

  lemma {:induction false} SavedEachIsConsistent(d: Domain, ids: seq<string>, envs: string -> Env, disk: Domain)
    requires Consistent(d) && Consistent(disk)
    ensures Consistent(SnapshotOfEach(d, ids, envs, disk))
  {
    if ids != [] {
      var front, id := ids[..|ids| - 1], ids[|ids| - 1];
      SavedEachIsConsistent(d, front, envs, disk);
      ConsistentAfterQueueEach(d, front, envs);
      ConsistentAfterQueue(QueueEach(d, front, envs).domain, id, envs(id));
    }
  }

  lemma SavedIsConsistent(d: Domain, op: Op, disk: Domain)
    requires Consistent(d) && Consistent(disk)
    ensures Consistent(Snapshot(d, op, disk))
  {
    if op.OpRunAll? {
      SavedEachIsConsistent(d, ReadyIds(d.tasks), op.envs, disk);
    } else {
      ConsistentAfterOp(d, op);
    }
  }

  /** Whatever is done, and however often the process restarts, with or without its snapshot: store and snapshot keep
      the joint invariant. */
  lemma {:induction false} EveryLifeIsConsistent(steps: seq<Step>)
    ensures Consistent(Life(steps).memory) && Consistent(Life(steps).disk)
  {
    if steps == [] {
      EmptyIsConsistent();
    } else {
      var w := Life(steps[..|steps| - 1]);
      EveryLifeIsConsistent(steps[..|steps| - 1]);
      match steps[|steps| - 1] {
        case Perform(op) =>
          ConsistentAfterOp(w.memory, op);
          SavedIsConsistent(w.memory, op, w.disk);
        case Restart(_) => EmptyIsConsistent();
      }
    }
  }

  // ---- Ids across restarts -------------------------------------------------------------------

  // Step `i` gives task `k` the id `q`.
  predicate Gives(steps: seq<Step>, i: nat, k: string, q: QueueId)
    requires i < |steps|
  {
    steps[i].Perform? && Issues(Life(steps[..i]).memory, steps[i].op, k, q)
  }

  function MemoryAt(steps: seq<Step>, i: nat): Domain
    requires i <= |steps|
  {
    Life(steps[..i]).memory
  }

  // The number that step `i` gives to task `k`, and the clock it reads.
  function NumberAt(steps: seq<Step>, i: nat, k: string): Word64
    requires i < |steps| && steps[i].Perform?
  {
    Counter(MemoryAt(steps, i).counter, TurnOf(MemoryAt(steps, i), steps[i].op, k))
  }

  lemma GivesWhat(steps: seq<Step>, i: nat, k: string, q: QueueId)
    requires i < |steps| && Gives(steps, i, k, q)
    ensures q == QueueId(ClockOf(steps[i].op, k), NumberAt(steps, i, k))
    ensures MemoryAt(steps, i + 1) == Apply(MemoryAt(steps, i), steps[i].op).domain
    ensures q.counter <= MemoryAt(steps, i + 1).counter
  {
    EveryLifeIsConsistent(steps[..i]);
    IssuedIdsAre(MemoryAt(steps, i), steps[i].op, k, q);
    assert steps[..i + 1][..i] == steps[..i];
  }

  // Every restart between two steps finds a snapshot that knows of the number.
  predicate Remembered(steps: seq<Step>, i: nat, j: nat, number: Word64)
    requires j <= |steps|
  {
    forall r :: i < r < j && steps[r].Restart? ==> number <= Loaded(Life(steps[..r]), steps[r].found).counter
  }

  lemma {:induction false} MemoryRemembers(steps: seq<Step>, i: nat, j: nat, number: Word64)
    requires i < j <= |steps| && Remembered(steps, i, j, number) && number <= MemoryAt(steps, i + 1).counter
    ensures number <= MemoryAt(steps, j).counter
    decreases j
  {
    if i + 1 < j {
      MemoryRemembers(steps, i, j - 1, number);
      assert steps[..j][..j - 1] == steps[..j - 1];
      if steps[j - 1].Perform? {
        CounterNeverFalls(MemoryAt(steps, j - 1), steps[j - 1].op);
      }
    }
  }

  // The counter has run out by the time step `i` queues `k`.
  predicate RunOut(steps: seq<Step>, i: nat, k: string)
    requires i < |steps| && steps[i].Perform?
  {
    NumberAt(steps, i, k) == U64_MAX
  }

  /** Across restarts two ids print the same exactly when clocks and numbers agree. If every restart in between found a
      snapshot that knew of the earlier one, that is only once the counter has run out. */
  lemma IdsAcrossRestarts(steps: seq<Step>, i: nat, a: string, p: QueueId, j: nat, b: string, q: QueueId)
    requires i < j < |steps| && Gives(steps, i, a, p) && Gives(steps, j, b, q)
    ensures Print(p) == Print(q) <==>
            ClockOf(steps[i].op, a) == ClockOf(steps[j].op, b) && NumberAt(steps, i, a) == NumberAt(steps, j, b)
    ensures Remembered(steps, i, j, p.counter) ==>
              (NumberAt(steps, i, a) == NumberAt(steps, j, b) <==> RunOut(steps, i, a))
  {
    GivesWhat(steps, i, a, p);
    GivesWhat(steps, j, b, q);
    PrintInjective(p, q);
    if Remembered(steps, i, j, p.counter) {
      MemoryRemembers(steps, i, j, p.counter);
    }
  }

  // ---- Saved calls ---------------------------------------------------------------------------

  predicate SnapshotsFound(steps: seq<Step>) {
    forall r :: 0 <= r < |steps| && steps[r].Restart? ==> steps[r].found
  }

  lemma {:induction false} SavedEachLags(d: Domain, ids: seq<string>, envs: string -> Env, disk: Domain)
    requires disk.counter <= d.counter
    ensures disk.counter <= SnapshotOfEach(d, ids, envs, disk).counter <= QueueEach(d, ids, envs).domain.counter
  {
    if ids != [] {
      var front, id := ids[..|ids| - 1], ids[|ids| - 1];
      SavedEachLags(d, front, envs, disk);
      QueueEachCounts(d, front, envs);
    }
  }

  lemma SavedLags(d: Domain, op: Op, disk: Domain)
    requires disk.counter <= d.counter
    ensures disk.counter <= Snapshot(d, op, disk).counter <= Apply(d, op).domain.counter
  {
    CounterNeverFalls(d, op);
    if op.OpRunAll? {
      SavedEachLags(d, ReadyIds(d.tasks), op.envs, disk);
    }
  }

  // While snapshots are found the snapshot never knows more than memory, and never forgets.
  lemma {:induction false} DiskLags(steps: seq<Step>, i: nat)
    requires i <= |steps| && SnapshotsFound(steps)
    ensures Life(steps).disk.counter <= Life(steps).memory.counter
    ensures Life(steps[..i]).disk.counter <= Life(steps).disk.counter
    decreases |steps|
  {
    if steps != [] {
      var front, last := steps[..|steps| - 1], steps[|steps| - 1];
      DiskLags(front, if i < |steps| then i else |front|);
      if last.Perform? {
        SavedLags(Life(front).memory, last.op, Life(front).disk);
      }
      assert if i < |steps| then front[..i] == steps[..i] else steps[..i] == steps;
    } else {
      assert steps[..i] == steps;
    }
  }

  lemma SavedIsRemembered(steps: seq<Step>, i: nat, j: nat, number: Word64)
    requires i < j <= |steps| && SnapshotsFound(steps) && number <= Life(steps[..i + 1]).disk.counter
    ensures Remembered(steps, i, j, number)
  {
    forall r | i < r < j && steps[r].Restart? ensures number <= Loaded(Life(steps[..r]), steps[r].found).counter {
      DiskLags(steps[..r], i + 1);
      assert steps[..r][..i + 1] == steps[..i + 1];
    }
  }

  // The disk obeys when `k` is queued.
  function DiskObeys(op: Op, k: string): bool {
    match op
    case OpRunAll(envs) => envs(k).disk
    case _ => op.env.disk
  }

  lemma OneMoreSave(d: Domain, front: seq<string>, id: string, envs: string -> Env)
    requires Idle(d.tasks, front) && Idle(d.tasks, front + [id])
    ensures var q := Queue(QueueEach(d, front, envs).domain, id, envs(id));
            (q.result.Ok? <==> envs(id).disk) && q.domain.counter == Counter(d.counter, |front| + 1)
  {
    QueueEachMoves(d, front, envs);
    MovedFurther(d, front, id, envs, QueueEach(d, front, envs).domain);
  }

  lemma SnapshotOfOneMore(d: Domain, front: seq<string>, id: string, envs: string -> Env, disk: Domain)
    ensures var q := Queue(QueueEach(d, front, envs).domain, id, envs(id));
            SnapshotOfEach(d, front + [id], envs, disk)
            == if q.result.Ok? then q.domain else SnapshotOfEach(d, front, envs, disk)
  {
    assert (front + [id])[..|front|] == front;
  }

  lemma {:induction false} EachSaveKnows(d: Domain, ids: seq<string>, envs: string -> Env, disk: Domain, n: nat)
    requires Idle(d.tasks, ids) && n < |ids| && envs(ids[n]).disk
    ensures Counter(d.counter, n + 1) <= SnapshotOfEach(d, ids, envs, disk).counter
  {
    var front, id := ids[..|ids| - 1], ids[|ids| - 1];
    IdleFront(d.tasks, ids);
    assert front + [id] == ids;
    OneMoreSave(d, front, id, envs);
    SnapshotOfOneMore(d, front, id, envs, disk);
    if n < |front| {
      EachSaveKnows(d, front, envs, disk, n);
    }
  }

  lemma RunAllSaveKnows(d: Domain, ids: seq<string>, envs: string -> Env, disk: Domain, k: string)
    requires WellKeyed(d.tasks) && ids == ReadyIds(d.tasks) && k in ids && envs(k).disk
    ensures Counter(d.counter, Index(ids, k) + 1) <= SnapshotOfEach(d, ids, envs, disk).counter
  {
    ReadyAreIdle(d.tasks);
    FirstIsAt(ids, k);
    EachSaveKnows(d, ids, envs, disk, Index(ids, k));
  }

  lemma ObeyedRun(d: Domain, id: string, env: Env, k: string, q: QueueId)
    requires env.disk && Bears(Queue(d, id, env).domain.tasks, k, q) && !Bears(d.tasks, k, q)
    ensures Run(d, id, env).result.Ok?
  {}

  lemma ObeyedCalls(d: Domain, op: Op, k: string, q: QueueId)
    requires !op.OpRunAll? && op.env.disk && Issues(d, op, k, q)
    ensures Apply(d, op).error.None?
  {
    match op {
      case OpCreate(p, env) => ObeyedRun(Put(d, p.id, NewTask(p, env.now)), p.id, AtQueueing(env), k, q);
      case OpRun(id, env) => ObeyedRun(d, id, env, k, q);
      case OpRetry(id, env) => ObeyedRun(Put(d, id, Reopened(d.tasks[id], env.now)), id, AtQueueing(env), k, q);
      case _ => OthersIssueNothing(d, op, k, q);
    }
  }

  lemma OneSaveKnows(d: Domain, op: Op, disk: Domain, k: string, q: QueueId)
    requires !op.OpRunAll? && op.env.disk && Issues(d, op, k, q)
    ensures q.counter <= Snapshot(d, op, disk).counter
  {
    OneIdIs(d, op, k, q);
    ObeyedCalls(d, op, k, q);
  }

  lemma SnapshotKnows(d: Domain, op: Op, disk: Domain, k: string, q: QueueId)
    requires WellKeyed(d.tasks) && Issues(d, op, k, q) && DiskObeys(op, k)
    ensures q.counter <= Snapshot(d, op, disk).counter
  {
    if op.OpRunAll? {
      var ids := ReadyIds(d.tasks);
      RunAllIssues(d, ids, op.envs, Apply(d, op).domain, k, q);
      RunAllSaveKnows(d, ids, op.envs, disk, k);
    } else {
      OneSaveKnows(d, op, disk, k, q);
    }
  }

  lemma DiskAfter(steps: seq<Step>, i: nat)
    requires i < |steps| && steps[i].Perform?
    ensures Life(steps[..i + 1]).disk == Snapshot(Life(steps[..i]).memory, steps[i].op, Life(steps[..i]).disk)
  {
    assert steps[..i + 1][..i] == steps[..i];
  }

  /** An id issued while the disk obeys is known to the snapshot, whichever operation issues it. */
  lemma ObeyedIdsAreSaved(steps: seq<Step>, i: nat, k: string, q: QueueId)
    requires i < |steps| && Gives(steps, i, k, q) && DiskObeys(steps[i].op, k)
    ensures q.counter <= Life(steps[..i + 1]).disk.counter
  {
    EveryLifeIsConsistent(steps[..i]);
    SnapshotKnows(Life(steps[..i]).memory, steps[i].op, Life(steps[..i]).disk, k, q);
    DiskAfter(steps, i);
  }

  /** Where snapshots are found, an id issued while the disk obeyed differs from all later ones until the counter has
      run out, and after that wherever the clock readings differ. */
  lemma SavedIdsStayDistinct(steps: seq<Step>, i: nat, a: string, p: QueueId, j: nat, b: string, q: QueueId)
    requires i < j < |steps| && Gives(steps, i, a, p) && Gives(steps, j, b, q) && SnapshotsFound(steps)
    requires DiskObeys(steps[i].op, a)
    ensures Print(p) == Print(q) <==>
            RunOut(steps, i, a) && ClockOf(steps[i].op, a) == ClockOf(steps[j].op, b)
  {
    ObeyedIdsAreSaved(steps, i, a, p);
    SavedIsRemembered(steps, i, j, p.counter);
    IdsAcrossRestarts(steps, i, a, p, j, b, q);
  }

  lemma LifeOfOneMore(steps: seq<Step>, step: Step)
    ensures Life(steps + [step]) == After(Life(steps), step)
  {
    assert (steps + [step])[..|steps|] == steps;
  }

  lemma CreateNumbersOne(p: CreateParams, env: Env, disk: Domain)
    requires p.status.None? && p.autoExecute.None? && p.blockedBy.None?
    ensures Issues(EMPTY, OpCreate(p, env), p.id, QueueId(env.millis, 1))
    ensures !env.disk ==> Snapshot(EMPTY, OpCreate(p, env), disk) == disk
  {
    QueueIdle(Put(EMPTY, p.id, NewTask(p, env.now)), p.id, AtQueueing(env));
  }

  /** Without the save the same id comes back: a create whose save fails, a restart, and a create in the same
      millisecond. */
  lemma UnsavedIdComesBack(p: CreateParams, env: Env, steps: seq<Step>)
    requires p.status.None? && p.autoExecute.None? && p.blockedBy.None? && !env.disk
    requires steps == [Perform(OpCreate(p, env)), Restart(true), Perform(OpCreate(p, env))]
    ensures Gives(steps, 0, p.id, QueueId(env.millis, 1)) && Gives(steps, 2, p.id, QueueId(env.millis, 1))
  {
    var create := Perform(OpCreate(p, env));
    CreateNumbersOne(p, env, EMPTY);
    LifeOfOneMore([], create);
    LifeOfOneMore([create], Restart(true));
    assert steps[..0] == [] && [] + [create] == [create] && steps[..2] == [create] + [Restart(true)];
  }
}
