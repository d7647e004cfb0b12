/** Progress of the scheduler: rounds of `run_all` followed by closing what was queued. */
module TaskScheduler {
  import opened Prelude
  import opened TaskRecords
  import opened TaskDomain
  import opened TaskTheorems

  // ---- One round -----------------------------------------------------------------------------

  function CloseEach(d: Domain, ids: seq<string>, envs: string -> Env): Domain {
    if ids == [] then d
    else
      var before := CloseEach(d, ids[..|ids| - 1], envs);
      Close(before, ids[|ids| - 1], envs(ids[|ids| - 1])).domain
  }

  // `run_all`, then `close` on each task that was ready; clocks and disk are arbitrary.
  function Round(d: Domain, queueing: string -> Env, closing: string -> Env): Domain {
    CloseEach(RunAll(d, queueing).domain, ReadyIds(d.tasks), closing)
  }

  // What scheduling can see of a task.
  datatype Shape = Shape(status: Status, archived: bool, blockedBy: Option<string>)

  function ShapeOf(t: Task): Shape {
    Shape(t.status, t.archivedAt.Some?, t.blockedBy)
  }

  function Shapes(m: Tasks): map<string, Shape> {
    map k | k in m :: ShapeOf(m[k])
  }

  predicate IsOpen(s: Shape) {
    s.status.Open? && !s.archived
  }

  predicate Unblocks(m: map<string, Shape>, id: string) {
    id in m && (m[id].status.Closed? || m[id].archived)
  }

  predicate CanRun(m: map<string, Shape>, id: string) {
    id in m && IsOpen(m[id]) && (m[id].blockedBy.Some? ==> Unblocks(m, m[id].blockedBy.value))
  }

  // A round closes exactly the tasks that can run.
  function AfterRound(m: map<string, Shape>): map<string, Shape> {
    map k | k in m :: if CanRun(m, k) then m[k].(status := Closed) else m[k]
  }

  lemma ReadyMeansCanRun(m: Tasks, id: string)
    requires WellKeyed(m)
    ensures id in ReadyIds(m) <==> CanRun(Shapes(m), id)
  {
    ReadyIdsAreExact(m);
    if id in m && m[id].blockedBy.Some? {
      var b := m[id].blockedBy.value;
      assert b in UnblockingIds(m) <==> Unblocks(Shapes(m), b);
    }
  }

  // The tasks in `ids` have moved to `status`; otherwise scheduling sees no difference.
  ghost predicate Shifted(m: Tasks, ids: seq<string>, status: Status, after: Tasks) {
    && after.Keys == m.Keys && WellKeyed(after)
    && (forall k :: k in m && k in ids ==> ShapeOf(after[k]) == ShapeOf(m[k]).(status := status))
    && (forall k :: k in m && k !in ids ==> ShapeOf(after[k]) == ShapeOf(m[k]))
  }

  lemma PutShifts(m: Tasks, id: string, status: Status, t: Task)
    requires WellKeyed(m) && id in m && t.id == id && ShapeOf(t) == ShapeOf(m[id]).(status := status)
    ensures Shifted(m, [id], status, m[id := t])
  {}

  lemma MissingShifts(m: Tasks, id: string, status: Status)
    requires WellKeyed(m) && id !in m
    ensures Shifted(m, [id], status, m)
  {}

  lemma ClosedShape(t: Task, now: string)
    ensures var c := SetStatus(t, Closed, now).(updatedAt := now);
            c.id == t.id && ShapeOf(c) == ShapeOf(t).(status := Closed)
  {}

  lemma CloseOne(d: Domain, id: string, env: Env, after: Tasks)
    requires WellKeyed(d.tasks) && after == Close(d, id, env).domain.tasks
    ensures Shifted(d.tasks, [id], Closed, after)
  {
    if id in d.tasks {
      ClosedShape(d.tasks[id], env.now);
      PutShifts(d.tasks, id, Closed, SetStatus(d.tasks[id], Closed, env.now).(updatedAt := env.now));
    } else {
      MissingShifts(d.tasks, id, Closed);
    }
  }

  lemma ShiftedFurther(m: Tasks, front: seq<string>, id: string, status: Status, before: Tasks, after: Tasks)
    requires Shifted(m, front, status, before) && Shifted(before, [id], status, after)
    ensures Shifted(m, front + [id], status, after)
  {
    forall k | k in m
      ensures ShapeOf(after[k]) == if k in front + [id] then ShapeOf(m[k]).(status := status) else ShapeOf(m[k])
    {
      assert k in [id] <==> k == id;
    }
  }

  lemma {:induction false} CloseEachCloses(d: Domain, ids: seq<string>, envs: string -> Env)
    requires WellKeyed(d.tasks)
    ensures Shifted(d.tasks, ids, Closed, CloseEach(d, ids, envs).tasks)
  {
    if ids != [] {
      var front, id := ids[..|ids| - 1], ids[|ids| - 1];
      var before := CloseEach(d, front, envs);
      CloseEachCloses(d, front, envs);
      CloseOne(before, id, envs(id), CloseEach(d, ids, envs).tasks);
      ShiftedFurther(d.tasks, front, id, Closed, before.tasks, CloseEach(d, ids, envs).tasks);
      assert ids == front + [id];
    }
  }

  lemma MovedIsShifted(d: Domain, ids: seq<string>, envs: string -> Env, after: Domain)
    requires WellKeyed(d.tasks) && Idle(d.tasks, ids) && Moved(d, ids, envs, after)
    ensures Shifted(d.tasks, ids, Pending, after.tasks)
  {
    forall k | k in d.tasks && k in ids
      ensures after.tasks[k].id == k && ShapeOf(after.tasks[k]) == ShapeOf(d.tasks[k]).(status := Pending)
    {
      var i :| 0 <= i < |ids| && ids[i] == k;
      assert after.tasks[k] == MovedTask(d, ids, envs, i);
    }
  }

  lemma ShiftedTwice(m: Tasks, ids: seq<string>, queued: Tasks, closed: Tasks)
    requires WellKeyed(m) && Shifted(m, ids, Pending, queued) && Shifted(queued, ids, Closed, closed)
    requires forall k :: k in ids <==> CanRun(Shapes(m), k)
    ensures Shapes(closed) == AfterRound(Shapes(m))
  {
    forall k | k in m ensures Shapes(closed)[k] == AfterRound(Shapes(m))[k] {
      assert k in ids <==> CanRun(Shapes(m), k);
    }
  }

  /** A round of the real operations is a round of the shapes. */
  lemma RoundIsAfterRound(d: Domain, queueing: string -> Env, closing: string -> Env)
    requires WellKeyed(d.tasks)
    ensures WellKeyed(Round(d, queueing, closing).tasks)
    ensures Shapes(Round(d, queueing, closing).tasks) == AfterRound(Shapes(d.tasks))
  {
    var ids := ReadyIds(d.tasks);
    var queued := QueueEach(d, ids, queueing).domain;
    ReadyAreIdle(d.tasks);
    QueueEachMoves(d, ids, queueing);
    MovedIsShifted(d, ids, queueing, queued);
    CloseEachCloses(queued, ids, closing);
    forall k ensures k in ids <==> CanRun(Shapes(d.tasks), k) {
      ReadyMeansCanRun(d.tasks, k);
    }
    ShiftedTwice(d.tasks, ids, queued.tasks, CloseEach(queued, ids, closing).tasks);
  }

  // ---- Many rounds ---------------------------------------------------------------------------

  function AfterRounds(m: map<string, Shape>, n: nat): map<string, Shape> {
    if n == 0 then m else AfterRound(AfterRounds(m, n - 1))
  }

  // The blocker chain of an open task reaches a free end within `n` tasks.
  predicate Resolves(m: map<string, Shape>, id: string, n: nat)
    decreases n
  {
    n > 0 && id in m && IsOpen(m[id])
    && (m[id].blockedBy.None?
        || Unblocks(m, m[id].blockedBy.value)
        || Resolves(m, m[id].blockedBy.value, n - 1))
  }

  lemma {:induction false} ResolvesLonger(m: map<string, Shape>, id: string, n: nat)
    requires Resolves(m, id, n)
    ensures Resolves(m, id, n + 1)
    decreases n
  {
    if m[id].blockedBy.Some? && !Unblocks(m, m[id].blockedBy.value) {
      ResolvesLonger(m, m[id].blockedBy.value, n - 1);
    }
  }

  /** After `n` rounds exactly the open tasks whose chain resolves within `n` are closed; nothing else changed. */
  lemma {:induction false} RoundsCloseWhatResolves(m: map<string, Shape>, n: nat)
    ensures AfterRounds(m, n).Keys == m.Keys
    ensures forall id :: id in m ==>
              AfterRounds(m, n)[id] == if Resolves(m, id, n) then m[id].(status := Closed) else m[id]
  {
    if n > 0 {
      RoundsCloseWhatResolves(m, n - 1);
      var before := AfterRounds(m, n - 1);
      forall id | id in m
        ensures AfterRounds(m, n)[id] == if Resolves(m, id, n) then m[id].(status := Closed) else m[id]
      {
        if Resolves(m, id, n - 1) {
          ResolvesLonger(m, id, n - 1);
        } else if m[id].blockedBy.Some? {
          var b := m[id].blockedBy.value;
          assert Unblocks(before, b) <==> Unblocks(m, b) || Resolves(m, b, n - 1);
        }
      }
    }
  }

  // ---- How many rounds suffice ---------------------------------------------------------------

  function OpenIds(m: map<string, Shape>): set<string> {
    set k | k in m && IsOpen(m[k])
  }

  function Resolved(m: map<string, Shape>, n: nat): set<string> {
    set k | k in OpenIds(m) && Resolves(m, k, n)
  }

  lemma ResolvedStalls(m: map<string, Shape>, n: nat)
    requires Resolved(m, n + 1) == Resolved(m, n)
    ensures Resolved(m, n + 2) == Resolved(m, n + 1)
  {
    forall k | k in OpenIds(m) ensures Resolves(m, k, n + 2) <==> Resolves(m, k, n + 1) {
      if Resolves(m, k, n + 1) {
        ResolvesLonger(m, k, n + 1);
      }
      if m[k].blockedBy.Some? {
        var b := m[k].blockedBy.value;
        assert Resolves(m, b, n + 1) ==> b in Resolved(m, n + 1);
        assert b in Resolved(m, n) ==> Resolves(m, b, n);
      }
    }
  }

  // Every round that is not the last to achieve anything resolves at least one more task.
  lemma {:induction false} ResolvedGrows(m: map<string, Shape>, n: nat)
    ensures Resolved(m, n) <= Resolved(m, n + 1) <= OpenIds(m)
    ensures |Resolved(m, n)| >= n || Resolved(m, n + 1) == Resolved(m, n)
  {
    forall k | k in Resolved(m, n) ensures k in Resolved(m, n + 1) {
      ResolvesLonger(m, k, n);
    }
    if n > 0 {
      ResolvedGrows(m, n - 1);
      if Resolved(m, n) == Resolved(m, n - 1) {
        ResolvedStalls(m, n - 1);
      } else {
        StrictlyLarger(Resolved(m, n - 1), Resolved(m, n));
      }
    }
  }

  lemma StrictlyLarger<T>(a: set<T>, b: set<T>)
    requires a <= b && a != b
    ensures |a| < |b|
  {
    assert b == a + (b - a);
    assert b - a == {} ==> b == a;
  }

  lemma SubsetSize<T>(a: set<T>, b: set<T>)
    requires a <= b
    ensures |a| <= |b| && (|a| == |b| ==> a == b)
  {
    if a != b {
      StrictlyLarger(a, b);
    }
  }

  /** As many rounds as there are open tasks achieve all that any number of rounds can. */
  lemma {:induction false} EnoughRounds(m: map<string, Shape>, id: string, n: nat)
    requires Resolves(m, id, n)
    ensures Resolves(m, id, |OpenIds(m)|)
  {
    var all := |OpenIds(m)|;
    if n <= all {
      ResolvesAtLeast(m, id, n, all);
    } else {
      ResolvedGrows(m, n - 1);
      SubsetSize(Resolved(m, n - 1), OpenIds(m));
      SubsetSize(Resolved(m, n), OpenIds(m));
      assert id in Resolved(m, n);
      if Resolved(m, n) == Resolved(m, n - 1) {
        EnoughRounds(m, id, n - 1);
      } else {
        StrictlyLarger(Resolved(m, n - 1), Resolved(m, n));
      }
    }
  }

  lemma {:induction false} ResolvesAtLeast(m: map<string, Shape>, id: string, n: nat, more: nat)
    requires Resolves(m, id, n) && n <= more
    ensures Resolves(m, id, more)
    decreases more
  {
    if n < more {
      ResolvesAtLeast(m, id, n, more - 1);
      ResolvesLonger(m, id, more - 1);
    }
  }

  // ---- When everything gets done -------------------------------------------------------------

  // Every open task is free, or waits for an open task of smaller rank.
  ghost predicate RankedBlockers(m: map<string, Shape>, rank: map<string, nat>) {
    forall k :: k in OpenIds(m) ==> k in rank && BlockerBelow(m, rank, k)
  }

  predicate BlockerBelow(m: map<string, Shape>, rank: map<string, nat>, k: string)
    requires k in m && k in rank
  {
    m[k].blockedBy.None? || Unblocks(m, m[k].blockedBy.value)
    || (m[k].blockedBy.value in OpenIds(m) && m[k].blockedBy.value in rank && rank[m[k].blockedBy.value] < rank[k])
  }

  lemma {:induction false} RankBoundsChain(m: map<string, Shape>, rank: map<string, nat>, k: string)
    requires RankedBlockers(m, rank) && k in OpenIds(m)
    ensures Resolves(m, k, rank[k] + 1)
    decreases rank[k]
  {
    assert BlockerBelow(m, rank, k);
    if m[k].blockedBy.Some? && !Unblocks(m, m[k].blockedBy.value) {
      var b := m[k].blockedBy.value;
      RankBoundsChain(m, rank, b);
      ResolvesAtLeast(m, b, rank[b] + 1, rank[k]);
    }
  }

  // The length of the chain, as the least number of rounds after which the task is closed.
  function ChainLength(m: map<string, Shape>, k: string, n: nat): nat
    requires Resolves(m, k, n)
    decreases n
  {
    if m[k].blockedBy.None? || Unblocks(m, m[k].blockedBy.value) then 1
    else 1 + ChainLength(m, m[k].blockedBy.value, n - 1)
  }

  lemma {:induction false} ChainLengthIsFixed(m: map<string, Shape>, k: string, n: nat, n': nat)
    requires Resolves(m, k, n) && Resolves(m, k, n')
    ensures ChainLength(m, k, n) == ChainLength(m, k, n')
    decreases n
  {
    if m[k].blockedBy.Some? && !Unblocks(m, m[k].blockedBy.value) {
      ChainLengthIsFixed(m, m[k].blockedBy.value, n - 1, n' - 1);
    }
  }

  lemma ChainsRank(m: map<string, Shape>, n: nat) returns (rank: map<string, nat>)
    requires forall k :: k in OpenIds(m) ==> Resolves(m, k, n)
    ensures RankedBlockers(m, rank)
  {
    rank := map k | k in OpenIds(m) :: ChainLength(m, k, n);
    forall k | k in OpenIds(m) ensures BlockerBelow(m, rank, k) {
      assert Resolves(m, k, n);
      if m[k].blockedBy.Some? && !Unblocks(m, m[k].blockedBy.value) {
        ResolvesLonger(m, m[k].blockedBy.value, n - 1);
        ChainLengthIsFixed(m, m[k].blockedBy.value, n, n - 1);
      }
    }
  }

  /** As many rounds as there are open tasks leave no open unarchived task behind exactly when the blockers of
      the open tasks can be ranked, that is, when no chain runs into a cycle, a missing id or an unfinished task. */
  lemma AllGetDoneExactly(m: map<string, Shape>)
    ensures OpenIds(AfterRounds(m, |OpenIds(m)|)) == {} <==> exists rank :: RankedBlockers(m, rank)
  {
    var n := |OpenIds(m)|;
    var after := AfterRounds(m, n);
    RoundsCloseWhatResolves(m, n);
    if OpenIds(after) == {} {
      forall k | k in OpenIds(m) ensures Resolves(m, k, n) {
        assert k !in OpenIds(after);
      }
      var rank := ChainsRank(m, n);
    }
    if rank :| RankedBlockers(m, rank) {
      forall k | k in OpenIds(m) ensures Resolves(m, k, n) {
        RankBoundsChain(m, rank, k);
        EnoughRounds(m, k, rank[k] + 1);
      }
    }
  }

  // The clocks and the disk during one round of the real store.
  datatype RoundEnv = RoundEnv(queueing: string -> Env, closing: string -> Env)

  function Rounds(d: Domain, envs: seq<RoundEnv>): Domain {
    if envs == [] then d
    else
      var before := Rounds(d, envs[..|envs| - 1]);
      Round(before, envs[|envs| - 1].queueing, envs[|envs| - 1].closing)
  }

  lemma OneMoreRound(before: Domain, env: RoundEnv, m: map<string, Shape>)
    requires WellKeyed(before.tasks) && Shapes(before.tasks) == m
    ensures WellKeyed(Round(before, env.queueing, env.closing).tasks)
    ensures Shapes(Round(before, env.queueing, env.closing).tasks) == AfterRound(m)
  {
    RoundIsAfterRound(before, env.queueing, env.closing);
  }

  lemma {:induction false} RoundsAreAfterRounds(d: Domain, envs: seq<RoundEnv>)
    requires WellKeyed(d.tasks)
    ensures WellKeyed(Rounds(d, envs).tasks)
    ensures Shapes(Rounds(d, envs).tasks) == AfterRounds(Shapes(d.tasks), |envs|)
  {
    if envs != [] {
      var front := envs[..|envs| - 1];
      RoundsAreAfterRounds(d, front);
      OneMoreRound(Rounds(d, front), envs[|envs| - 1], AfterRounds(Shapes(d.tasks), |front|));
    }
  }

  function OpenTasks(m: Tasks): set<string> {
    set k | k in m && m[k].status.Open? && m[k].archivedAt.None?
  }

  /** The same for the store itself, from any state a history can reach, with any clocks and any disk failures. */
  lemma StoreGetsDoneExactly(ops: seq<Op>, envs: seq<RoundEnv>)
    requires |envs| == |OpenTasks(History(ops).tasks)|
    ensures OpenTasks(Rounds(History(ops), envs).tasks) == {}
            <==> exists rank :: RankedBlockers(Shapes(History(ops).tasks), rank)
  {
    var d := History(ops);
    EveryHistoryIsConsistent(ops);
    RoundsAreAfterRounds(d, envs);
    OpenTasksAreOpen(d.tasks);
    OpenTasksAreOpen(Rounds(d, envs).tasks);
    AllGetDoneExactly(Shapes(d.tasks));
  }

  lemma OpenTasksAreOpen(m: Tasks)
    ensures OpenIds(Shapes(m)) == OpenTasks(m)
  {
    assert forall k :: k in OpenIds(Shapes(m)) <==> k in OpenTasks(m);
  }

  // ---- Cycles --------------------------------------------------------------------------------

  // Open tasks each of which waits for one of them.
  predicate Deadlocked(m: map<string, Shape>, ids: set<string>) {
    forall k :: k in ids ==> k in OpenIds(m) && m[k].blockedBy.Some? && m[k].blockedBy.value in ids
  }

  lemma {:induction false} DeadlockNeverResolves(m: map<string, Shape>, ids: set<string>, k: string, n: nat)
    requires Deadlocked(m, ids) && k in ids
    ensures !Resolves(m, k, n)
    decreases n
  {
    if n > 0 {
      DeadlockNeverResolves(m, ids, m[k].blockedBy.value, n - 1);
    }
  }

  lemma CyclesStay(m: map<string, Shape>, ids: set<string>, k: string, n: nat)
    requires Deadlocked(m, ids) && k in ids
    ensures AfterRounds(m, n).Keys == m.Keys && AfterRounds(m, n)[k] == m[k] && !CanRun(AfterRounds(m, n), k)
  {
    RoundsCloseWhatResolves(m, n);
    RoundsCloseWhatResolves(m, n + 1);
    DeadlockNeverResolves(m, ids, k, n);
    DeadlockNeverResolves(m, ids, k, n + 1);
  }

  /** A task on a blocker cycle is never listed as ready and stays open, whatever rounds the store goes through. */
  lemma CyclesNeverRun(d: Domain, envs: seq<RoundEnv>, ids: set<string>, k: string)
    requires WellKeyed(d.tasks) && Deadlocked(Shapes(d.tasks), ids) && k in ids
    ensures k !in ReadyIds(Rounds(d, envs).tasks) && k in OpenTasks(Rounds(d, envs).tasks)
  {
    CyclesStay(Shapes(d.tasks), ids, k, |envs|);
    RoundsAreAfterRounds(d, envs);
    ReadyMeansCanRun(Rounds(d, envs).tasks, k);
    OpenTasksAreOpen(Rounds(d, envs).tasks);
  }
}
