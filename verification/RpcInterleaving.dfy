/** Concurrent requests over one store. A mutating request checks its key, dispatches, and stores the answer, in
    three steps between which anything may happen: the lock is held during a check and during a store, not across.
    The log of what happened is the specification; the expiring map is shown to agree with it. */
module RpcInterleaving {
  import opened Prelude
  import opened Protocol
  import opened Idempotency
  import Json

  // A method and an idempotency key.
  datatype Pair = Pair(rpc: string, key: string)

  // A request is named by the position of its check in the log.
  datatype Event =
    | Checked(pair: Pair, params: Json.Value, verdict: Check, at: nat)
    | Dispatched(pair: Pair, check: nat, at: nat)
    | Kept(pair: Pair, params: Json.Value, response: Stored, check: nat, at: nat)

  datatype Pending = Pending(pair: Pair, params: Json.Value, dispatched: bool)
  datatype State = State(entries: Entries, ttl: nat, now: nat, pending: map<nat, Pending>, log: seq<Event>)

  // A pruning takes time and judges each entry at an instant of its own.
  ghost predicate Between(now: nat, clock: Clock, later: nat) {
    now <= later && forall k: string :: now <= clock(k) <= later
  }

  datatype Step =
    | Tick(elapsed: nat)
    | Arrive(pair: Pair, params: Json.Value, clock: Clock, later: nat)
    | Dispatch(check: nat)
    | Finish(check: nat, response: Stored, clock: Clock, later: nat)

  function Start(ttl: nat): State {
    State(map[], ttl, 0, map[], [])
  }

  ghost predicate Enabled(s: State, step: Step) {
    match step
    case Tick(_) => true
    case Arrive(pair, _, clock, later) => IsMutating(pair.rpc) && Between(s.now, clock, later)
    case Dispatch(c) => c in s.pending && !s.pending[c].dispatched
    case Finish(c, _, clock, later) => c in s.pending && s.pending[c].dispatched && Between(s.now, clock, later)
  }

  function StoreKeyOf(pair: Pair): string {
    MakeKey(pair.rpc, pair.key)
  }

  // The three steps of `execute_request`; a replayed or conflicting request ends at its check.
  ghost function Apply(s: State, step: Step): State
    requires Enabled(s, step)
  {
    match step
    case Tick(elapsed) => s.(now := s.now + elapsed)
    case Arrive(pair, params, clock, later) => Arrived(s, pair, params, clock, later)
    case Dispatch(c) =>
      var p := s.pending[c];
      s.(pending := s.pending[c := p.(dispatched := true)],
         log := s.log + [Dispatched(p.pair, c, s.now)])
    case Finish(c, response, clock, later) => Finished(s, c, response, clock, later)
  }

  // A check, at the instant at which its own entry is judged.
  function Arrived(s: State, pair: Pair, params: Json.Value, clock: Clock, later: nat): State {
    var live := Pruned(s.entries, s.ttl, clock);
    var verdict := Answer(live, StoreKeyOf(pair), params);
    s.(entries := live,
       now := later,
       pending := if verdict.New? then s.pending[|s.log| := Pending(pair, params, false)] else s.pending,
       log := s.log + [Checked(pair, params, verdict, clock(StoreKeyOf(pair)))])
  }

  // Storing an answer, at the instant the new entry shows.
  function Finished(s: State, c: nat, response: Stored, clock: Clock, later: nat): State
    requires c in s.pending
  {
    var p := s.pending[c];
    s.(entries := Pruned(s.entries, s.ttl, clock)[StoreKeyOf(p.pair) := Entry(p.params, response, later)],
       now := later,
       pending := s.pending - {c},
       log := s.log + [Kept(p.pair, p.params, response, c, later)])
  }

  // The state after a run of steps, if each was possible when it was taken.
  ghost function Run(s: State, steps: seq<Step>): Option<State> {
    if steps == [] then Some(s)
    else
      match Run(s, steps[..|steps| - 1])
      case None => None
      case Some(t) => if Enabled(t, steps[|steps| - 1]) then Some(Apply(t, steps[|steps| - 1])) else None
  }

  // ---- The log as specification --------------------------------------------------------------

  predicate IsKept(e: Event, pair: Pair) {
    e.Kept? && e.pair == pair
  }

  // The position of the last answer kept for a pair, plus one; 0 if there is none.
  function LastKept(log: seq<Event>, pair: Pair): (n: nat)
    ensures n <= |log|
    ensures n > 0 ==> IsKept(log[n - 1], pair)
    ensures forall i :: n <= i < |log| ==> !IsKept(log[i], pair)
  {
    if log == [] then 0
    else if IsKept(log[|log| - 1], pair) then |log|
    else LastKept(log[..|log| - 1], pair)
  }

  // What a check must answer, by the log alone.
  function Verdict(log: seq<Event>, ttl: nat, pair: Pair, params: Json.Value, now: nat): Check {
    var n := LastKept(log, pair);
    if n == 0 || now - log[n - 1].at > ttl then New
    else if log[n - 1].params == params then Replayed(log[n - 1].response)
    else Conflicting
  }

  function EntryOf(e: Event): Entry
    requires e.Kept?
  {
    Entry(e.params, e.response, e.at)
  }

  // Methods without a colon, as all mutating ones are.
  predicate IsPlain(pair: Pair) {
    ':' !in pair.rpc
  }

  // The map remembers the last kept answer of every pair until it expires.
  ghost predicate Agrees(entries: Entries, ttl: nat, log: seq<Event>, now: nat) {
    forall pair: Pair :: IsPlain(pair) ==> AgreesOn(entries, ttl, log, now, pair)
  }

  predicate AgreesOn(entries: Entries, ttl: nat, log: seq<Event>, now: nat, pair: Pair) {
    var n := LastKept(log, pair);
    var k := StoreKeyOf(pair);
    && (k in entries ==> n > 0 && entries[k] == EntryOf(log[n - 1]))
    && (n > 0 && now - log[n - 1].at <= ttl ==> k in entries)
  }

  ghost predicate Inv(s: State) {
    && TimesRise(s.log, s.now)
    && Agrees(s.entries, s.ttl, s.log, s.now)
    && (forall c :: c in s.pending ==> IsOpen(s.log, c, s.pending[c]))
    && (forall i :: 0 <= i < |s.log| ==> Grounded(s.log, s.ttl, i))
  }

  predicate TimesRise(log: seq<Event>, now: nat) {
    && (forall i :: 0 <= i < |log| ==> log[i].at <= now)
    && (forall i, j :: 0 <= i <= j < |log| ==> log[i].at <= log[j].at)
  }

  // A request still under way was told to go ahead.
  predicate IsOpen(log: seq<Event>, c: nat, p: Pending) {
    && c < |log| && log[c].Checked? && log[c].verdict.New?
    && IsPlain(log[c].pair) && log[c].pair == p.pair && log[c].params == p.params
    && (!p.dispatched ==> Unused(log, |log|, c)) && NotKept(log, |log|, c)
  }

  predicate Unused(log: seq<Event>, n: nat, c: nat)
    requires n <= |log|
  {
    forall i :: 0 <= i < n && log[i].Dispatched? ==> log[i].check != c
  }

  predicate NotKept(log: seq<Event>, n: nat, c: nat)
    requires n <= |log|
  {
    forall i :: 0 <= i < n && log[i].Kept? ==> log[i].check != c
  }

  // Every event follows from what the log held before it.
  predicate Grounded(log: seq<Event>, ttl: nat, i: nat)
    requires i < |log|
  {
    match log[i]
    case Checked(pair, params, verdict, at) => verdict == Verdict(log[..i], ttl, pair, params, at)
    case Dispatched(pair, c, _) =>
      c < i && log[c].Checked? && log[c].verdict.New? && log[c].pair == pair
      && Unused(log, i, c) && NotKept(log, i, c)
    case Kept(pair, params, _, c, _) =>
      c < i && log[c].Checked? && log[c].verdict.New? && log[c].pair == pair && log[c].params == params
      && NotKept(log, i, c)
  }

  lemma GroundedExtends(log: seq<Event>, ttl: nat, i: nat, e: Event)
    requires i < |log| && Grounded(log, ttl, i)
    ensures Grounded(log + [e], ttl, i)
  {
    assert (log + [e])[..i] == log[..i];
  }

  lemma LastKeptExtends(log: seq<Event>, e: Event, pair: Pair)
    ensures LastKept(log + [e], pair) == if IsKept(e, pair) then |log| + 1 else LastKept(log, pair)
  {
    assert (log + [e])[..|log|] == log;
  }

  /** Refinement: whatever was pruned or overwritten, a check of the map answers what the log prescribes. */
  lemma CheckAgreesWithLog(s: State, pair: Pair, params: Json.Value, clock: Clock)
    requires Inv(s) && IsPlain(pair) && s.now <= clock(StoreKeyOf(pair))
    ensures Answer(Pruned(s.entries, s.ttl, clock), StoreKeyOf(pair), params)
            == Verdict(s.log, s.ttl, pair, params, clock(StoreKeyOf(pair)))
  {
    assert AgreesOn(s.entries, s.ttl, s.log, s.now, pair);
  }

  lemma AgreesAfterPruning(entries: Entries, ttl: nat, log: seq<Event>, now: nat, clock: Clock, later: nat, e: Event)
    requires Agrees(entries, ttl, log, now) && !e.Kept? && Between(now, clock, later)
    ensures Agrees(Pruned(entries, ttl, clock), ttl, log + [e], later)
  {
    forall pair: Pair | IsPlain(pair)
      ensures AgreesOn(Pruned(entries, ttl, clock), ttl, log + [e], later, pair)
    {
      assert AgreesOn(entries, ttl, log, now, pair);
      assert clock(StoreKeyOf(pair)) <= later;
      LastKeptExtends(log, e, pair);
    }
  }

  lemma AgreesAfterKeeping(entries: Entries, ttl: nat, log: seq<Event>, now: nat, clock: Clock, e: Event)
    requires Agrees(entries, ttl, log, now) && e.Kept? && IsPlain(e.pair) && Between(now, clock, e.at)
    ensures Agrees(Pruned(entries, ttl, clock)[StoreKeyOf(e.pair) := EntryOf(e)], ttl, log + [e], e.at)
  {
    forall pair: Pair | IsPlain(pair)
      ensures AgreesOn(Pruned(entries, ttl, clock)[StoreKeyOf(e.pair) := EntryOf(e)], ttl, log + [e], e.at, pair)
    {
      assert AgreesOn(entries, ttl, log, now, pair);
      assert clock(StoreKeyOf(pair)) <= e.at;
      LastKeptExtends(log, e, pair);
      if StoreKeyOf(pair) == StoreKeyOf(e.pair) {
        MakeKeyInjective(pair.rpc, pair.key, e.pair.rpc, e.pair.key);
      }
    }
  }

  lemma AgreesLater(entries: Entries, ttl: nat, log: seq<Event>, now: nat, later: nat)
    requires Agrees(entries, ttl, log, now) && now <= later
    ensures Agrees(entries, ttl, log, later)
  {
    forall pair: Pair | IsPlain(pair)
      ensures AgreesOn(entries, ttl, log, later, pair)
    {
      assert AgreesOn(entries, ttl, log, now, pair);
    }
  }

  lemma LogGrows(s: State, e: Event)
    requires Inv(s) && s.now <= e.at && Grounded(s.log + [e], s.ttl, |s.log|)
    ensures TimesRise(s.log + [e], e.at)
    ensures forall i :: 0 <= i <= |s.log| ==> Grounded(s.log + [e], s.ttl, i)
  {
    forall i | 0 <= i < |s.log| ensures Grounded(s.log + [e], s.ttl, i) {
      GroundedExtends(s.log, s.ttl, i, e);
    }
  }

  lemma StaysOpen(log: seq<Event>, c: nat, p: Pending, e: Event)
    requires IsOpen(log, c, p)
    requires e.Checked? || e.check != c || (e.Dispatched? && p.dispatched)
    ensures IsOpen(log + [e], c, p)
  {}

  // What one request does leaves the others under way.
  lemma OthersStayOpen(s: State, c: nat, e: Event)
    requires Inv(s) && !e.Checked? && e.check == c
    ensures forall b :: b in s.pending && b != c ==> IsOpen(s.log + [e], b, s.pending[b])
  {
    forall b | b in s.pending && b != c ensures IsOpen(s.log + [e], b, s.pending[b]) {
      StaysOpen(s.log, b, s.pending[b], e);
    }
  }

  lemma AgreesAfterDispatching(s: State, e: Event)
    requires Inv(s) && e.Dispatched?
    ensures Agrees(s.entries, s.ttl, s.log + [e], s.now)
  {
    forall pair: Pair | IsPlain(pair)
      ensures AgreesOn(s.entries, s.ttl, s.log + [e], s.now, pair)
    {
      assert AgreesOn(s.entries, s.ttl, s.log, s.now, pair);
      LastKeptExtends(s.log, e, pair);
    }
  }

  lemma GroundedSnoc(log: seq<Event>, ttl: nat, e: Event, p: Pending)
    requires !e.Checked? && IsOpen(log, e.check, p) && e.pair == p.pair
    requires e.Dispatched? ==> !p.dispatched
    requires e.Kept? ==> e.params == p.params
    ensures Grounded(log + [e], ttl, |log|)
  {}

  // What an event leaves to show for the invariant.
  lemma InvAfter(s: State, t: State, e: Event)
    requires Inv(s) && s.now <= e.at && Grounded(s.log + [e], s.ttl, |s.log|)
    requires t.log == s.log + [e] && e.at <= t.now && t.ttl == s.ttl
    requires Agrees(t.entries, t.ttl, t.log, t.now)
    requires forall b :: b in t.pending ==> IsOpen(t.log, b, t.pending[b])
    ensures Inv(t)
  {
    LogGrows(s, e);
  }

  lemma InvKeptByDispatch(s: State, c: nat)
    requires Inv(s) && Enabled(s, Dispatch(c))
    ensures Inv(Apply(s, Dispatch(c)))
  {
    var p := s.pending[c];
    var e := Dispatched(p.pair, c, s.now);
    assert IsOpen(s.log, c, p);
    GroundedSnoc(s.log, s.ttl, e, p);
    AgreesAfterDispatching(s, e);
    OthersStayOpen(s, c, e);
    StaysOpen(s.log, c, p.(dispatched := true), e);
    InvAfter(s, Apply(s, Dispatch(c)), e);
  }

  lemma FinishGrounded(s: State, c: nat, e: Event)
    requires Inv(s) && c in s.pending && e.Kept? && e.check == c
    requires e.pair == s.pending[c].pair && e.params == s.pending[c].params
    ensures Grounded(s.log + [e], s.ttl, |s.log|) && IsPlain(e.pair)
  {
    assert IsOpen(s.log, c, s.pending[c]);
    GroundedSnoc(s.log, s.ttl, e, s.pending[c]);
  }

  lemma InvAfterFinish(s: State, t: State, c: nat, clock: Clock, e: Event)
    requires Inv(s) && c in s.pending && e.Kept? && Between(s.now, clock, e.at) && e.check == c
    requires e.pair == s.pending[c].pair && e.params == s.pending[c].params
    requires t.entries == Pruned(s.entries, s.ttl, clock)[StoreKeyOf(e.pair) := EntryOf(e)]
    requires t == State(t.entries, s.ttl, e.at, s.pending - {c}, s.log + [e])
    ensures Inv(t)
  {
    FinishGrounded(s, c, e);
    AgreesAfterKeeping(s.entries, s.ttl, s.log, s.now, clock, e);
    OthersStayOpen(s, c, e);
    InvAfter(s, t, e);
  }

  lemma InvKeptByFinish(s: State, c: nat, response: Stored, clock: Clock, later: nat)
    requires Inv(s) && c in s.pending && Between(s.now, clock, later)
    ensures Inv(Finished(s, c, response, clock, later))
  {
    var p := s.pending[c];
    InvAfterFinish(s, Finished(s, c, response, clock, later), c, clock, Kept(p.pair, p.params, response, c, later));
  }

  // A check that goes ahead opens a request no earlier event knows of.
  lemma ArrivedIsOpen(s: State, pair: Pair, params: Json.Value, e: Event)
    requires Inv(s) && IsPlain(pair) && e.Checked? && e.verdict.New? && e.pair == pair && e.params == params
    ensures IsOpen(s.log + [e], |s.log|, Pending(pair, params, false))
  {
    forall i | 0 <= i < |s.log| ensures !s.log[i].Checked? ==> s.log[i].check < |s.log| {
      assert Grounded(s.log, s.ttl, i);
    }
  }

  lemma ArriveFollows(s: State, pair: Pair, params: Json.Value, clock: Clock, later: nat, e: Event)
    requires Inv(s) && IsPlain(pair) && Between(s.now, clock, later) && e.at == clock(StoreKeyOf(pair))
    requires e == Checked(pair, params, Answer(Pruned(s.entries, s.ttl, clock), StoreKeyOf(pair), params), e.at)
    ensures Grounded(s.log + [e], s.ttl, |s.log|) && s.now <= e.at <= later
    ensures Agrees(Pruned(s.entries, s.ttl, clock), s.ttl, s.log + [e], later)
  {
    CheckAgreesWithLog(s, pair, params, clock);
    assert (s.log + [e])[..|s.log|] == s.log;
    AgreesAfterPruning(s.entries, s.ttl, s.log, s.now, clock, later, e);
  }

  lemma InvKeptByArrive(s: State, t: State, pair: Pair, params: Json.Value, clock: Clock, later: nat)
    requires Inv(s) && IsPlain(pair) && Between(s.now, clock, later) && t == Arrived(s, pair, params, clock, later)
    ensures Inv(t)
  {
    var e := t.log[|s.log|];
    ArriveFollows(s, pair, params, clock, later, e);
    if e.verdict.New? {
      ArrivedIsOpen(s, pair, params, e);
    }
    forall c | c in t.pending ensures IsOpen(t.log, c, t.pending[c]) {
      if c in s.pending {
        assert IsOpen(s.log, c, s.pending[c]);
        StaysOpen(s.log, c, s.pending[c], e);
      }
    }
    InvAfter(s, t, e);
  }

  lemma InvKept(s: State, step: Step)
    requires Inv(s) && Enabled(s, step)
    ensures Inv(Apply(s, step))
  {
    match step
    case Tick(elapsed) => AgreesLater(s.entries, s.ttl, s.log, s.now, s.now + elapsed);
    case Arrive(pair, params, clock, later) =>
      MutatingMethodsHaveNoColon(pair.rpc);
      InvKeptByArrive(s, Apply(s, step), pair, params, clock, later);
    case Dispatch(c) => InvKeptByDispatch(s, c);
    case Finish(c, response, clock, later) => InvKeptByFinish(s, c, response, clock, later);
  }

  /** The invariant holds in every reachable state of every interleaving. */
  lemma {:induction false} Reachable(ttl: nat, steps: seq<Step>)
    requires Run(Start(ttl), steps).Some?
    ensures var s := Run(Start(ttl), steps).value; Inv(s) && s.ttl == ttl
  {
    if steps != [] {
      Reachable(ttl, steps[..|steps| - 1]);
      InvKept(Run(Start(ttl), steps[..|steps| - 1]).value, steps[|steps| - 1]);
    }
  }

  // ---- What clients may rely on --------------------------------------------------------------

  ghost function LogOf(ttl: nat, steps: seq<Step>): seq<Event>
    requires Run(Start(ttl), steps).Some?
  {
    Run(Start(ttl), steps).value.log
  }

  /** No request is dispatched on a check made within the TTL of an answer already kept for its pair,
      even if that answer was overwritten in the meantime. */
  lemma NoDispatchAfterFreshAnswer(ttl: nat, steps: seq<Step>, d: nat, k: nat)
    requires Run(Start(ttl), steps).Some?
    requires var log := LogOf(ttl, steps);
             k < d < |log| && log[d].Dispatched? && k < log[d].check && IsKept(log[k], log[d].pair)
    ensures var log := LogOf(ttl, steps);
            log[d].check < d && log[log[d].check].at - log[k].at > ttl
  {
    Reachable(ttl, steps);
    var log := LogOf(ttl, steps);
    var c := log[d].check;
    assert Grounded(log, ttl, d) && Grounded(log, ttl, c);
    var last := LastKept(log[..c], log[d].pair);
    assert log[..c][k] == log[k];
    assert k < last;
  }

  // A request dispatches once, and never after its answer was kept.
  lemma DispatchPrecedesKeeping(log: seq<Event>, ttl: nat, d: nat, k: nat)
    requires d < |log| && k < |log| && log[d].Dispatched? && Grounded(log, ttl, d)
    requires !log[k].Checked? && log[k].check == log[d].check && d != k
    requires log[k].Dispatched? ==> Grounded(log, ttl, k)
    ensures log[k].Kept? && d < k
  {}

  /** Two dispatches of one pair no further apart than the TTL belong to overlapping requests: when the second
      was checked, the first had not kept its answer yet. */
  lemma CloseDispatchesOverlap(ttl: nat, steps: seq<Step>, d1: nat, d2: nat, k1: nat)
    requires Run(Start(ttl), steps).Some?
    requires var log := LogOf(ttl, steps);
             && d1 < d2 < |log| && log[d1].Dispatched? && log[d2].Dispatched? && log[d1].pair == log[d2].pair
             && log[d2].at - log[d1].at <= ttl
             && k1 < |log| && log[k1].Kept? && log[k1].check == log[d1].check
    ensures LogOf(ttl, steps)[d2].check < k1
  {
    Reachable(ttl, steps);
    var log := LogOf(ttl, steps);
    assert Grounded(log, ttl, d1) && Grounded(log, ttl, k1) && Grounded(log, ttl, d2);
    DispatchPrecedesKeeping(log, ttl, d1, k1);
    if k1 < log[d2].check {
      NoDispatchAfterFreshAnswer(ttl, steps, d2, k1);
    }
  }

  // Requests that do not overlap: one that was told to go ahead has kept its answer before the next check.
  ghost predicate Serial(log: seq<Event>) {
    forall a, c :: 0 <= a < c < |log| && log[a].Checked? && log[a].verdict.New? && log[c].Checked? ==>
      FinishedBy(log, a, c)
  }

  ghost predicate FinishedBy(log: seq<Event>, a: nat, c: nat)
    requires c < |log|
  {
    exists k :: 0 <= k < c && log[k].Kept? && log[k].check == a
  }

  /** Serial runs dispatch a pair at most once per TTL. */
  lemma SerialRunsDispatchOncePerTtl(ttl: nat, steps: seq<Step>, d1: nat, d2: nat)
    requires Run(Start(ttl), steps).Some? && Serial(LogOf(ttl, steps))
    requires var log := LogOf(ttl, steps);
             d1 < d2 < |log| && log[d1].Dispatched? && log[d2].Dispatched? && log[d1].pair == log[d2].pair
    ensures LogOf(ttl, steps)[d2].at - LogOf(ttl, steps)[d1].at > ttl
  {
    Reachable(ttl, steps);
    var log := LogOf(ttl, steps);
    assert Grounded(log, ttl, d1) && Grounded(log, ttl, d2);
    var c1, c2 := log[d1].check, log[d2].check;
    if c1 == c2 {
      DispatchPrecedesKeeping(log, ttl, d1, d2);
    } else {
      var first, second, d := if c1 < c2 then c1 else c2, if c1 < c2 then c2 else c1, if c1 < c2 then d1 else d2;
      assert FinishedBy(log, first, second);
      var k :| 0 <= k < second && log[k].Kept? && log[k].check == first;
      assert Grounded(log, ttl, k);
      DispatchPrecedesKeeping(log, ttl, d, k);
      NoDispatchAfterFreshAnswer(ttl, steps, d2, k);
    }
  }

  /** Exactly when a check lets its request go ahead, in every reachable log: no answer was kept for the pair within
      the TTL before the check. So what can be dispatched twice is told by the log up to the check. */
  lemma ChecksGoAheadExactly(ttl: nat, steps: seq<Step>, c: nat)
    requires Run(Start(ttl), steps).Some? && c < |LogOf(ttl, steps)| && LogOf(ttl, steps)[c].Checked?
    ensures var log := LogOf(ttl, steps);
            log[c].verdict.New? <==>
            forall k :: 0 <= k < c && IsKept(log[k], log[c].pair) ==> log[c].at - log[k].at > ttl
  {
    Reachable(ttl, steps);
    var log := LogOf(ttl, steps);
    assert Grounded(log, ttl, c);
    var n := LastKept(log[..c], log[c].pair);
    forall k | 0 <= k < c && IsKept(log[k], log[c].pair) ensures k < n {
      assert log[..c][k] == log[k];
    }
    assert n > 0 ==> IsKept(log[n - 1], log[c].pair) && log[..c][n - 1] == log[n - 1];
  }

  /** A replayed answer is the latest one kept for the pair, for the same parameters, and not older than the TTL;
      a conflict means the latest one, not older than the TTL, was kept for other parameters. */
  lemma RepeatedAnswersAreKept(ttl: nat, steps: seq<Step>, c: nat)
    requires Run(Start(ttl), steps).Some?
    requires c < |LogOf(ttl, steps)| && LogOf(ttl, steps)[c].Checked? && !LogOf(ttl, steps)[c].verdict.New?
    ensures var log := LogOf(ttl, steps);
            var k := LastKept(log[..c], log[c].pair) - 1;
            && 0 <= k < c && IsKept(log[k], log[c].pair) && log[c].at - log[k].at <= ttl
            && (forall i :: k < i < c ==> !IsKept(log[i], log[c].pair))
            && (log[c].verdict == Replayed(log[k].response) <==> log[k].params == log[c].params)
            && (log[c].verdict.Conflicting? <==> log[k].params != log[c].params)
  {
    Reachable(ttl, steps);
    var log := LogOf(ttl, steps);
    assert Grounded(log, ttl, c);
    var n := LastKept(log[..c], log[c].pair);
    forall i | n <= i < c ensures !IsKept(log[i], log[c].pair) {
      assert log[..c][i] == log[i];
    }
  }

  /** Plain exactly-once is false: two overlapping requests with one key are both dispatched, at the same moment. */
  lemma OverlappingDuplicatesBothDispatch(params: Json.Value, clock: Clock)
    requires Between(0, clock, 0)
    ensures var pair := Pair("task.run", "k");
            var a := Arrive(pair, params, clock, 0);
            var steps := [a, a, Dispatch(0), Dispatch(1)];
            && Run(Start(60), steps).Some?
            && LogOf(60, steps)[2..] == [Dispatched(pair, 0, 0), Dispatched(pair, 1, 0)]
  {
    var pair := Pair("task.run", "k");
    var a := Arrive(pair, params, clock, 0);
    var steps := [a, a, Dispatch(0), Dispatch(1)];
    assert steps[..3] == [a, a, Dispatch(0)] && steps[..3][..2] == [a, a] && [a, a][..1] == [a] && [a][..0] == [];
    assert Run(Start(60), [a]) == Some(Apply(Start(60), a));
    assert Run(Start(60), [a, a]) == Some(Apply(Apply(Start(60), a), a));
  }
}
