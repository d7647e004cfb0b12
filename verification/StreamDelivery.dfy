/** A consumer that asks for events and acknowledges the last of each batch: what reaches it of everything published,
    through replay and the bounded live channel together. */
module StreamDelivery {
  import opened Prelude
  import opened Subscriptions
  import opened Sequences
  import opened LiveEvents

  // A broadcast receiver sees the newest 256 events; one that fell behind is told how many it skipped.
  const LIVE_CAPACITY: nat := 256

  // What a receiver standing at `p` yields when its successive attempts find `lens` events published.
  function Arrivals(log: seq<Event>, p: nat, lens: seq<nat>): seq<Item>
    decreases |lens|
  {
    if lens == [] then []
    else if p + LIVE_CAPACITY < lens[0] then
      [Lagged(lens[0] - LIVE_CAPACITY - p)] + Arrivals(log, lens[0] - LIVE_CAPACITY, lens[1..])
    else if p < lens[0] && p < |log| then [Arrived(log[p])] + Arrivals(log, p + 1, lens[1..])
    else [Idle] + Arrivals(log, p, lens[1..])
  }

  // One `stream.next`: what was published when it looked for a replay, where its receiver stood, what was published
  // at each attempt to receive, and the requested size.
  datatype Call = Call(published: nat, at: nat, lens: seq<nat>, max: Option<nat>)

  predicate Possible(log: seq<Event>, c: Call) {
    && c.at <= c.published <= |log|
    && forall i :: 0 <= i < |c.lens| ==> c.published <= c.lens[i] <= |log|
  }

  function ReplayFor(s: Subscription, log: seq<Event>, c: Call): ReplayBatch
    requires c.published <= |log|
  {
    ReplayOf(History(log[..c.published]), s)
  }

  function AnswerTo(s: Subscription, log: seq<Event>, c: Call): Result<Reply, Refusal>
    requires Possible(log, c)
  {
    NextAnswer(Wanted(s), ReplayFor(s, log, c), Arrivals(log, c.at, c.lens), Clamped(c.max)).reply
  }

  // The pending events a call cannot deliver: those gone from the history and those over the replay limit.
  function Missed(s: Subscription, log: seq<Event>, c: Call): nat
    requires Possible(log, c)
  {
    |Pending(s, log[..Evicted(c.published)])| + ReplayFor(s, log, c).dropped
  }

  // ---- The live channel has no holes ---------------------------------------------------------

  lemma FilterFromFirst(wanted: Test, log: seq<Event>, p: nat, q: nat)
    requires p < q <= |log|
    ensures Filter(wanted, log[p..q]) == (if wanted(log[p]) then [log[p]] else []) + Filter(wanted, log[p + 1..q])
  {
    assert log[p..q][1..] == log[p + 1..q];
  }

  lemma FirstArrival(log: seq<Event>, p: nat, lens: seq<nat>)
    requires lens != []
    ensures var feed := Arrivals(log, p, lens);
            && feed != []
            && (p + LIVE_CAPACITY < lens[0] ==> feed[0] == Lagged(lens[0] - LIVE_CAPACITY - p))
            && (lens[0] - LIVE_CAPACITY <= p < lens[0] && p < |log| ==>
                  feed[0] == Arrived(log[p]) && feed[1..] == Arrivals(log, p + 1, lens[1..]))
            && (lens[0] <= p || (|log| <= p && lens[0] - LIVE_CAPACITY <= p) ==>
                  feed[0] == Idle && feed[1..] == Arrivals(log, p, lens[1..]))
  {}

  // Draining hands on the pending events of a gapless stretch; without a lag the receiver stands at its end.
  lemma {:induction false} CollectIsStretch(wanted: Test, log: seq<Event>, p: nat, lens: seq<nat>, room: nat)
    returns (q: nat, k: nat)
    requires p <= |log|
    ensures p <= q <= |log| && k <= |lens|
    ensures var b := Collect(wanted, Arrivals(log, p, lens), room, 0);
            b.events == Filter(wanted, log[p..q]) && (b.dropped == 0 ==> b.rest == Arrivals(log, q, lens[k..]))
    decreases |lens|
  {
    q, k := p, 0;
    if room > 0 && lens != [] {
      FirstArrival(log, p, lens);
      if lens[0] - LIVE_CAPACITY <= p < lens[0] && p < |log| {
        q, k := CollectIsStretch(wanted, log, p + 1, lens[1..], if wanted(log[p]) then room - 1 else room);
        FilterFromFirst(wanted, log, p, q);
        assert lens[k + 1..] == lens[1..][k..];
      }
      k := k + 1;
    }
  }

  lemma WaitUnfolds(wanted: Test, feed: seq<Item>, max: nat)
    requires feed != [] && max > 0
    ensures !IsEvent(feed[0]) && !feed[0].Closed? ==>
              var r := Wait(wanted, feed, max).reply; r.Ok? && r.value.events == []
    ensures feed[0].Arrived? && wanted(feed[0].event) ==>
              var r := Wait(wanted, feed, max).reply;
              r.Ok? && r.value.events == [feed[0].event] + Collect(wanted, feed[1..], max - 1, 0).events
    ensures feed[0].Arrived? && !wanted(feed[0].event) ==>
              Wait(wanted, feed, max).reply == Wait(wanted, feed[1..], max).reply
  {}

  predicate Brings(reply: Result<Reply, Refusal>, events: seq<Event>) {
    reply.Ok? && reply.value.events == events
  }

  lemma {:induction false} WaitIsStretch(wanted: Test, log: seq<Event>, p: nat, lens: seq<nat>, max: nat)
    returns (q: nat)
    requires p <= |log| && max > 0
    ensures p <= q <= |log| && Brings(Wait(wanted, Arrivals(log, p, lens), max).reply, Filter(wanted, log[p..q]))
    decreases |lens|, 1
  {
    q := p;
    if lens != [] {
      FirstArrival(log, p, lens);
      WaitUnfolds(wanted, Arrivals(log, p, lens), max);
      if lens[0] - LIVE_CAPACITY <= p < lens[0] && p < |log| {
        q := WaitFromArrival(wanted, log, p, lens[1..], max);
      }
    }
  }

  lemma {:induction false} WaitFromArrival(wanted: Test, log: seq<Event>, p: nat, lens: seq<nat>, max: nat)
    returns (q: nat)
    requires p < |log| && max > 0
    ensures p < q <= |log|
    ensures var feed := Arrivals(log, p + 1, lens);
            if wanted(log[p])
            then Filter(wanted, log[p..q]) == [log[p]] + Collect(wanted, feed, max - 1, 0).events
            else Brings(Wait(wanted, feed, max).reply, Filter(wanted, log[p..q]))
    decreases |lens|, 2
  {
    if wanted(log[p]) {
      var k;
      q, k := CollectIsStretch(wanted, log, p + 1, lens, max - 1);
    } else {
      q := WaitIsStretch(wanted, log, p + 1, lens, max);
    }
    FilterFromFirst(wanted, log, p, q);
  }

  lemma Stretches(wanted: Test, log: seq<Event>, p: nat, q: nat, r: nat)
    requires p <= q <= r <= |log|
    ensures Filter(wanted, log[p..r]) == Filter(wanted, log[p..q]) + Filter(wanted, log[q..r])
  {
    assert log[p..r] == log[p..q] + log[q..r];
    FilterConcat(wanted, log[p..q], log[q..r]);
  }

  lemma LiveIsStretch(wanted: Test, log: seq<Event>, p: nat, lens: seq<nat>, max: nat) returns (q: nat)
    requires p <= |log| && max > 0
    ensures p <= q <= |log|
    ensures Brings(LiveAnswer(wanted, Arrivals(log, p, lens), max).reply, Filter(wanted, log[p..q]))
  {
    var k;
    q, k := CollectIsStretch(wanted, log, p, lens, max);
    var b := Collect(wanted, Arrivals(log, p, lens), max, 0);
    if b.events == [] && b.dropped == 0 {
      var m := q;
      q := WaitIsStretch(wanted, log, m, lens[k..], max);
      Stretches(wanted, log, p, m, q);
    }
  }

  // A receiver that has fallen out of the channel hears of nothing but its lag.
  lemma LagComesFirst(wanted: Test, log: seq<Event>, p: nat, lens: seq<nat>, max: nat)
    requires max > 0 && (lens != [] ==> p + LIVE_CAPACITY < lens[0])
    ensures var r := LiveAnswer(wanted, Arrivals(log, p, lens), max).reply; r.Ok? && r.value.events == []
  {
    if lens != [] {
      FirstArrival(log, p, lens);
    }
  }

  // ---- One call ------------------------------------------------------------------------------

  predicate IsStretchOf<T(==)>(part: seq<T>, whole: seq<T>, skip: nat) {
    skip + |part| <= |whole| && part == whole[skip..skip + |part|]
  }

  lemma StretchOfMiddle(a: seq<Event>, b: seq<Event>, c: seq<Event>, drop: nat, max: nat)
    requires drop <= |b|
    ensures IsStretchOf(FirstOf(b[drop..], max), a + b + c, |a| + drop)
  {}

  lemma FilterInThree(wanted: Test, log: seq<Event>, p: nat, q: nat)
    requires p <= q <= |log|
    ensures Filter(wanted, log) == Filter(wanted, log[..p]) + Filter(wanted, log[p..q]) + Filter(wanted, log[q..])
  {
    Stretches(wanted, log, 0, p, q);
    Stretches(wanted, log, 0, q, |log|);
    assert log[0..|log|] == log && log[0..p] == log[..p] && log[0..q] == log[..q];
  }

  lemma HistoryIs(log: seq<Event>, n: nat)
    requires n <= |log|
    ensures History(log[..n]) == log[Evicted(n)..n]
  {}

  lemma ReplayTakes(s: Subscription, log: seq<Event>, c: Call, all: seq<Event>)
    requires Possible(log, c) && all == Pending(s, log[Evicted(c.published)..c.published])
    ensures var replay := ReplayFor(s, log, c); replay.dropped <= |all| && replay.events == all[replay.dropped..]
  {
    HistoryIs(log, c.published);
  }

  lemma ReplayIsStretch(s: Subscription, log: seq<Event>, c: Call)
    requires Possible(log, c)
    ensures IsStretchOf(FirstOf(ReplayFor(s, log, c).events, Clamped(c.max)), Pending(s, log), Missed(s, log, c))
  {
    var e := Evicted(c.published);
    var all := Pending(s, log[e..c.published]);
    FilterInThree(Wanted(s), log, e, c.published);
    ReplayTakes(s, log, c, all);
    StretchOfMiddle(Pending(s, log[..e]), all, Pending(s, log[c.published..]), ReplayFor(s, log, c).dropped,
                    Clamped(c.max));
  }

  lemma LiveContinues(wanted: Test, log: seq<Event>, e: nat, p: nat, n: nat, q: nat)
    requires e <= p <= n <= |log| && p <= q <= |log|
    requires Filter(wanted, log[e..n]) == []
    ensures IsStretchOf(Filter(wanted, log[p..q]), Filter(wanted, log), |Filter(wanted, log[..e])|)
  {
    Stretches(wanted, log, e, p, n);
    FilterInThree(wanted, log, p, q);
    Stretches(wanted, log, 0, e, p);
    assert log[0..e] == log[..e] && log[0..p] == log[..p];
    var found := Filter(wanted, log[p..q]);
    StretchOfMiddle(Filter(wanted, log[..e]), found, Filter(wanted, log[q..]), 0, |found|);
  }

  lemma LiveBatchIsStretch(s: Subscription, log: seq<Event>, c: Call)
    requires Possible(log, c) && ReplayFor(s, log, c).events == [] && ReplayFor(s, log, c).dropped == 0
    ensures var r := LiveAnswer(Wanted(s), Arrivals(log, c.at, c.lens), Clamped(c.max)).reply;
            r.Ok? && IsStretchOf(r.value.events, Pending(s, log), Missed(s, log, c))
  {
    var e := Evicted(c.published);
    HistoryIs(log, c.published);
    FilterInThree(Wanted(s), log, e, c.published);
    if c.at < e {
      LagComesFirst(Wanted(s), log, c.at, c.lens, Clamped(c.max));
    } else {
      var q := LiveIsStretch(Wanted(s), log, c.at, c.lens, Clamped(c.max));
      LiveContinues(Wanted(s), log, e, c.at, c.published, q);
    }
  }

  /** Wherever the receiver stands and whatever is published meanwhile, a batch is a gapless stretch of all that is
      pending, starting right behind what the history has let go and the replay limit dropped. */
  lemma BatchIsStretch(s: Subscription, log: seq<Event>, c: Call)
    requires Possible(log, c)
    ensures AnswerTo(s, log, c).Ok?
    ensures IsStretchOf(AnswerTo(s, log, c).value.events, Pending(s, log), Missed(s, log, c))
  {
    var replay := ReplayFor(s, log, c);
    if HasReplay(replay) {
      ReplayIsStretch(s, log, c);
    } else {
      LiveBatchIsStretch(s, log, c);
    }
  }

  lemma {:induction false} FilterFinds(wanted: Test, log: seq<Event>, i: nat)
    requires i < |Filter(wanted, log)|
    ensures Filter(wanted, log)[i] in log
    decreases |log|
  {
    var first := if wanted(log[0]) then 1 else 0;
    if i >= first {
      FilterFinds(wanted, log[1..], i - first);
    }
  }

  lemma {:induction false} FilterRises(wanted: Test, log: seq<Event>)
    requires Increasing(log)
    ensures Increasing(Filter(wanted, log))
    decreases |log|
  {
    if log != [] {
      var rest := Filter(wanted, log[1..]);
      FilterRises(wanted, log[1..]);
      forall j | 0 <= j < |rest| ensures log[0].sequence < rest[j].sequence {
        FilterFinds(wanted, log[1..], j);
      }
    }
  }

  /** A batch leaves nothing out in front exactly when nothing was missed. */
  lemma NoGapExactly(s: Subscription, log: seq<Event>, c: Call)
    requires Possible(log, c) && Increasing(log) && AnswerTo(s, log, c).Ok?
    requires AnswerTo(s, log, c).value.events != []
    ensures AnswerTo(s, log, c).value.events <= Pending(s, log) <==> Missed(s, log, c) == 0
  {
    BatchIsStretch(s, log, c);
    FilterRises(Wanted(s), log);
    assert AnswerTo(s, log, c).value.events[0] == Pending(s, log)[Missed(s, log, c)];
  }

  // ---- A whole consumer ----------------------------------------------------------------------

  // The consumer acknowledges the last event of a batch, if there is one.
  function Acknowledged(s: Subscription, events: seq<Event>): Subscription {
    if events == [] then s else At(s, events[|events| - 1].cursor)
  }

  function EventsOf(s: Subscription, log: seq<Event>, c: Call): seq<Event>
    requires Possible(log, c)
  {
    match AnswerTo(s, log, c)
    case Ok(r) => r.events
    case Err(_) => []
  }

  predicate AllPossible(log: seq<Event>, calls: seq<Call>) {
    forall i :: 0 <= i < |calls| ==> Possible(log, calls[i])
  }

  datatype Consumed = Consumed(delivered: seq<Event>, subscription: Subscription)

  function Consume(s: Subscription, log: seq<Event>, calls: seq<Call>): Consumed
    requires AllPossible(log, calls)
    decreases |calls|
  {
    if calls == [] then Consumed([], s)
    else
      var events := EventsOf(s, log, calls[0]);
      var later := Consume(Acknowledged(s, events), log, calls[1..]);
      later.(delivered := events + later.delivered)
  }

  // What the calls that bring events leave out in front of them.
  function Lost(s: Subscription, log: seq<Event>, calls: seq<Call>): nat
    requires AllPossible(log, calls)
    decreases |calls|
  {
    if calls == [] then 0
    else
      var events := EventsOf(s, log, calls[0]);
      (if events == [] then 0 else Missed(s, log, calls[0])) + Lost(Acknowledged(s, events), log, calls[1..])
  }

  // The k-th pending event stands at `q` in the log.
  predicate StandsAt(wanted: Test, log: seq<Event>, pending: seq<Event>, k: nat, q: nat) {
    && k < |pending| && q < |log|
    && wanted(log[q]) && log[q] == pending[k] && Filter(wanted, log[q + 1..]) == pending[k + 1..]
  }

  lemma StandsLater(wanted: Test, log: seq<Event>, rest: seq<Event>, k: nat, q: nat)
    requires log != [] && StandsAt(wanted, log[1..], rest, k, q)
    ensures StandsAt(wanted, log, rest, k, q + 1)
    ensures StandsAt(wanted, log, [log[0]] + rest, k + 1, q + 1)
  {
    assert log[1..][q + 1..] == log[q + 2..];
    assert ([log[0]] + rest)[k + 2..] == rest[k + 1..];
  }

  lemma {:induction false} FindPending(wanted: Test, log: seq<Event>, k: nat) returns (q: nat)
    requires k < |Filter(wanted, log)|
    ensures StandsAt(wanted, log, Filter(wanted, log), k, q)
    decreases |log|
  {
    var rest := Filter(wanted, log[1..]);
    if !wanted(log[0]) {
      var m := FindPending(wanted, log[1..], k);
      StandsLater(wanted, log, rest, k, m);
      q := m + 1;
    } else if k == 0 {
      q := 0;
    } else {
      var m := FindPending(wanted, log[1..], k - 1);
      StandsLater(wanted, log, rest, k - 1, m);
      q := m + 1;
    }
  }

  // Acknowledging a batch is accepted and leaves pending what is behind it.
  lemma AcknowledgedLeavesTheRest(s: Subscription, log: seq<Event>, events: seq<Event>, skip: nat) returns (q: nat)
    requires Ordered(log) && events != [] && IsStretchOf(events, Pending(s, log), skip)
    ensures Pending(Acknowledged(s, events), log) == Pending(s, log)[skip + |events|..]
    ensures Acked(s, events[|events| - 1].cursor) == Ok(Acknowledged(s, events))
    ensures q < |log| && IsPending(s, log[q]) && Acknowledged(s, events) == At(s, log[q].cursor)
  {
    q := FindPending(Wanted(s), log, skip + |events| - 1);
    CheckpointSettles(s, log, q);
  }

  // One call: the batch is a stretch of what is pending, and what is behind it stays pending.
  lemma OneCall(s: Subscription, log: seq<Event>, c: Call, events: seq<Event>)
    requires Ordered(log) && Possible(log, c) && events == EventsOf(s, log, c) && events != []
    ensures IsStretchOf(events, Pending(s, log), Missed(s, log, c))
    ensures Pending(Acknowledged(s, events), log) == Pending(s, log)[Missed(s, log, c) + |events|..]
  {
    BatchIsStretch(s, log, c);
    var q := AcknowledgedLeavesTheRest(s, log, events, Missed(s, log, c));
  }

  /** Conservation, for any consumer: every pending event was delivered, was lost, or is still pending. */
  lemma {:induction false} EveryEventIsAccountedFor(s: Subscription, log: seq<Event>, calls: seq<Call>)
    requires Ordered(log) && AllPossible(log, calls)
    ensures var c := Consume(s, log, calls);
            |Pending(s, log)| == |c.delivered| + Lost(s, log, calls) + |Pending(c.subscription, log)|
    decreases |calls|
  {
    if calls != [] {
      var events := EventsOf(s, log, calls[0]);
      EveryEventIsAccountedFor(Acknowledged(s, events), log, calls[1..]);
      if events != [] {
        OneCall(s, log, calls[0], events);
      }
    }
  }

  lemma Split<T>(whole: seq<T>, part: seq<T>)
    requires IsStretchOf(part, whole, 0)
    ensures whole == part + whole[|part|..]
  {}

  lemma {:induction false} WithoutLoss(s: Subscription, log: seq<Event>, calls: seq<Call>)
    requires Ordered(log) && AllPossible(log, calls) && Lost(s, log, calls) == 0
    ensures var c := Consume(s, log, calls); Pending(s, log) == c.delivered + Pending(c.subscription, log)
    decreases |calls|
  {
    if calls != [] {
      var events := EventsOf(s, log, calls[0]);
      var t := Acknowledged(s, events);
      WithoutLoss(t, log, calls[1..]);
      var later := Consume(t, log, calls[1..]);
      if events != [] {
        OneCall(s, log, calls[0], events);
        Split(Pending(s, log), events);
      }
      Associative(events, later.delivered, Pending(later.subscription, log));
    }
  }

  /** Any consumer, however replay, live delivery, lags and publications interleave: what it got, followed by what is
      still pending, is all there was exactly when no batch left anything out in front of it. */
  lemma NothingIsLostExactly(s: Subscription, log: seq<Event>, calls: seq<Call>)
    requires Ordered(log) && AllPossible(log, calls)
    ensures var c := Consume(s, log, calls);
            Pending(s, log) == c.delivered + Pending(c.subscription, log) <==> Lost(s, log, calls) == 0
  {
    EveryEventIsAccountedFor(s, log, calls);
    if Lost(s, log, calls) == 0 {
      WithoutLoss(s, log, calls);
    }
  }

  // All of `a` is numbered below all of `b`.
  predicate Precedes(a: seq<Event>, b: seq<Event>) {
    forall i, j :: 0 <= i < |a| && 0 <= j < |b| ==> a[i].sequence < b[j].sequence
  }

  lemma StretchPrecedes(whole: seq<Event>, part: seq<Event>, skip: nat)
    requires Increasing(whole) && IsStretchOf(part, whole, skip)
    ensures Increasing(part) && Precedes(part, whole[skip + |part|..])
    ensures forall e :: e in part || e in whole[skip + |part|..] ==> e in whole
  {}

  lemma JoinRises(a: seq<Event>, b: seq<Event>, rest: seq<Event>)
    requires Increasing(a) && Increasing(b) && Precedes(a, rest) && forall e :: e in b ==> e in rest
    ensures Increasing(a + b)
  {
    forall i, j | 0 <= i < |a| && 0 <= j < |b| ensures a[i].sequence < b[j].sequence {
      assert b[j] in rest;
    }
  }

  /** Nothing is repeated or reordered and nothing is invented, not even for a consumer that falls behind: what it gets
      rises strictly and was pending from the start. */
  lemma {:induction false} NothingIsRepeated(s: Subscription, log: seq<Event>, calls: seq<Call>)
    requires Ordered(log) && AllPossible(log, calls)
    ensures var c := Consume(s, log, calls);
            Increasing(c.delivered) && forall e :: e in c.delivered ==> e in Pending(s, log)
    decreases |calls|
  {
    if calls != [] {
      var events := EventsOf(s, log, calls[0]);
      var t := Acknowledged(s, events);
      NothingIsRepeated(t, log, calls[1..]);
      if events != [] {
        OneCall(s, log, calls[0], events);
        FilterRises(Wanted(s), log);
        StretchPrecedes(Pending(s, log), events, Missed(s, log, calls[0]));
        JoinRises(events, Consume(t, log, calls[1..]).delivered, Pending(t, log));
      } else {
        assert [] + Consume(t, log, calls[1..]).delivered == Consume(t, log, calls[1..]).delivered;
      }
    }
  }

  // ---- A condition on the start --------------------------------------------------------------

  // Nothing pending has left the history, and all of it fits into one replay.
  predicate Fits(s: Subscription, log: seq<Event>) {
    Pending(s, log[..Evicted(|log|)]) == [] && |Pending(s, log)| <= s.replayLimit
  }

  lemma EvictsNothing(wanted: Test, log: seq<Event>, e: nat, n: nat)
    requires e <= n <= |log| && Filter(wanted, log[..n]) == []
    ensures Filter(wanted, log[..e]) == []
  {
    assert log[..n][..e] == log[..e];
    FilterCut(wanted, log[..n], e);
  }

  lemma FittingMissesNothing(s: Subscription, log: seq<Event>, c: Call)
    requires Possible(log, c) && Fits(s, log)
    ensures Missed(s, log, c) == 0
  {
    var e := Evicted(c.published);
    EvictsNothing(Wanted(s), log, e, Evicted(|log|));
    FilterInThree(Wanted(s), log, e, c.published);
    HistoryIs(log, c.published);
  }

  lemma FittingStays(s: Subscription, log: seq<Event>, c: Call, events: seq<Event>)
    requires Ordered(log) && Possible(log, c) && Fits(s, log) && events == EventsOf(s, log, c)
    ensures Fits(Acknowledged(s, events), log)
  {
    if events != [] {
      BatchIsStretch(s, log, c);
      var t, gone := Acknowledged(s, events), log[..Evicted(|log|)];
      var q := AcknowledgedLeavesTheRest(s, log, events, Missed(s, log, c));
      forall i | 0 <= i < |gone| && Wanted(t)(gone[i]) ensures Wanted(s)(gone[i]) {
        CheckpointWantsLess(s, t, log, q, i);
      }
      FilterWeaker(Wanted(s), Wanted(t), gone);
    }
  }

  /** Whoever starts with everything in reach loses nothing, whatever calls it makes. */
  lemma {:induction false} FittingLosesNothing(s: Subscription, log: seq<Event>, calls: seq<Call>)
    requires Ordered(log) && AllPossible(log, calls) && Fits(s, log)
    ensures Lost(s, log, calls) == 0
    decreases |calls|
  {
    if calls != [] {
      var events := EventsOf(s, log, calls[0]);
      FittingMissesNothing(s, log, calls[0]);
      FittingStays(s, log, calls[0], events);
      FittingLosesNothing(Acknowledged(s, events), log, calls[1..]);
    }
  }

  predicate Quiet(log: seq<Event>, calls: seq<Call>) {
    forall i :: 0 <= i < |calls| ==> calls[i].published == |log|
  }

  // With everything published, a call that misses nothing and finds something pending delivers some of it.
  lemma CallsProgress(s: Subscription, log: seq<Event>, c: Call)
    requires Possible(log, c) && c.published == |log| && Missed(s, log, c) == 0 && Pending(s, log) != []
    ensures EventsOf(s, log, c) != []
  {
    HistoryIs(log, |log|);
    FilterInThree(Wanted(s), log, Evicted(|log|), |log|);
    assert log[|log|..] == [];
  }

  lemma {:induction false} FittingGetsAll(s: Subscription, log: seq<Event>, calls: seq<Call>)
    requires Ordered(log) && AllPossible(log, calls) && Quiet(log, calls) && Fits(s, log)
    requires |Pending(s, log)| <= |calls|
    ensures Pending(Consume(s, log, calls).subscription, log) == []
    decreases |calls|
  {
    if calls != [] {
      var events := EventsOf(s, log, calls[0]);
      FittingMissesNothing(s, log, calls[0]);
      FittingStays(s, log, calls[0], events);
      if Pending(s, log) != [] {
        CallsProgress(s, log, calls[0]);
      }
      if events != [] {
        OneCall(s, log, calls[0], events);
      }
      FittingGetsAll(Acknowledged(s, events), log, calls[1..]);
    }
  }

  // With everything published, a first batch that left nothing out shows that everything was in reach.
  lemma {:induction false} FirstBatchTells(s: Subscription, log: seq<Event>, calls: seq<Call>)
    requires AllPossible(log, calls) && Quiet(log, calls)
    requires Lost(s, log, calls) == 0 && Consume(s, log, calls).delivered != []
    ensures Fits(s, log)
    decreases |calls|
  {
    if EventsOf(s, log, calls[0]) == [] {
      FirstBatchTells(s, log, calls[1..]);
    } else {
      HistoryIs(log, |log|);
      FilterInThree(Wanted(s), log, Evicted(|log|), |log|);
      assert log[..|log|] == log && log[|log|..] == [];
    }
  }

  lemma FittingArrives(s: Subscription, log: seq<Event>, calls: seq<Call>)
    requires Ordered(log) && AllPossible(log, calls) && Quiet(log, calls) && |Pending(s, log)| <= |calls|
    requires Fits(s, log)
    ensures Consume(s, log, calls).delivered == Pending(s, log)
  {
    FittingGetsAll(s, log, calls);
    FittingLosesNothing(s, log, calls);
    WithoutLoss(s, log, calls);
  }

  lemma ArrivedFits(s: Subscription, log: seq<Event>, calls: seq<Call>)
    requires Ordered(log) && AllPossible(log, calls) && Quiet(log, calls)
    requires Consume(s, log, calls).delivered == Pending(s, log)
    ensures Fits(s, log)
  {
    EveryEventIsAccountedFor(s, log, calls);
    if Pending(s, log) == [] {
      assert log[..|log|] == log;
      EvictsNothing(Wanted(s), log, Evicted(|log|), |log|);
    } else {
      FirstBatchTells(s, log, calls);
    }
  }

  /** Once nothing more is published, as many calls as there are pending events deliver them all exactly when, at the
      start, none of them had left the history and all fit into one replay. */
  lemma EverythingArrivesExactly(s: Subscription, log: seq<Event>, calls: seq<Call>)
    requires Ordered(log) && AllPossible(log, calls) && Quiet(log, calls) && |Pending(s, log)| <= |calls|
    ensures Consume(s, log, calls).delivered == Pending(s, log) <==> Fits(s, log)
  {
    if Fits(s, log) {
      FittingArrives(s, log, calls);
    } else if Consume(s, log, calls).delivered == Pending(s, log) {
      ArrivedFits(s, log, calls);
    }
  }

  // ---- Loss happens --------------------------------------------------------------------------

  function Sample(topic: string, n: Word64): Event {
    Event(topic, "task", "t", CursorText(0, n), n)
  }

  // A subscription that is replayed one event at a time.
  function Narrow(topic: string, n: Word64): Subscription {
    Subscription({topic}, {}, {}, CursorText(0, n), 1, true, "p")
  }

  lemma SampleIsWanted(s: Subscription, topic: string, start: Word64, n: Word64, e: Event)
    requires start < n && s == Narrow(topic, start) && e == Sample(topic, n)
    ensures Wanted(s)(e) && CursorSequence(e.cursor) == Some(n) && e.sequence == n && s.replayLimit == 1
  {
    CursorRoundTrip(0, start);
    CursorRoundTrip(0, n);
  }

  lemma CrowdedLoses(s: Subscription, log: seq<Event>, calls: seq<Call>)
    requires Ordered(log) && AllPossible(log, calls) && Quiet(log, calls)
    requires s.replayLimit < |Pending(s, log)| <= |calls|
    ensures Consume(s, log, calls).delivered != Pending(s, log)
  {
    EverythingArrivesExactly(s, log, calls);
  }

  // Some of what is pending is never delivered, though there are calls enough.
  predicate Loses(s: Subscription, log: seq<Event>, calls: seq<Call>) {
    && Ordered(log) && AllPossible(log, calls) && |Pending(s, log)| <= |calls|
    && Consume(s, log, calls).delivered != Pending(s, log)
  }

  lemma CallsAreQuiet(log: seq<Event>, calls: seq<Call>)
    requires |log| == 2 && forall c :: c in calls ==> c == Call(2, 0, [], None)
    ensures AllPossible(log, calls) && Quiet(log, calls)
  {
    forall i | 0 <= i < |calls| ensures calls[i] == Call(2, 0, [], None) {
      assert calls[i] in calls;
    }
  }

  lemma BothWanted(s: Subscription, a: Event, b: Event, log: seq<Event>, calls: seq<Call>)
    requires log == [a, b] && Wanted(s)(a) && Wanted(s)(b) && s.replayLimit == 1
    requires CursorSequence(a.cursor) == Some(a.sequence) && CursorSequence(b.cursor) == Some(b.sequence)
    requires a.sequence < b.sequence && |calls| == 2 && forall c :: c in calls ==> c == Call(2, 0, [], None)
    ensures Loses(s, log, calls)
  {
    FilterAll(Wanted(s), log);
    CallsAreQuiet(log, calls);
    CrowdedLoses(s, log, calls);
  }

  /** Loss happens: with a replay limit of one and two events published before the first call, two calls do not deliver
      both. */
  lemma LossHappens(topic: string, start: Word64, n: Word64, m: Word64,
                    s: Subscription, log: seq<Event>, calls: seq<Call>)
    requires start < n < m && s == Narrow(topic, start) && log == [Sample(topic, n), Sample(topic, m)]
    requires |calls| == 2 && forall c :: c in calls ==> c == Call(2, 0, [], None)
    ensures Loses(s, log, calls)
  {
    SampleIsWanted(s, topic, start, n, log[0]);
    SampleIsWanted(s, topic, start, m, log[1]);
    BothWanted(s, log[0], log[1], log, calls);
  }
}
