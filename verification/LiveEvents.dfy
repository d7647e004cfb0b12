/** Answering `stream.next`: a replayed batch if there is one, else what a broadcast receiver yields while waiting. */
module LiveEvents {
  import opened Prelude
  import opened Subscriptions
  import opened Sequences

  const DEFAULT_EVENTS: nat := 50
  const MAX_EVENTS: nat := 200

  // What one attempt to receive yields. `Orphan`: an event that comes when the subscription is gone. `Idle`: nothing
  // there for `try_recv`; the timer wins over `recv`.
  type Positive = n: nat | n > 0 witness 1
  datatype Item = Arrived(event: Event) | Orphan(event: Event) | Lagged(skipped: Positive) | Idle | Closed

  datatype Batch = Batch(events: seq<Event>, dropped: Word64, rest: seq<Item>)
  datatype Reply = Reply(events: seq<Event>, mark: Mark, timedOut: bool, dropped: Word64)
  datatype Answer = Answer(reply: Result<Reply, Refusal>, rest: seq<Item>)

  function Clamped(max: Option<nat>): (n: nat)
    ensures 1 <= n <= MAX_EVENTS
  {
    var m := max.GetOr(DEFAULT_EVENTS);
    if m < 1 then 1 else if m > MAX_EVENTS then MAX_EVENTS else m
  }

  function FirstOf(events: seq<Event>, max: nat): seq<Event> {
    if |events| > max then events[..max] else events
  }

  // Draining what is there, up to `room` pending events or the first interruption.
  function Collect(wanted: Test, feed: seq<Item>, room: nat, dropped: Word64): Batch
    decreases |feed|
  {
    if room == 0 || feed == [] then Batch([], dropped, feed)
    else
      match feed[0]
      case Arrived(e) =>
        if wanted(e) then
          var b := Collect(wanted, feed[1..], room - 1, dropped);
          b.(events := [e] + b.events)
        else Collect(wanted, feed[1..], room, dropped)
      case Orphan(_) => Collect(wanted, feed[1..], room, dropped)
      case Lagged(skipped) => Batch([], SaturatingAdd(dropped, skipped), feed[1..])
      case Idle => Batch([], dropped, feed[1..])
      case Closed => Batch([], dropped, feed[1..])
  }

  // Waiting for the first pending event, the timer, a lag or the end; an empty script is a timer that fires.
  function Wait(wanted: Test, feed: seq<Item>, max: nat): Answer
    requires max > 0
    decreases |feed|
  {
    if feed == [] then Answer(Ok(Reply([], Live, true, 0)), [])
    else
      match feed[0]
      case Idle => Answer(Ok(Reply([], Live, true, 0)), feed[1..])
      case Lagged(skipped) => Answer(Ok(Reply([], Live, false, SaturatingAdd(0, skipped))), feed[1..])
      case Closed => Answer(Err(ReceiverClosed), feed[1..])
      case Arrived(e) =>
        if wanted(e) then
          var b := Collect(wanted, feed[1..], max - 1, 0);
          Answer(Ok(Reply([e] + b.events, Live, false, b.dropped)), b.rest)
        else Wait(wanted, feed[1..], max)
      case Orphan(_) => Wait(wanted, feed[1..], max)
  }

  function LiveAnswer(wanted: Test, feed: seq<Item>, max: nat): Answer
    requires max > 0
  {
    var b := Collect(wanted, feed, max, 0);
    if b.events != [] || b.dropped > 0 then Answer(Ok(Reply(b.events, Live, false, b.dropped)), b.rest)
    else Wait(wanted, b.rest, max)
  }

  predicate HasReplay(replay: ReplayBatch) {
    replay.events != [] || replay.dropped > 0
  }

  function ReplayAnswer(replay: ReplayBatch, feed: seq<Item>, max: nat): Answer {
    Answer(Ok(Reply(FirstOf(replay.events, max), replay.mark, false, SaturatingAdd(0, replay.dropped))), feed)
  }

  // The receiver is left alone while there is something to replay.
  function NextAnswer(wanted: Test, replay: ReplayBatch, feed: seq<Item>, max: nat): Answer
    requires max > 0
  {
    if HasReplay(replay) then ReplayAnswer(replay, feed, max)
    else LiveAnswer(wanted, feed, max)
  }

  // ---- The program ---------------------------------------------------------------------------

  class Receiver {
    var feed: seq<Item>

    constructor (feed: seq<Item>)
      ensures this.feed == feed
    {
      this.feed := feed;
    }

    method Receive() returns (item: Item)
      modifies this
      ensures item == if old(feed) == [] then Idle else old(feed)[0]
      ensures feed == if old(feed) == [] then [] else old(feed)[1..]
    {
      item := Idle;
      if feed != [] {
        item := feed[0];
        feed := feed[1..];
      }
    }
  }

  function Prepend(events: seq<Event>, b: Batch): Batch {
    b.(events := events + b.events)
  }

  lemma PrependOne(events: seq<Event>, e: Event, b: Batch)
    ensures Prepend(events, b.(events := [e] + b.events)) == Prepend(events + [e], b)
  {
    assert events + ([e] + b.events) == events + [e] + b.events;
  }

  // `None` stands for nothing found and nothing dropped.
  method CollectLiveEvents(wanted: Test, rx: Receiver, max: nat, before: Word64)
    returns (found: bool, events: seq<Event>, dropped: Word64)
    modifies rx
    ensures Batch(events, dropped, rx.feed) == Collect(wanted, old(rx.feed), max, before)
    ensures |events| <= max
    ensures found <==> max == 0 || events != [] || dropped > 0
  {
    events, dropped := [], before;
    if max == 0 {
      return true, events, dropped;
    }
    var collecting := true;
    while collecting
      invariant |events| <= max
      invariant collecting ==> |events| < max
      invariant Collect(wanted, old(rx.feed), max, before)
                == if collecting then Prepend(events, Collect(wanted, rx.feed, max - |events|, dropped))
                   else Batch(events, dropped, rx.feed)
      decreases collecting, |rx.feed|
    {
      ghost var rest := rx.feed;
      var item := rx.Receive();
      match item {
        case Arrived(e) =>
          if wanted(e) {
            PrependOne(events, e, Collect(wanted, rx.feed, max - |events| - 1, dropped));
            events := events + [e];
            collecting := |events| < max;
          }
        case Orphan(_) =>
        case Lagged(skipped) =>
          dropped := SaturatingAdd(dropped, skipped);
          collecting := false;
        case Idle => collecting := false;
        case Closed => collecting := false;
      }
    }
    found := events != [] || dropped > 0;
  }

  method WaitForEvent(wanted: Test, rx: Receiver, max: nat) returns (reply: Result<Reply, Refusal>)
    requires max > 0
    modifies rx
    ensures Answer(reply, rx.feed) == Wait(wanted, old(rx.feed), max)
  {
    while true
      invariant Wait(wanted, old(rx.feed), max) == Wait(wanted, rx.feed, max)
      decreases |rx.feed|
    {
      var item := rx.Receive();
      match item {
        case Idle => return Ok(Reply([], Live, true, 0));
        case Lagged(skipped) => return Ok(Reply([], Live, false, SaturatingAdd(0, skipped)));
        case Closed => return Err(ReceiverClosed);
        case Arrived(e) =>
          if wanted(e) {
            var events := [e];
            var dropped := 0;
            var found, more, d := CollectLiveEvents(wanted, rx, max - |events|, dropped);
            if found {
              dropped := d;
              events := events + more;
            }
            assert [e] + more == events;
            return Ok(Reply(events, Live, false, dropped));
          }
        case Orphan(_) =>
      }
    }
  }

  // What successive looks at the tables find: whether the subscription is there, whether its receiver is, what it is
  // replayed, the text of its cursor, and how it stands when the number of the cursor is read.
  method StreamNext(subscribed: bool, managed: bool, replay: Option<ReplayBatch>, text: Option<string>,
                    s: Option<Subscription>, rx: Receiver, requested: Option<nat>)
    returns (reply: Result<Reply, Refusal>)
    modifies rx
    ensures subscribed && !managed ==> reply == Err(NotManaged)
    ensures !subscribed || (managed && replay.None?) ==> reply == Err(SubscriptionNotFound)
    ensures !subscribed || !managed || replay.None? ==> rx.feed == old(rx.feed)
    ensures subscribed && managed && replay.Some? && HasReplay(replay.value) ==>
              Answer(reply, rx.feed) == ReplayAnswer(replay.value, old(rx.feed), Clamped(requested))
    ensures subscribed && managed && replay.Some? && !HasReplay(replay.value) ==>
              Answer(reply, rx.feed)
              == if text.Some? && s.Some? then
                   LiveAnswer(WantedAt(text.value, s.value), old(rx.feed), Clamped(requested))
                 else Answer(Err(SubscriptionNotFound), old(rx.feed))
  {
    var max := Clamped(requested);
    if !subscribed {
      return Err(SubscriptionNotFound);
    }
    if !managed {
      return Err(NotManaged);
    }
    if replay.None? {
      return Err(SubscriptionNotFound);
    }
    if replay.value.events != [] || replay.value.dropped > 0 {
      return Ok(Reply(FirstOf(replay.value.events, max), replay.value.mark, false,
                      SaturatingAdd(0, replay.value.dropped)));
    }
    if text.None? || s.None? {
      return Err(SubscriptionNotFound);
    }
    var wanted := WantedAt(text.value, s.value);
    var found, events, dropped := CollectLiveEvents(wanted, rx, max, 0);
    if found {
      return Ok(Reply(events, Live, false, dropped));
    }
    reply := WaitForEvent(wanted, rx, max);
  }

  // ---- What an answer holds ------------------------------------------------------------------

  // The events that came while the subscription was there.
  function EventsIn(items: seq<Item>): seq<Event> {
    if items == [] then []
    else if items[0].Arrived? then [items[0].event] + EventsIn(items[1..])
    else EventsIn(items[1..])
  }

  // The lag counts seen, added up without bound.
  function Skipped(items: seq<Item>): nat {
    if items == [] then 0 else (if items[0].Lagged? then items[0].skipped else 0) + Skipped(items[1..])
  }

  predicate IsEvent(item: Item) {
    item.Arrived? || item.Orphan?
  }

  // All events but for a last item that interrupts.
  predicate Uninterrupted(items: seq<Item>) {
    forall i :: 0 <= i < |items| - 1 ==> IsEvent(items[i])
  }

  predicate Interrupts(items: seq<Item>) {
    items != [] && !IsEvent(items[|items| - 1])
  }

  lemma OneMore(feed: seq<Item>, n: nat)
    requires 0 < |feed| && n < |feed|
    ensures var used := feed[..n + 1];
            && used[0] == feed[0] && used[1..] == feed[1..][..n] && feed[n + 1..] == feed[1..][n..]
  {}

  /** Draining takes a prefix of what the receiver has: it hands on exactly the pending events in it, in order, adds
      up its lags, and stops only when full, interrupted or out of input. */
  lemma {:induction false} CollectIsExact(wanted: Test, feed: seq<Item>, room: nat, dropped: Word64)
    returns (n: nat)
    ensures n <= |feed|
    ensures var b, used := Collect(wanted, feed, room, dropped), feed[..n];
            && b.rest == feed[n..]
            && b.events == Filter(wanted, EventsIn(used))
            && b.dropped == SaturatingAdd(dropped, Skipped(used))
            && |b.events| <= room
            && Uninterrupted(used)
            && (|b.events| == room || Interrupts(used) || n == |feed|)
    decreases |feed|
  {
    if room == 0 || feed == [] {
      n := 0;
    } else if feed[0].Arrived? {
      var e := feed[0].event;
      var m := CollectIsExact(wanted, feed[1..], if wanted(e) then room - 1 else room, dropped);
      OneMore(feed, m);
      n := m + 1;
      assert ([e] + EventsIn(feed[1..][..m]))[1..] == EventsIn(feed[1..][..m]);
    } else if feed[0].Orphan? {
      var m := CollectIsExact(wanted, feed[1..], room, dropped);
      OneMore(feed, m);
      n := m + 1;
    } else {
      n := 1;
      OneMore(feed, 0);
    }
  }

  // What the wait for a first event took from the receiver, given what it answers.
  predicate Accounts(wanted: Test, reply: Result<Reply, Refusal>, used: seq<Item>, max: nat) {
    var pending := Filter(wanted, EventsIn(used));
    match reply
    case Ok(r) =>
      && r.events == pending && |r.events| <= max
      && r.dropped == SaturatingAdd(0, Skipped(used)) && r.mark == Live
      && (r.timedOut <==> r.events == [] && r.dropped == 0)
    case Err(_) => pending == [] && used != [] && used[|used| - 1].Closed?
  }

  lemma {:induction false} EventsInConcat(a: seq<Item>, b: seq<Item>)
    ensures EventsIn(a + b) == EventsIn(a) + EventsIn(b)
  {
    if a == [] {
      assert a + b == b;
    } else {
      assert (a + b)[1..] == a[1..] + b;
      EventsInConcat(a[1..], b);
      if a[0].Arrived? {
        Associative([a[0].event], EventsIn(a[1..]), EventsIn(b));
      }
    }
  }

  lemma {:induction false} SkippedConcat(a: seq<Item>, b: seq<Item>)
    ensures Skipped(a + b) == Skipped(a) + Skipped(b)
  {
    if a == [] {
      assert a + b == b;
    } else {
      assert (a + b)[1..] == a[1..] + b;
      SkippedConcat(a[1..], b);
    }
  }

  lemma ThenAccounts(wanted: Test, reply: Result<Reply, Refusal>, first: seq<Item>, used: seq<Item>, max: nat)
    requires Accounts(wanted, reply, used, max) && Filter(wanted, EventsIn(first)) == [] && Skipped(first) == 0
    ensures Accounts(wanted, reply, first + used, max)
  {
    EventsInConcat(first, used);
    SkippedConcat(first, used);
    FilterConcat(wanted, EventsIn(first), EventsIn(used));
  }

  lemma OneItem(item: Item)
    ensures EventsIn([item]) == if item.Arrived? then [item.event] else []
    ensures Skipped([item]) == if item.Lagged? then item.skipped else 0
  {
    assert [item][1..] == [];
  }

  lemma PendingAccounts(wanted: Test, item: Item, used: seq<Item>)
    requires item.Arrived? && wanted(item.event)
    ensures Filter(wanted, EventsIn([item] + used)) == [item.event] + Filter(wanted, EventsIn(used))
    ensures Skipped([item] + used) == Skipped(used)
  {
    OneItem(item);
    FilterOne(wanted, item.event);
    EventsInConcat([item], used);
    SkippedConcat([item], used);
    FilterConcat(wanted, [item.event], EventsIn(used));
  }

  lemma {:induction false} WaitIsExact(wanted: Test, feed: seq<Item>, max: nat) returns (n: nat)
    requires max > 0
    ensures n <= |feed| && Wait(wanted, feed, max).rest == feed[n..]
    ensures Accounts(wanted, Wait(wanted, feed, max).reply, feed[..n], max)
    decreases |feed|
  {
    n := 0;
    if feed != [] {
      var item, m := feed[0], 0;
      OneItem(item);
      if item.Arrived? {
        FilterOne(wanted, item.event);
        if wanted(item.event) {
          m := CollectIsExact(wanted, feed[1..], max - 1, 0);
          PendingAccounts(wanted, feed[0], feed[1..][..m]);
        } else {
          m := WaitIsExact(wanted, feed[1..], max);
          ThenAccounts(wanted, Wait(wanted, feed, max).reply, [item], feed[1..][..m], max);
        }
      } else if item.Orphan? {
        m := WaitIsExact(wanted, feed[1..], max);
        ThenAccounts(wanted, Wait(wanted, feed, max).reply, [item], feed[1..][..m], max);
      }
      n := 1 + m;
      Adjacent(feed, 1, m);
      assert feed[..1] == [item];
    }
  }

  /** A live answer hands on exactly the pending events among what it took from the receiver, in order and at most
      `max`; none is lost, not even when it is refused because the receiver is closed. The reported drop count is the
      saturating sum of the lags. */
  lemma LiveAnswerIsExact(wanted: Test, feed: seq<Item>, max: nat) returns (n: nat)
    requires max > 0
    ensures n <= |feed| && LiveAnswer(wanted, feed, max).rest == feed[n..]
    ensures Accounts(wanted, LiveAnswer(wanted, feed, max).reply, feed[..n], max)
  {
    n := CollectIsExact(wanted, feed, max, 0);
    var b := Collect(wanted, feed, max, 0);
    if b.events == [] && b.dropped == 0 {
      var m := WaitIsExact(wanted, feed[n..], max);
      ThenAccounts(wanted, LiveAnswer(wanted, feed, max).reply, feed[..n], feed[n..][..m], max);
      Adjacent(feed, n, m);
      n := n + m;
    }
  }
}
