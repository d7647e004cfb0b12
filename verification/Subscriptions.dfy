/** Event subscriptions: cursors, the bounded history and what a subscription is replayed. */
module Subscriptions {
  import opened Prelude
  import opened Digits
  import opened Sequences
  import Text
  import Json
  import Params = SubscriptionParams

  // ---- Cursors -------------------------------------------------------------------------------

  predicate AllDecimal(s: string) {
    forall i :: 0 <= i < |s| ==> '0' <= s[i] <= '9'
  }

  // `str::parse::<u64>`: decimal digits behind an optional plus sign, refused on overflow.
  function ParseWord64(s: string): Option<Word64> {
    var digits := if s != [] && s[0] == '+' then s[1..] else s;
    if digits == [] || !AllDecimal(digits) || Parse(digits, Decimal) > U64_MAX then None
    else Some(Parse(digits, Decimal))
  }

  function CursorSequence(cursor: string): Option<Word64> {
    if '-' in cursor then ParseWord64(Text.AfterLastHyphen(cursor)) else None
  }

  function CursorText(millis: int, sequence: Word64): string {
    PrintInt(millis) + "-" + Print(sequence, Decimal)
  }

  lemma {:induction false} DecimalPrint(n: nat)
    ensures AllDecimal(Print(n, Decimal))
  {
    if Shift(n, Decimal) != 0 {
      DecimalPrint(Shift(n, Decimal));
    }
  }

  lemma ParseWord64OfPrint(n: Word64)
    ensures ParseWord64(Print(n, Decimal)) == Some(n) && '-' !in Print(n, Decimal)
  {
    var digits := Print(n, Decimal);
    DecimalPrint(n);
    ParsePrint(n, Decimal);
    assert digits[0] != '+';
  }

  /** A published cursor can be read back: it carries the sequence number of its event. */
  lemma CursorRoundTrip(millis: int, sequence: Word64)
    ensures CursorSequence(CursorText(millis, sequence)) == Some(sequence)
  {
    ParseWord64OfPrint(sequence);
    Text.LastHyphenDelimits(PrintInt(millis), Print(sequence, Decimal));
    assert CursorText(millis, sequence)[|PrintInt(millis)|] == '-';
  }

  // ---- Events and subscriptions --------------------------------------------------------------

  datatype Event = Event(topic: string, kind: string, id: string, cursor: string, sequence: Word64)

  // How a delivered batch is marked: replayed events carry the requested cursor and the size of the batch.
  datatype Mark = Live | Replayed(resumed: bool, requested: string, batch: nat)

  datatype Subscription = Subscription(
    topics: set<string>, ids: set<string>, kinds: set<string>,
    cursor: string, replayLimit: nat, explicitCursor: bool, principal: string)

  predicate Matches(s: Subscription, e: Event) {
    e.topic in s.topics && (s.ids == {} || e.id in s.ids) && (s.kinds == {} || e.kind in s.kinds)
  }

  // Past a checkpoint, given by its text and the sequence number read from it.
  predicate Beyond(cursor: string, sequence: Option<Word64>, e: Event) {
    sequence.Some? && (e.sequence > sequence.value || (e.sequence == sequence.value && e.cursor != cursor))
  }

  type Test = Event -> bool

  // What is wanted by one who read the text of the cursor at one moment and the rest at another.
  function WantedAt(cursor: string, s: Subscription): Test {
    e => Beyond(cursor, CursorSequence(s.cursor), e) && Matches(s, e)
  }

  function Wanted(s: Subscription): Test {
    WantedAt(s.cursor, s)
  }

  predicate IsPending(s: Subscription, e: Event) {
    Wanted(s)(e)
  }

  // The events a subscription has still to be told, in order of publication.
  function Pending(s: Subscription, events: seq<Event>): seq<Event> {
    Filter(Wanted(s), events)
  }

  // ---- The domain ----------------------------------------------------------------------------

  const HISTORY_LIMIT: nat := 2048
  const DEFAULT_REPLAY_LIMIT: nat := 200

  // How many of `n` published events the history has let go.
  function Evicted(n: nat): nat {
    if n > HISTORY_LIMIT then n - HISTORY_LIMIT else 0
  }

  function History(log: seq<Event>): seq<Event> {
    log[Evicted(|log|)..]
  }

  // Sequence numbers rise along the log and agree with the cursors.
  predicate Increasing(log: seq<Event>) {
    forall i, j :: 0 <= i < j < |log| ==> log[i].sequence < log[j].sequence
  }

  predicate Readable(log: seq<Event>) {
    forall i :: 0 <= i < |log| ==> CursorSequence(log[i].cursor) == Some(log[i].sequence)
  }

  predicate Ordered(log: seq<Event>) {
    Increasing(log) && Readable(log)
  }

  predicate Below(log: seq<Event>, next: Word64) {
    forall i :: 0 <= i < |log| ==> log[i].sequence < next
  }

  // What numbering events with a saturating counter guarantees.
  predicate Issued(log: seq<Event>, next: Word64) {
    Readable(log) && (next < U64_MAX ==> Increasing(log) && Below(log, next))
  }

  lemma IssuedNext(log: seq<Event>, next: Word64, e: Event)
    requires Issued(log, next) && e.sequence == next && CursorSequence(e.cursor) == Some(next)
    ensures Issued(log + [e], SaturatingAdd(next, 1))
  {}

  predicate AllReadable(subscriptions: map<string, Subscription>) {
    forall id | id in subscriptions :: CursorSequence(subscriptions[id].cursor).Some?
  }

  datatype ReplayBatch = ReplayBatch(events: seq<Event>, mark: Mark, dropped: nat)

  // How many events exceed the limit of a replay; the oldest are dropped.
  function Excess(events: nat, limit: nat): nat {
    if events > limit then events - limit else 0
  }

  function ReplayOf(history: seq<Event>, s: Subscription): ReplayBatch {
    var all := Pending(s, history);
    var dropped := Excess(|all|, s.replayLimit);
    var events := if dropped > 0 then all[dropped..] else all;
    ReplayBatch(events, Replayed(s.explicitCursor, s.cursor, |events|), dropped)
  }

  datatype Refusal =
    | SubscriptionNotFound | InvalidCursor | OlderThanCheckpoint | NotManaged | ReceiverClosed
    | BadParams(reason: Params.Refusal)

  // What a client sends to subscribe.
  datatype SubscribeParams = SubscribeParams(
    topics: seq<string>, cursor: Option<string>, replayLimit: Option<nat>, filters: Option<Json.Value>)

  function SubscriptionId(millis: int, counter: Word64): string {
    "sub-" + PrintInt(millis) + "-" + PrintPadded(counter, Hex, 4)
  }

  // Where a subscription starts: where it asks to, or at the newest event.
  function StartOf(cursor: Option<string>, log: seq<Event>, millis: int): string {
    match cursor
    case Some(c) => c
    case None => if log == [] then CursorText(millis, 0) else log[|log| - 1].cursor
  }

  // The record of an accepted subscription.
  function RecordOf(p: SubscribeParams, f: Params.Filters, start: string, principal: string): Subscription {
    Subscription((set t | t in p.topics), f.ids, f.kinds, start, p.replayLimit.GetOr(DEFAULT_REPLAY_LIMIT),
                 p.cursor.Some?, principal)
  }

  // Refusals come in this order: topics, cursor, filters.
  predicate TopicsFine(p: SubscribeParams, known: set<string>) {
    p.topics != [] && Params.AllKnown(p.topics, known)
  }

  predicate CursorFine(cursor: Option<string>) {
    cursor.Some? ==> CursorSequence(cursor.value).Some?
  }

  predicate Acceptable(p: SubscribeParams, known: set<string>) {
    TopicsFine(p, known) && CursorFine(p.cursor) && Params.FiltersOf(p.filters).Ok?
  }

  // What acknowledging a cursor does to a subscription.
  function Acked(s: Subscription, cursor: string): Result<Subscription, Refusal> {
    match CursorSequence(cursor)
    case None => Err(InvalidCursor)
    case Some(n) =>
      (match CursorSequence(s.cursor)
       case None => Err(InvalidCursor)
       case Some(m) =>
         if n < m then Err(OlderThanCheckpoint) else Ok(At(s, cursor)))
  }

  class StreamDomain {
    const known: set<string>
    var sequence: Word64
    var counter: Word64
    var history: seq<Event>
    var subscriptions: map<string, Subscription>
    ghost var log: seq<Event>

    ghost predicate Valid()
      reads this
    {
      history == History(log) && Issued(log, sequence) && AllReadable(subscriptions)
    }

    constructor (known: set<string>)
      ensures Valid() && log == [] && subscriptions == map[] && sequence == 1 && counter == 0 && this.known == known
    {
      this.known := known;
      sequence, counter, history, subscriptions, log := 1, 0, [], map[], [];
    }

    method NextEvent(topic: string, kind: string, id: string, millis: int) returns (e: Event)
      modifies this`sequence
      ensures e == Event(topic, kind, id, CursorText(millis, old(sequence)), old(sequence))
      ensures sequence == SaturatingAdd(old(sequence), 1)
    {
      e := Event(topic, kind, id, CursorText(millis, sequence), sequence);
      sequence := SaturatingAdd(sequence, 1);
    }

    // The history stays the end of the log; an unknown topic is ignored.
    method Publish(topic: string, kind: string, id: string, millis: int) returns (sent: Option<Event>)
      requires Valid()
      modifies this
      ensures Valid() && subscriptions == old(subscriptions) && counter == old(counter)
      ensures topic !in known ==> sent == None && log == old(log) && sequence == old(sequence)
      ensures topic in known ==>
                var e := Event(topic, kind, id, CursorText(millis, old(sequence)), old(sequence));
                sent == Some(e) && log == old(log) + [e] && sequence == SaturatingAdd(old(sequence), 1)
    {
      if topic !in known {
        return None;
      }
      var e := NextEvent(topic, kind, id, millis);
      CursorRoundTrip(millis, e.sequence);
      IssuedNext(log, e.sequence, e);
      HistoryAdvances(log, e);
      if |history| >= HISTORY_LIMIT {
        history := history[1..];
      }
      history := history + [e];
      log := log + [e];
      sent := Some(e);
    }

    // Keep-alives and back-pressure notices take a sequence number but are not kept.
    method EphemeralEvent(topic: string, id: string, millis: int) returns (e: Event)
      requires Valid()
      modifies this`sequence
      ensures Valid() && sequence == SaturatingAdd(old(sequence), 1)
      ensures e == Event(topic, "stream", id, CursorText(millis, old(sequence)), old(sequence))
    {
      e := NextEvent(topic, "stream", id, millis);
    }

    method Subscribe(p: SubscribeParams, principal: string, started: int, millis: int)
      returns (r: Result<string, Refusal>, accepted: seq<string>)
      requires Valid()
      modifies this`subscriptions, this`counter
      ensures Valid()
      ensures r.Ok? <==> Acceptable(p, known)
      ensures r.Err? ==> subscriptions == old(subscriptions) && counter == old(counter)
      ensures !TopicsFine(p, known) ==> r.Err? && r.error.BadParams?
      ensures TopicsFine(p, known) && !CursorFine(p.cursor) ==> r == Err(InvalidCursor)
      ensures TopicsFine(p, known) && CursorFine(p.cursor) && Params.FiltersOf(p.filters).Err? ==>
                r == Err(BadParams(Params.FiltersOf(p.filters).error))
      ensures r.Ok? ==>
                var f, start := Params.FiltersOf(p.filters).value, StartOf(p.cursor, log, started);
                && accepted == Params.Distinct(p.topics)
                && counter == SaturatingAdd(old(counter), 1) && r.value == SubscriptionId(millis, counter)
                && subscriptions == old(subscriptions)[r.value := RecordOf(p, f, start, principal)]
    {
      accepted := [];
      var topics := Params.NormalizeTopics(p.topics, known);
      if topics.Err? {
        return Err(BadParams(topics.error)), accepted;
      }
      if !CursorFine(p.cursor) {
        return Err(InvalidCursor), accepted;
      }
      var start := Start(p.cursor, started);
      StartIsReadable(p.cursor, log, started);
      var filters := Params.FiltersFromJson(p.filters);
      if filters.Err? {
        return Err(BadParams(filters.error)), accepted;
      }
      accepted := topics.value;
      Params.DistinctIsExact(p.topics);
      assert (set t | t in accepted) == (set t | t in p.topics);
      counter := SaturatingAdd(counter, 1);
      var id := SubscriptionId(millis, counter);
      subscriptions := subscriptions[id := Subscription(
        (set t | t in accepted), filters.value.ids, filters.value.kinds, start,
        p.replayLimit.GetOr(DEFAULT_REPLAY_LIMIT), p.cursor.Some?, principal)];
      r := Ok(id);
    }

    method Start(cursor: Option<string>, millis: int) returns (start: string)
      requires Valid()
      ensures start == StartOf(cursor, log, millis)
    {
      NewestIsKept(log);
      start := if cursor.Some? then cursor.value
               else if history == [] then CursorText(millis, 0)
               else history[|history| - 1].cursor;
    }

    method Unsubscribe(id: string) returns (r: Option<Refusal>)
      requires Valid()
      modifies this`subscriptions
      ensures Valid() && subscriptions == old(subscriptions) - {id}
      ensures r == if id in old(subscriptions) then None else Some(SubscriptionNotFound)
    {
      r := if id in subscriptions then None else Some(SubscriptionNotFound);
      subscriptions := subscriptions - {id};
    }

    // A cursor is checked before the subscription is looked up.
    method Ack(id: string, cursor: string) returns (r: Option<Refusal>)
      requires Valid()
      modifies this`subscriptions
      ensures Valid()
      ensures CursorSequence(cursor).None? ==> r == Some(InvalidCursor)
      ensures CursorSequence(cursor).Some? && id !in old(subscriptions) ==> r == Some(SubscriptionNotFound)
      ensures CursorSequence(cursor).Some? && id in old(subscriptions) ==>
                match Acked(old(subscriptions)[id], cursor)
                case Ok(s) => r == None && subscriptions == old(subscriptions)[id := s]
                case Err(e) => r == Some(e)
      ensures r.Some? ==> subscriptions == old(subscriptions)
    {
      var n := CursorSequence(cursor);
      if n.None? {
        return Some(InvalidCursor);
      }
      if id !in subscriptions {
        return Some(SubscriptionNotFound);
      }
      var s := subscriptions[id];
      if n.value < CursorSequence(s.cursor).value {
        return Some(OlderThanCheckpoint);
      }
      subscriptions := subscriptions[id := s.(cursor := cursor, explicitCursor := true)];
      return None;
    }

    method ReplayForSubscription(id: string) returns (r: Result<ReplayBatch, Refusal>)
      requires Valid()
      ensures r == if id in subscriptions then Ok(ReplayOf(History(log), subscriptions[id]))
                   else Err(SubscriptionNotFound)
    {
      if id !in subscriptions {
        return Err(SubscriptionNotFound);
      }
      var s := subscriptions[id];
      var events := SelectPending(s, history);
      var dropped := Excess(|events|, s.replayLimit);
      if dropped > 0 {
        events := events[dropped..];
      }
      return Ok(ReplayBatch(events, Replayed(s.explicitCursor, s.cursor, |events|), dropped));
    }
  }

  method SelectPending(s: Subscription, history: seq<Event>) returns (events: seq<Event>)
    ensures events == Pending(s, history)
  {
    events := [];
    for i := 0 to |history|
      invariant events == Pending(s, history[..i])
    {
      FilterSnoc(Wanted(s), history, i);
      if Beyond(s.cursor, CursorSequence(s.cursor), history[i]) && Matches(s, history[i]) {
        events := events + [history[i]];
      }
    }
    assert history[..|history|] == history;
  }

  lemma NewestIsKept(log: seq<Event>)
    ensures History(log) == [] <==> log == []
    ensures log != [] ==> History(log)[|History(log)| - 1] == log[|log| - 1]
  {}

  lemma StartIsReadable(cursor: Option<string>, log: seq<Event>, millis: int)
    requires CursorFine(cursor) && Readable(log)
    ensures CursorSequence(StartOf(cursor, log, millis)).Some?
  {
    CursorRoundTrip(millis, 0);
  }

  lemma HistoryAdvances(log: seq<Event>, e: Event)
    ensures var h := History(log);
            History(log + [e]) == (if |h| >= HISTORY_LIMIT then h[1..] else h) + [e]
  {}

  // ---- Checkpoints ---------------------------------------------------------------------------

  function At(s: Subscription, cursor: string): Subscription {
    s.(cursor := cursor, explicitCursor := true)
  }

  lemma SettledAt(t: Subscription, log: seq<Event>, q: nat, i: nat)
    requires Ordered(log) && i <= q < |log| && t.cursor == log[q].cursor
    ensures !Wanted(t)(log[i])
  {
    assert i == q || log[i].sequence < log[q].sequence;
  }

  lemma SettledUpTo(t: Subscription, log: seq<Event>, q: nat)
    requires Ordered(log) && q < |log| && t.cursor == log[q].cursor
    ensures Pending(t, log[..q + 1]) == []
  {
    forall i | 0 <= i < q + 1 ensures !Wanted(t)(log[i]) {
      SettledAt(t, log, q, i);
    }
    FilterNone(Wanted(t), log[..q + 1]);
  }

  lemma UnchangedBehind(s: Subscription, log: seq<Event>, q: nat)
    requires Ordered(log) && q < |log| && IsPending(s, log[q])
    ensures Pending(At(s, log[q].cursor), log[q + 1..]) == Pending(s, log[q + 1..])
  {
    FilterSame(Wanted(s), Wanted(At(s, log[q].cursor)), log[q + 1..]);
  }

  /** A checkpoint at a pending event is accepted; it settles that event and all before it, and leaves what is behind
      as it was. */
  lemma CheckpointSettles(s: Subscription, log: seq<Event>, q: nat)
    requires Ordered(log) && q < |log| && IsPending(s, log[q])
    ensures Acked(s, log[q].cursor) == Ok(At(s, log[q].cursor))
    ensures Pending(At(s, log[q].cursor), log) == Pending(s, log[q + 1..])
  {
    var t := At(s, log[q].cursor);
    SettledUpTo(t, log, q);
    UnchangedBehind(s, log, q);
    FilterCut(Wanted(t), log, q + 1);
  }

  lemma LaterIsBeyond(cursor: string, sequence: Option<Word64>, e: Event, later: Event)
    requires Beyond(cursor, sequence, e) && e.sequence < later.sequence
    ensures Beyond(cursor, sequence, later)
  {}

  // A later checkpoint wants nothing new.
  lemma CheckpointWantsLess(s: Subscription, t: Subscription, log: seq<Event>, q: nat, i: nat)
    requires Ordered(log) && q < |log| && i < |log| && Wanted(s)(log[q]) && Wanted(t)(log[i])
    requires t == At(s, log[q].cursor)
    ensures Wanted(s)(log[i])
  {
    if i <= q {
      SettledAt(t, log, q, i);
    } else {
      LaterIsBeyond(s.cursor, CursorSequence(s.cursor), log[q], log[i]);
    }
  }

  /** Reading the cursor's text and number in two looks differs from reading them in one only for a subscription whose
      cursor moved in between, and then only by the event just acknowledged, which is wanted once more. */
  lemma TornLookExactly(text: string, s: Subscription, log: seq<Event>, q: nat, i: nat)
    requires Ordered(log) && q < |log| && i < |log| && s.cursor == log[q].cursor
    ensures WantedAt(text, s)(log[i]) <==> IsPending(s, log[i]) || (i == q && text != s.cursor && Matches(s, log[q]))
  {
    if i < q {
      assert log[i].sequence < log[q].sequence;
    } else if q < i {
      assert log[q].sequence < log[i].sequence;
    }
  }

  /** Subscribing without a cursor starts behind everything published so far. */
  lemma StartsAtTheEnd(s: Subscription, log: seq<Event>)
    requires Ordered(log) && log != [] && s.cursor == log[|log| - 1].cursor
    ensures Pending(s, log) == []
  {
    SettledUpTo(s, log, |log| - 1);
    assert log[..|log|] == log;
  }
}
