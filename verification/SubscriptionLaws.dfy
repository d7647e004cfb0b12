/** Whose events a client gets, told by what it sent to subscribe. */
module SubscriptionLaws {
  import opened Prelude
  import opened Sequences
  import opened Subscriptions
  import opened LiveEvents
  import opened StreamDelivery
  import Params = SubscriptionParams
  import Json
  import Text

  // ---- What the client asked for -------------------------------------------------------------

  // A field names a text: it is that string, or an array that holds it. White space alone names nothing.
  predicate Names(fields: map<string, Json.Value>, key: string, x: string) {
    && key in fields && !Text.IsBlank(x)
    && (fields[key] == Json.Str(x) || (fields[key].Array? && Json.Str(x) in fields[key].items))
  }

  predicate NamesId(filters: Option<Json.Value>, x: string) {
    && filters.Some? && filters.value.Object?
    && var fields := filters.value.fields;
    || Names(fields, "resourceId", x) || Names(fields, "resourceIds", x)
    || Names(fields, "taskId", x) || Names(fields, "taskIds", x)
  }

  predicate NamesKind(filters: Option<Json.Value>, x: string) {
    && filters.Some? && filters.value.Object?
    && var fields := filters.value.fields;
    || Names(fields, "resourceType", x) || Names(fields, "resourceTypes", x)
  }

  // An event of a requested topic; of a named resource if any is named; of a named kind if any is named.
  ghost predicate AskedFor(p: SubscribeParams, e: Event) {
    && e.topic in p.topics
    && ((exists x :: NamesId(p.filters, x)) ==> NamesId(p.filters, e.id))
    && ((exists x :: NamesKind(p.filters, x)) ==> NamesKind(p.filters, e.kind))
  }

  // An event behind a checkpoint, or at its number under another cursor.
  predicate Past(cursor: string, e: Event) {
    match CursorSequence(cursor)
    case None => false
    case Some(n) => n < e.sequence || (n == e.sequence && cursor != e.cursor)
  }

  // ---- The recorded filters are those --------------------------------------------------------

  lemma {:induction false} StringsHold(items: seq<Json.Value>, x: string)
    requires Params.StringsOf(items).Some?
    ensures x in Params.StringsOf(items).value <==> Json.Str(x) in items
  {
    if items != [] {
      var n := |items| - 1;
      StringsHold(items[..n], x);
      assert items == items[..n] + [items[n]];
    }
  }

  lemma FieldSetHolds(fields: map<string, Json.Value>, key: string, x: string)
    requires Params.FieldSet(fields, key).Some?
    ensures x in Params.FieldSet(fields, key).value <==> Names(fields, key, x)
  {
    Text.BlankTrims(x);
    if key in fields && fields[key].Array? {
      StringsHold(fields[key].items, x);
    }
  }

  lemma FieldSetsSnoc(fields: map<string, Json.Value>, front: seq<string>, last: string, x: string)
    requires Params.FieldSets(fields, front + [last]).Ok?
    ensures Params.FieldSets(fields, front).Ok?
    ensures x in Params.FieldSets(fields, front + [last]).value
            <==> x in Params.FieldSets(fields, front).value || Names(fields, last, x)
  {
    assert (front + [last])[..|front|] == front;
    FieldSetHolds(fields, last, x);
  }

  lemma TwoFields(fields: map<string, Json.Value>, a: string, b: string, x: string)
    requires Params.FieldSets(fields, [a, b]).Ok?
    ensures x in Params.FieldSets(fields, [a, b]).value <==> Names(fields, a, x) || Names(fields, b, x)
  {
    assert [a, b] == [] + [a] + [b];
    FieldSetsSnoc(fields, [] + [a], b, x);
    FieldSetsSnoc(fields, [], a, x);
  }

  lemma FourFields(fields: map<string, Json.Value>, a: string, b: string, c: string, d: string, x: string)
    requires Params.FieldSets(fields, [a, b, c, d]).Ok?
    ensures x in Params.FieldSets(fields, [a, b, c, d]).value
            <==> Names(fields, a, x) || Names(fields, b, x) || Names(fields, c, x) || Names(fields, d, x)
  {
    assert [a, b, c, d] == [a, b] + [c] + [d];
    FieldSetsSnoc(fields, [a, b] + [c], d, x);
    FieldSetsSnoc(fields, [a, b], c, x);
    TwoFields(fields, a, b, x);
  }

  lemma FiltersHold(raw: Option<Json.Value>, x: string)
    requires Params.FiltersOf(raw).Ok?
    ensures x in Params.FiltersOf(raw).value.ids <==> NamesId(raw, x)
    ensures x in Params.FiltersOf(raw).value.kinds <==> NamesKind(raw, x)
  {
    if raw.Some? {
      FourFields(raw.value.fields, "resourceId", "resourceIds", "taskId", "taskIds", x);
      TwoFields(raw.value.fields, "resourceType", "resourceTypes", x);
    }
  }

  // A subscription made for these parameters, wherever its cursor stands by now.
  predicate IsFor(s: Subscription, p: SubscribeParams) {
    && Params.FiltersOf(p.filters).Ok?
    && s == RecordOf(p, Params.FiltersOf(p.filters).value, s.cursor, s.principal).(explicitCursor := s.explicitCursor)
  }

  /** What a subscription wants is what was asked for, past its cursor. */
  lemma WantedIsAskedFor(s: Subscription, p: SubscribeParams, e: Event)
    requires IsFor(s, p)
    ensures Wanted(s)(e) <==> AskedFor(p, e) && Past(s.cursor, e)
  {
    FiltersHold(p.filters, e.id);
    FiltersHold(p.filters, e.kind);
    forall x ensures x in s.ids <==> NamesId(p.filters, x) {
      FiltersHold(p.filters, x);
    }
    forall x ensures x in s.kinds <==> NamesKind(p.filters, x) {
      FiltersHold(p.filters, x);
    }
    NoneNamed(s.ids);
    NoneNamed(s.kinds);
  }

  lemma NoneNamed(names: set<string>)
    ensures names == {} <==> !exists x :: x in names
  {
    if names != {} {
      var x :| x in names;
    }
  }

  lemma {:induction false} FilterHolds(wanted: Test, events: seq<Event>, e: Event)
    ensures e in Filter(wanted, events) <==> e in events && wanted(e)
  {
    FilterMember(wanted, events, e);
  }

  /** Of all published events exactly those asked for and past the cursor are pending. */
  lemma PendingIsAskedFor(s: Subscription, p: SubscribeParams, log: seq<Event>, e: Event)
    requires IsFor(s, p)
    ensures e in Pending(s, log) <==> e in log && AskedFor(p, e) && Past(s.cursor, e)
  {
    FilterHolds(Wanted(s), log, e);
    WantedIsAskedFor(s, p, e);
  }

  // ---- From the call to the answer -----------------------------------------------------------

  /** A new subscription is for what the client sent; acknowledging moves its cursor and no more. */
  lemma SubscribedFor(p: SubscribeParams, start: string, principal: string, cursor: string)
    requires Params.FiltersOf(p.filters).Ok?
    ensures var s := RecordOf(p, Params.FiltersOf(p.filters).value, start, principal);
            && IsFor(s, p) && s.cursor == start && s.principal == principal
            && (s.explicitCursor <==> p.cursor.Some?)
            && s.replayLimit == (if p.replayLimit.Some? then p.replayLimit.value else 200)
    ensures forall s :: IsFor(s, p) && Acked(s, cursor).Ok? ==>
              var t := Acked(s, cursor).value;
              IsFor(t, p) && t.cursor == cursor && t.explicitCursor && t.principal == s.principal
  {}

  /** Every event of an answer, replayed or live, was published, was asked for and is past the cursor. */
  lemma AnswersAreAskedFor(s: Subscription, p: SubscribeParams, log: seq<Event>, c: Call, e: Event)
    requires IsFor(s, p) && Possible(log, c) && AnswerTo(s, log, c).Ok? && e in AnswerTo(s, log, c).value.events
    ensures e in log && AskedFor(p, e) && Past(s.cursor, e)
  {
    BatchIsStretch(s, log, c);
    PendingIsAskedFor(s, p, log, e);
  }

  // A client that subscribes and asks at once. Every event it is replayed was published, was asked for and is past its
  // start; if none were dropped it is replayed all such events of the history.
  method SubscribeAndAsk(streams: StreamDomain, p: SubscribeParams, principal: string, started: int, millis: int)
    returns (r: Result<ReplayBatch, Refusal>)
    requires streams.Valid()
    modifies streams`subscriptions, streams`counter
    ensures r.Ok? ==> forall e :: e in r.value.events ==>
              e in streams.log && AskedFor(p, e) && Past(StartOf(p.cursor, streams.log, started), e)
    ensures r.Ok? && r.value.dropped == 0 ==>
              forall e :: e in History(streams.log) && AskedFor(p, e)
                          && Past(StartOf(p.cursor, streams.log, started), e) ==>
                          e in r.value.events
  {
    var id, topics := streams.Subscribe(p, principal, started, millis);
    if id.Err? {
      return Err(id.error);
    }
    r := streams.ReplayForSubscription(id.value);
    ghost var s := streams.subscriptions[id.value];
    SubscribedFor(p, s.cursor, principal, "");
    ghost var kept := History(streams.log);
    forall e ensures e in Pending(s, kept) <==> e in kept && AskedFor(p, e) && Past(s.cursor, e) {
      PendingIsAskedFor(s, p, kept, e);
    }
    assert forall e :: e in kept ==> e in streams.log;
    assert forall e :: e in r.value.events ==> e in Pending(s, kept);
  }

  /** A subscription starts where it asks to, else at the newest event, else before the first. */
  lemma StartsWhereAsked(cursor: Option<string>, log: seq<Event>, millis: int)
    ensures cursor.Some? ==> StartOf(cursor, log, millis) == cursor.value
    ensures cursor.None? && log != [] ==> StartOf(cursor, log, millis) == log[|log| - 1].cursor
    ensures cursor.None? && log == [] ==> CursorSequence(StartOf(cursor, log, millis)) == Some(0)
  {
    CursorRoundTrip(millis, 0);
  }

  // ---- Refused filters -----------------------------------------------------------------------

  // A field that is there and is neither a string nor an array of strings.
  predicate IsMalformed(fields: map<string, Json.Value>, key: string) {
    && key in fields && !fields[key].Str?
    && (fields[key].Array? ==> exists i :: 0 <= i < |fields[key].items| && !fields[key].items[i].Str?)
  }

  lemma {:induction false} StringsAreStrings(items: seq<Json.Value>)
    ensures Params.StringsOf(items).Some? <==> forall i :: 0 <= i < |items| ==> items[i].Str?
  {
    if items != [] {
      StringsAreStrings(items[..|items| - 1]);
    }
  }

  lemma FieldIsRefused(fields: map<string, Json.Value>, key: string)
    ensures Params.FieldSet(fields, key).None? <==> IsMalformed(fields, key)
  {
    if key in fields && fields[key].Array? {
      StringsAreStrings(fields[key].items);
    }
  }

  lemma {:induction false} FieldsAreRefused(fields: map<string, Json.Value>, keys: seq<string>)
    ensures Params.FieldSets(fields, keys).Err? <==> exists i :: 0 <= i < |keys| && IsMalformed(fields, keys[i])
  {
    if keys != [] {
      var n := |keys| - 1;
      FieldsAreRefused(fields, keys[..n]);
      FieldIsRefused(fields, keys[n]);
      assert forall i :: 0 <= i < n ==> keys[..n][i] == keys[i];
    }
  }

  /** Filters are refused exactly if they are no object or one of the six fields is malformed. */
  lemma FiltersAreRefusedExactly(raw: Option<Json.Value>)
    ensures Params.FiltersOf(raw).Err? <==>
            raw.Some? && (!raw.value.Object?
                          || (exists i :: 0 <= i < 4 && IsMalformed(raw.value.fields, Params.ID_KEYS[i]))
                          || (exists i :: 0 <= i < 2 && IsMalformed(raw.value.fields, Params.KIND_KEYS[i])))
  {
    if raw.Some? && raw.value.Object? {
      FieldsAreRefused(raw.value.fields, Params.ID_KEYS);
      FieldsAreRefused(raw.value.fields, Params.KIND_KEYS);
    }
  }

  // ---- Sizes ---------------------------------------------------------------------------------

  /** The history is the newest 2048 events; a batch has between 1 and 200 events, 50 unless asked otherwise. */
  lemma SizesAre(log: seq<Event>, max: nat)
    ensures |History(log)| == (if |log| < 2048 then |log| else 2048) && History(log) == log[|log| - |History(log)|..]
    ensures Clamped(None) == 50 && Clamped(Some(0)) == 1
    ensures 1 <= max <= 200 ==> Clamped(Some(max)) == max
    ensures 200 < max ==> Clamped(Some(max)) == 200
  {}

  /** A replay drops the oldest beyond the limit, keeps the rest in order, and says where it starts and how many it
      has. */
  lemma ReplayKeepsTheNewest(s: Subscription, history: seq<Event>)
    ensures var r := ReplayOf(history, s);
            && |Pending(s, history)| == r.dropped + |r.events| && r.events == Pending(s, history)[r.dropped..]
            && (r.dropped > 0 ==> |r.events| == s.replayLimit) && |r.events| <= s.replayLimit
            && r.mark == Replayed(s.explicitCursor, s.cursor, |r.events|)
  {}

  /** An answer from a replay says where it starts, how many the replay has and how many it dropped; it never says that
      the wait timed out. */
  lemma ReplaysAreTold(s: Subscription, history: seq<Event>, feed: seq<Item>, max: nat)
    requires max > 0 && Pending(s, history) != []
    ensures var pending, a := Pending(s, history), NextAnswer(Wanted(s), ReplayOf(history, s), feed, max);
            && a.rest == feed && a.reply.Ok?
            && var r, kept := a.reply.value, if |pending| < s.replayLimit then |pending| else s.replayLimit;
            && r.mark == Replayed(s.explicitCursor, s.cursor, kept) && !r.timedOut
            && r.dropped == SaturatingAdd(0, |pending| - kept)
            && r.events == pending[|pending| - kept..][..if kept < max then kept else max]
  {}
}
