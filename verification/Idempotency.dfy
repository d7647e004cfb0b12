/** The in-memory idempotency store: a map whose entries expire, pruned on every access. */
module Idempotency {
  import opened Protocol
  import Json

  datatype Entry = Entry(params: Json.Value, response: Stored, createdAt: nat)
  datatype Check = New | Replayed(response: Stored) | Conflicting

  type Entries = map<string, Entry>

  function MakeKey(rpc: string, key: string): string {
    rpc + ":" + key
  }

  function FirstColon(s: string): nat {
    if s == [] || s[0] == ':' then 0 else 1 + FirstColon(s[1..])
  }

  lemma {:induction false} ColonEndsMethod(rpc: string, key: string)
    requires ':' !in rpc
    ensures FirstColon(MakeKey(rpc, key)) == |rpc|
  {
    if rpc != [] {
      assert MakeKey(rpc, key)[1..] == MakeKey(rpc[1..], key);
      ColonEndsMethod(rpc[1..], key);
    }
  }

  /** Method names without a colon make the key unambiguous. */
  lemma MakeKeyInjective(a: string, x: string, b: string, y: string)
    requires ':' !in a && ':' !in b && MakeKey(a, x) == MakeKey(b, y)
    ensures a == b && x == y
  {
    ColonEndsMethod(a, x);
    ColonEndsMethod(b, y);
    var s := MakeKey(a, x);
    assert s[..|a|] == a && s[..|b|] == b;
    assert s[|a| + 1..] == x && s[|b| + 1..] == y;
  }

  // Some key of method `a` is also a key of method `b`.
  ghost predicate KeysMeet(a: string, b: string) {
    exists x: string, y: string :: MakeKey(a, x) == MakeKey(b, y)
  }

  lemma LongerMethodHoldsTheColon(a: string, x: string, b: string, y: string)
    requires MakeKey(a, x) == MakeKey(b, y) && |a| < |b|
    ensures a + ":" <= b
  {
    var s := MakeKey(a, x);
    assert s == a + ":" + x && s == b + ":" + y;
    assert s[..|a| + 1] == a + ":" && s[..|b|] == b;
    assert b[..|a| + 1] == s[..|a| + 1];
  }

  lemma KeysOfExtensionMeet(a: string, b: string)
    requires a + ":" <= b
    ensures MakeKey(a, b[|a| + 1..] + ":") == MakeKey(b, "")
  {
    assert b == a + ":" + b[|a| + 1..];
  }

  /** Keys of two methods can meet exactly when the methods are the same or one continues the other behind a colon. */
  lemma KeysMeetExactly(a: string, b: string)
    ensures KeysMeet(a, b) <==> a == b || a + ":" <= b || b + ":" <= a
  {
    if x: string, y: string :| MakeKey(a, x) == MakeKey(b, y) {
      if |a| < |b| {
        LongerMethodHoldsTheColon(a, x, b, y);
      } else if |b| < |a| {
        LongerMethodHoldsTheColon(b, y, a, x);
      } else {
        assert MakeKey(a, x)[..|a|] == a && MakeKey(b, y)[..|b|] == b;
      }
    }
    if a + ":" <= b {
      KeysOfExtensionMeet(a, b);
    }
    if b + ":" <= a {
      KeysOfExtensionMeet(b, a);
      assert MakeKey(a, "") == MakeKey(b, a[|b| + 1..] + ":");
    }
    if a == b {
      assert MakeKey(a, "") == MakeKey(b, "");
    }
  }

  predicate IsLive(e: Entry, ttl: nat, now: nat) {
    now - e.createdAt <= ttl
  }

  // A pruning reads the clock anew for each entry: the reading under which the entry of a key is judged.
  type Clock = string -> nat

  function Pruned(entries: Entries, ttl: nat, clock: Clock): Entries {
    map k | k in entries && IsLive(entries[k], ttl, clock(k)) :: entries[k]
  }

  function Answer(entries: Entries, storeKey: string, params: Json.Value): Check {
    if storeKey !in entries then New
    else if entries[storeKey].params == params then Replayed(entries[storeKey].response)
    else Conflicting
  }

  class Store {
    var entries: Entries
    const ttl: nat

    constructor (ttl: nat)
      ensures this.ttl == ttl && entries == map[]
    {
      this.ttl := ttl;
      entries := map[];
    }

    method Cleanup(clock: Clock)
      modifies this
      ensures entries == Pruned(old(entries), ttl, clock)
    {
      entries := map k | k in entries && clock(k) - entries[k].createdAt <= ttl :: entries[k];
    }

    method CheckKey(rpc: string, key: string, params: Json.Value, clock: Clock) returns (c: Check)
      modifies this
      ensures entries == Pruned(old(entries), ttl, clock)
      ensures c == Answer(entries, MakeKey(rpc, key), params)
    {
      Cleanup(clock);
      var storeKey := MakeKey(rpc, key);
      if storeKey !in entries {
        c := New;
      } else if entries[storeKey].params == params {
        c := Replayed(entries[storeKey].response);
      } else {
        c := Conflicting;
      }
    }

    // After the pruning the clock is read once more for the new entry.
    method StoreKey(rpc: string, key: string, params: Json.Value, response: Stored, clock: Clock, later: nat)
      modifies this
      ensures entries == Pruned(old(entries), ttl, clock)[MakeKey(rpc, key) := Entry(params, response, later)]
    {
      Cleanup(clock);
      entries := entries[MakeKey(rpc, key) := Entry(params, response, later)];
    }
  }
}
