/** Task records, and the order in which the store lists them: an ordered map, then a stable sort. */
module TaskRecords {
  import opened Prelude
  import opened Text
  import opened Sequences
  import opened QueueIds

  // Statuses are strings in the source; the five it compares with are constructors here, all others `Custom`.
  datatype Status = Open | Pending | Running | Closed | Failed | Custom(name: string)

  predicate IsTerminal(s: Status) {
    s.Closed? || s.Failed?
  }

  predicate IsActive(s: Status) {
    s.Pending? || s.Running?
  }

  // Time stamps are RFC 3339 strings and are compared as strings.
  datatype Task = Task(
    id: string, title: string, status: Status, priority: int, blockedBy: Option<string>,
    archivedAt: Option<string>, queuedTaskId: Option<QueueId>, mergeLoopPrompt: Option<string>,
    createdAt: string, updatedAt: string, completedAt: Option<string>, errorMessage: Option<string>)

  type Tasks = map<string, Task>

  // ---- Iteration in key order ----------------------------------------------------------------

  predicate Ascending(ks: seq<string>) {
    forall i, j :: 0 <= i < j < |ks| ==> Before(ks[i], ks[j])
  }

  predicate IsLeast(k: string, keys: set<string>) {
    k in keys && forall j :: j in keys ==> AtMost(k, j)
  }

  lemma {:induction false} LeastExists(keys: set<string>)
    requires keys != {}
    ensures exists k :: IsLeast(k, keys)
  {
    var some :| some in keys;
    if keys == {some} {
      assert IsLeast(some, keys);
    } else {
      LeastExists(keys - {some});
      var k :| IsLeast(k, keys - {some});
      BeforeTotal(k, some);
      var least := if Before(some, k) then some else k;
      forall j | j in keys ensures AtMost(least, j) {
        if least == some && j != some && j != k {
          assert j in keys - {some};
          BeforeTransitive(some, k, j);
        }
      }
      assert IsLeast(least, keys);
    }
  }

  lemma LeastIsUnique(keys: set<string>)
    ensures forall a, b :: IsLeast(a, keys) && IsLeast(b, keys) ==> a == b
  {
    forall a, b | IsLeast(a, keys) && IsLeast(b, keys) ensures a == b {
      if a != b {
        BeforeAsymmetric(a, b);
      }
    }
  }

  function KeysInOrder(keys: set<string>): (ks: seq<string>)
    ensures |ks| == |keys|
    ensures forall k :: k in ks <==> k in keys
  {
    if keys == {} then []
    else
      LeastExists(keys);
      LeastIsUnique(keys);
      var k :| IsLeast(k, keys);
      [k] + KeysInOrder(keys - {k})
  }

  lemma {:induction false} KeysAscend(keys: set<string>)
    ensures Ascending(KeysInOrder(keys))
  {
    if keys != {} {
      var ks := KeysInOrder(keys);
      assert IsLeast(ks[0], keys) && ks[1..] == KeysInOrder(keys - {ks[0]});
      KeysAscend(keys - {ks[0]});
      forall i, j | 0 <= i < j < |ks| ensures Before(ks[i], ks[j]) {
        assert ks[j] == ks[1..][j - 1] && ks[1..][j - 1] in keys - {ks[0]};
        if i > 0 {
          assert ks[i] == ks[1..][i - 1];
        }
      }
    }
  }

  // The values of the ordered map.
  function Values(m: Tasks): (ts: seq<Task>)
  {
    var ks := KeysInOrder(m.Keys);
    seq(|ks|, i requires 0 <= i < |ks| => m[ks[i]])
  }

  ghost predicate WellKeyed(m: Tasks) {
    forall k :: k in m ==> m[k].id == k
  }

  // Distinct records in the order of their ids.
  predicate ById(ts: seq<Task>) {
    forall i, j :: 0 <= i < j < |ts| ==> Before(ts[i].id, ts[j].id)
  }

  lemma ValuesById(m: Tasks)
    requires WellKeyed(m)
    ensures ById(Values(m))
    ensures forall t: Task :: t in Values(m) <==> t.id in m && m[t.id] == t
  {
    KeysAscend(m.Keys);
    var ks := KeysInOrder(m.Keys);
    forall i | 0 <= i < |ks| ensures ks[i] in m && Values(m)[i].id == ks[i] {
      assert ks[i] in ks;
    }
    forall t: Task | t.id in m && m[t.id] == t ensures t in Values(m) {
      assert t.id in ks;
      var i :| 0 <= i < |ks| && ks[i] == t.id;
      assert Values(m)[i] == t;
    }
  }

  // ---- Filtering -----------------------------------------------------------------------------

  lemma {:induction false} FilterKeeps(ts: seq<Task>, p: Task -> bool)
    requires ById(ts)
    ensures ById(Filter(p, ts))
    ensures forall t :: t in Filter(p, ts) <==> t in ts && p(t)
  {
    if ts != [] {
      FilterKeeps(ts[1..], p);
      assert forall t :: t in ts <==> t == ts[0] || t in ts[1..];
      var rest := Filter(p, ts[1..]);
      forall j | 0 <= j < |rest| ensures Before(ts[0].id, rest[j].id) {
        assert rest[j] in ts[1..];
      }
    }
  }

  // ---- Stable sorting ------------------------------------------------------------------------

  // The order a stable sort by `f` gives records that arrive in the order of their ids.
  predicate Ranked(f: Task -> string, a: Task, b: Task) {
    Before(f(a), f(b)) || (f(a) == f(b) && Before(a.id, b.id))
  }

  predicate RankedSeq(f: Task -> string, ts: seq<Task>) {
    forall i, j :: 0 <= i < j < |ts| ==> Ranked(f, ts[i], ts[j])
  }

  // Insertion from the back, before the first element that is not smaller: equal keys keep their order.
  function Insert(f: Task -> string, x: Task, ts: seq<Task>): seq<Task> {
    if ts == [] || !Before(f(ts[0]), f(x)) then [x] + ts else [ts[0]] + Insert(f, x, ts[1..])
  }

  function SortBy(f: Task -> string, ts: seq<Task>): seq<Task> {
    if ts == [] then [] else Insert(f, ts[0], SortBy(f, ts[1..]))
  }

  lemma RankedTransitive(f: Task -> string, a: Task, b: Task, c: Task)
    requires Ranked(f, a, b) && Ranked(f, b, c)
    ensures Ranked(f, a, c)
  {
    if Before(f(a), f(b)) && Before(f(b), f(c)) {
      BeforeTransitive(f(a), f(b), f(c));
    } else if f(a) == f(b) && f(b) == f(c) {
      BeforeTransitive(a.id, b.id, c.id);
    }
  }

  lemma RankedIrreflexive(f: Task -> string, a: Task)
    ensures !Ranked(f, a, a)
  {
    BeforeIrreflexive(f(a));
    BeforeIrreflexive(a.id);
  }

  lemma {:induction false} InsertElements(f: Task -> string, x: Task, ts: seq<Task>)
    ensures multiset(Insert(f, x, ts)) == multiset(ts) + multiset{x}
  {
    if ts == [] || !Before(f(ts[0]), f(x)) {
      assert multiset([x] + ts) == multiset{x} + multiset(ts);
    } else {
      InsertElements(f, x, ts[1..]);
      assert ts == [ts[0]] + ts[1..];
    }
  }

  lemma {:induction false} InsertRanked(f: Task -> string, x: Task, ts: seq<Task>)
    requires RankedSeq(f, ts) && forall i :: 0 <= i < |ts| ==> Before(x.id, ts[i].id)
    ensures RankedSeq(f, Insert(f, x, ts))
  {
    if ts == [] {
    } else if !Before(f(ts[0]), f(x)) {
      BeforeTotal(f(x), f(ts[0]));
      assert Ranked(f, x, ts[0]);
      forall j | 0 <= j < |ts| ensures Ranked(f, x, ts[j]) {
        if j > 0 {
          RankedTransitive(f, x, ts[0], ts[j]);
        }
      }
    } else {
      InsertRanked(f, x, ts[1..]);
      var rest := Insert(f, x, ts[1..]);
      InsertElements(f, x, ts[1..]);
      forall j | 0 <= j < |rest| ensures Ranked(f, ts[0], rest[j]) {
        assert rest[j] in multiset(rest);
        if rest[j] != x {
          assert rest[j] in ts[1..];
        }
      }
    }
  }

  lemma HeadPrecedes(ts: seq<Task>, rest: seq<Task>)
    requires ById(ts) && ts != [] && multiset(rest) == multiset(ts[1..])
    ensures forall i :: 0 <= i < |rest| ==> Before(ts[0].id, rest[i].id)
  {
    forall i | 0 <= i < |rest| ensures Before(ts[0].id, rest[i].id) {
      assert rest[i] in multiset(ts[1..]);
      assert rest[i] in ts[1..];
    }
  }

  /** A stable sort of records listed by id is a permutation of them in the order of key, then id. */
  lemma {:induction false} SortRanks(f: Task -> string, ts: seq<Task>)
    requires ById(ts)
    ensures RankedSeq(f, SortBy(f, ts))
    ensures multiset(SortBy(f, ts)) == multiset(ts)
  {
    if ts != [] {
      var rest := SortBy(f, ts[1..]);
      SortRanks(f, ts[1..]);
      HeadPrecedes(ts, rest);
      InsertRanked(f, ts[0], rest);
      InsertElements(f, ts[0], rest);
      assert ts == [ts[0]] + ts[1..];
    }
  }

  function Elements(ts: seq<Task>): set<Task> {
    set t | t in ts
  }

  /** The position of an element is the number of elements ranked before it. */
  lemma PositionCounts(f: Task -> string, ts: seq<Task>, p: nat)
    requires RankedSeq(f, ts) && p < |ts|
    ensures |set t | t in ts && Ranked(f, t, ts[p])| == p
  {
    forall t | t in ts && Ranked(f, t, ts[p]) ensures t in ts[..p] {
      var i :| 0 <= i < |ts| && ts[i] == t;
      if i >= p {
        if i > p {
          RankedTransitive(f, ts[p], t, ts[p]);
        }
        RankedIrreflexive(f, ts[p]);
      }
      assert ts[..p][i] == t;
    }
    assert (set t | t in ts && Ranked(f, t, ts[p])) == Elements(ts[..p]);
    PrefixSize(f, ts, p);
  }

  lemma {:induction false} PrefixSize(f: Task -> string, ts: seq<Task>, p: nat)
    requires RankedSeq(f, ts) && p <= |ts|
    ensures |Elements(ts[..p])| == p
  {
    if p > 0 {
      PrefixSize(f, ts, p - 1);
      var last := ts[p - 1];
      if last in Elements(ts[..p - 1]) {
        RankedIrreflexive(f, last);
      }
      assert ts[..p] == ts[..p - 1] + [last];
      assert Elements(ts[..p]) == Elements(ts[..p - 1]) + {last};
    }
  }
}
