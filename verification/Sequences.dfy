/** Sequences in general: regrouping, cutting and filtering. */
module Sequences {

  lemma Associative<T>(a: seq<T>, b: seq<T>, c: seq<T>)
    ensures a + (b + c) == a + b + c
  {}

  lemma Regroup<T>(a: seq<T>, b: seq<T>, c: seq<T>, d: seq<T>)
    ensures a + (b + (c + d)) == a + (b + c) + d
  {}

  lemma Cut<T>(s: seq<T>, p: nat)
    requires p < |s|
    ensures s == s[..p] + [s[p]] + s[p + 1..]
    ensures s[p..] == [s[p]] + s[p + 1..]
    ensures s[..p + 1] == s[..p] + [s[p]]
  {}

  lemma Halves<T>(s: seq<T>, p: nat)
    requires p <= |s|
    ensures s == s[..p] + s[p..]
  {}

  // Two slices in a row make one.
  lemma Adjacent<T>(s: seq<T>, m: nat, n: nat)
    requires m <= |s| && n <= |s| - m
    ensures s[..m + n] == s[..m] + s[m..][..n] && s[m + n..] == s[m..][n..]
  {}

  // The elements that pass a test, in order.
  function Filter<T>(p: T -> bool, items: seq<T>): seq<T> {
    if items == [] then []
    else if p(items[0]) then [items[0]] + Filter(p, items[1..])
    else Filter(p, items[1..])
  }

  lemma {:induction false} FilterConcat<T>(p: T -> bool, a: seq<T>, b: seq<T>)
    ensures Filter(p, a + b) == Filter(p, a) + Filter(p, b)
  {
    if a == [] {
      assert a + b == b;
    } else {
      assert (a + b)[1..] == a[1..] + b;
      FilterConcat(p, a[1..], b);
      Associative([a[0]], Filter(p, a[1..]), Filter(p, b));
    }
  }

  lemma FilterOne<T>(p: T -> bool, x: T)
    ensures Filter(p, [x]) == if p(x) then [x] else []
  {
    assert [x][1..] == [];
  }

  lemma FilterSnoc<T>(p: T -> bool, items: seq<T>, i: nat)
    requires i < |items|
    ensures Filter(p, items[..i + 1]) == Filter(p, items[..i]) + if p(items[i]) then [items[i]] else []
  {
    Cut(items, i);
    FilterConcat(p, items[..i], [items[i]]);
    FilterOne(p, items[i]);
  }

  lemma FilterCut<T>(p: T -> bool, items: seq<T>, n: nat)
    requires n <= |items|
    ensures Filter(p, items) == Filter(p, items[..n]) + Filter(p, items[n..])
  {
    Halves(items, n);
    FilterConcat(p, items[..n], items[n..]);
  }

  lemma {:induction false} FilterNone<T>(p: T -> bool, items: seq<T>)
    requires forall i :: 0 <= i < |items| ==> !p(items[i])
    ensures Filter(p, items) == []
  {
    if items != [] {
      FilterNone(p, items[1..]);
    }
  }

  lemma {:induction false} FilterAll<T>(p: T -> bool, items: seq<T>)
    requires forall i :: 0 <= i < |items| ==> p(items[i])
    ensures Filter(p, items) == items
  {
    if items != [] {
      FilterAll(p, items[1..]);
    }
  }

  lemma {:induction false} FilterMember<T>(p: T -> bool, items: seq<T>, x: T)
    ensures x in Filter(p, items) <==> x in items && p(x)
  {
    if items != [] {
      FilterMember(p, items[1..], x);
      assert items == [items[0]] + items[1..];
    }
  }

  lemma {:induction false} FilterWeaker<T>(p: T -> bool, q: T -> bool, items: seq<T>)
    requires forall i :: 0 <= i < |items| && q(items[i]) ==> p(items[i])
    ensures Filter(p, items) == [] ==> Filter(q, items) == []
  {
    if items != [] {
      FilterWeaker(p, q, items[1..]);
    }
  }

  lemma {:induction false} FilterSame<T>(p: T -> bool, q: T -> bool, items: seq<T>)
    requires forall i :: 0 <= i < |items| ==> p(items[i]) == q(items[i])
    ensures Filter(p, items) == Filter(q, items)
  {
    if items != [] {
      FilterSame(p, q, items[1..]);
    }
  }

  // The position of the first occurrence, or the length.
  function Index<T(==)>(args: seq<T>, x: T): (p: nat)
    ensures p <= |args|
  {
    if args == [] || args[0] == x then 0 else 1 + Index(args[1..], x)
  }

  lemma {:induction false} FirstIsAt<T>(args: seq<T>, x: T)
    ensures var p := Index(args, x);
            && (x in args <==> p < |args|)
            && (p < |args| ==> args[p] == x)
            && (forall i :: 0 <= i < p ==> args[i] != x)
  {
    if args != [] && args[0] != x {
      FirstIsAt(args[1..], x);
    }
  }
}
