/** Normalising Codex arguments: `--yolo` supersedes the legacy bypass flag and `--full-auto`. */
module CodexArgs {
  import opened Sequences

  // Arguments are strings in the source; the four it compares with are constructors here, all others `Plain`.
  datatype Arg = Bypass | Yolo | FullAuto | Exec | Plain(text: string)

  function NotIn<T(==)>(dropped: set<T>): T -> bool {
    x => x !in dropped
  }

  // `Vec::retain`: everything but the dropped arguments, in order.
  function Without<T(==)>(args: seq<T>, dropped: set<T>): seq<T> {
    Filter(NotIn(dropped), args)
  }

  function InsertAt<T>(args: seq<T>, p: nat, x: T): seq<T>
    requires p <= |args|
  {
    args[..p] + [x] + args[p..]
  }

  // Drops all occurrences after the first.
  function KeepFirst<T(==)>(args: seq<T>, x: T): seq<T> {
    var p := Index(args, x);
    if p == |args| then args else args[..p + 1] + Without(args[p + 1..], {x})
  }

  function AddYolo(args: seq<Arg>): seq<Arg> {
    var p := Index(args, Exec);
    if p < |args| then InsertAt(args, p + 1, Yolo) else args + [Yolo]
  }

  // The two stages of the program.
  function Unbypassed(args: seq<Arg>): seq<Arg> {
    if Bypass !in args then args
    else
      var rest := Without(args, {Bypass});
      if Yolo in rest then rest else AddYolo(rest)
  }

  function Reconcile(args: seq<Arg>): seq<Arg> {
    var a := Unbypassed(args);
    if Yolo in a then KeepFirst(Without(a, {FullAuto}), Yolo) else a
  }

  // ---- Retaining and finding -----------------------------------------------------------------

  lemma WithoutAround<T>(a: seq<T>, x: T, b: seq<T>, dropped: set<T>)
    ensures Without(a + [x] + b, dropped)
            == Without(a, dropped) + (if x in dropped then [] else [x]) + Without(b, dropped)
  {
    FilterConcat(NotIn(dropped), a + [x], b);
    FilterConcat(NotIn(dropped), a, [x]);
    FilterOne(NotIn(dropped), x);
  }

  lemma {:induction false} WithoutTwice<T>(a: seq<T>, s: set<T>, t: set<T>)
    ensures Without(Without(a, s), t) == Without(a, s + t)
  {
    if a != [] {
      var first := if a[0] in s then [] else [a[0]];
      WithoutTwice(a[1..], s, t);
      FilterConcat(NotIn(t), first, Without(a[1..], s));
      FilterOne(NotIn(t), a[0]);
    }
  }

  lemma {:induction false} IndexAt<T>(a: seq<T>, x: T, b: seq<T>)
    requires x !in a
    ensures Index(a + [x] + b, x) == |a|
  {
    if a != [] {
      assert (a + [x] + b)[1..] == a[1..] + [x] + b;
      IndexAt(a[1..], x, b);
    }
  }

  // A sequence is cut at the first occurrence of an element it holds.
  lemma CutAt<T>(args: seq<T>, x: T)
    ensures var p := Index(args, x);
            if x in args then p < |args| && args == args[..p] + [x] + args[p + 1..] && x !in args[..p]
            else p == |args|
  {
    FirstIsAt(args, x);
    var p := Index(args, x);
    if p < |args| {
      Cut(args, p);
    }
  }

  lemma KeepFirstAround<T>(a: seq<T>, x: T, b: seq<T>)
    requires x !in a
    ensures KeepFirst(a + [x] + b, x) == a + [x] + Without(b, {x})
  {
    IndexAt(a, x, b);
    var s := a + [x] + b;
    assert s[..|a| + 1] == a + [x] && s[|a| + 1..] == b;
  }

  lemma KeepFirstAbsent<T>(a: seq<T>, x: T)
    requires x !in a
    ensures KeepFirst(a, x) == a
  {
    CutAt(a, x);
  }

  lemma KeepFirstAroundSnoc<T>(a: seq<T>, x: T, b: seq<T>, y: T)
    requires x !in a
    ensures KeepFirst(a + [x] + b + [y], x) == KeepFirst(a + [x] + b, x) + if y == x then [] else [y]
  {
    Associative(a + [x], b, [y]);
    KeepFirstAround(a, x, b);
    KeepFirstAround(a, x, b + [y]);
    FilterConcat(NotIn({x}), b, [y]);
    FilterOne(NotIn({x}), y);
  }

  lemma KeepFirstSnoc<T>(front: seq<T>, y: T, x: T)
    ensures KeepFirst(front + [y], x) == KeepFirst(front, x) + if y == x && x in front then [] else [y]
  {
    if x in front {
      var p := Index(front, x);
      CutAt(front, x);
      KeepFirstAroundSnoc(front[..p], x, front[p + 1..], y);
    } else {
      KeepFirstAbsent(front, x);
      if y == x {
        KeepFirstAround(front, x, []);
        assert front + [x] + [] == front + [x];
      } else {
        KeepFirstAbsent(front + [y], x);
      }
    }
  }

  // ---- The program ---------------------------------------------------------------------------

  method Retain(args: seq<Arg>, dropped: Arg) returns (kept: seq<Arg>)
    ensures kept == Without(args, {dropped})
  {
    kept := [];
    for i := 0 to |args|
      invariant kept == Without(args[..i], {dropped})
    {
      assert args[..i + 1] == args[..i] + [args[i]];
      FilterConcat(NotIn({dropped}), args[..i], [args[i]]);
      FilterOne(NotIn({dropped}), args[i]);
      if args[i] != dropped {
        kept := kept + [args[i]];
      }
    }
    assert args[..|args|] == args;
  }

  // The retain with a `seen` flag.
  method CollapseYolo(args: seq<Arg>) returns (kept: seq<Arg>, seen: bool)
    ensures kept == KeepFirst(args, Yolo)
    ensures seen <==> Yolo in args
  {
    kept, seen := [], false;
    for i := 0 to |args|
      invariant seen <==> Yolo in args[..i]
      invariant kept == KeepFirst(args[..i], Yolo)
    {
      assert args[..i + 1] == args[..i] + [args[i]];
      KeepFirstSnoc(args[..i], args[i], Yolo);
      if args[i] != Yolo || !seen {
        kept := kept + [args[i]];
      }
      if args[i] == Yolo {
        seen := true;
      }
    }
    assert args[..|args|] == args;
  }

  method ReplaceBypass(input: seq<Arg>) returns (args: seq<Arg>)
    ensures args == Unbypassed(input)
  {
    args := input;
    if Bypass in args {
      args := Retain(args, Bypass);
      if Yolo !in args {
        var p := Index(args, Exec);
        args := if p < |args| then args[..p + 1] + [Yolo] + args[p + 1..] else args + [Yolo];
      }
    }
  }

  method ReconcileCodexArgs(input: seq<Arg>) returns (args: seq<Arg>)
    ensures args == Reconcile(input)
  {
    args := ReplaceBypass(input);
    if Yolo in args {
      FilterMember(NotIn({FullAuto}), args, Yolo);
      args := Retain(args, FullAuto);
      var seen;
      args, seen := CollapseYolo(args);
      // The source re-inserts the flag if none was seen; that cannot happen.
      assert seen;
    }
  }

  // ---- What it amounts to --------------------------------------------------------------------

  const FLAGS: set<Arg> := {Bypass, Yolo, FullAuto}

  // Everything that is not one of the three flags.
  function Others(args: seq<Arg>): seq<Arg> {
    Without(args, FLAGS)
  }

  // Where the one `--yolo` goes: where the first one was, else behind `exec`, else at the end.
  function Anchor(args: seq<Arg>): nat {
    if Yolo in args then Index(args, Yolo)
    else if Exec in args then Index(args, Exec) + 1
    else |args|
  }

  // The second stage, on arguments cut at their first `--yolo` and free of the bypass flag.
  lemma SecondStage(a: seq<Arg>, b: seq<Arg>)
    requires Yolo !in a && Bypass !in a && Bypass !in b
    ensures KeepFirst(Without(a + [Yolo] + b, {FullAuto}), Yolo) == Others(a) + [Yolo] + Others(b)
  {
    WithoutAround(a, Yolo, b, {FullAuto});
    FilterMember(NotIn({FullAuto}), a, Yolo);
    KeepFirstAround(Without(a, {FullAuto}), Yolo, Without(b, {FullAuto}));
    FilterSame(NotIn({FullAuto}), NotIn(FLAGS), a);
    WithoutTwice(b, {FullAuto}, {Yolo});
    FilterSame(NotIn({FullAuto} + {Yolo}), NotIn(FLAGS), b);
  }

  lemma SecondStageOfUnbypassed(a: seq<Arg>, b: seq<Arg>)
    requires Yolo !in a
    ensures var rest := Without(a, {Bypass}) + [Yolo] + Without(b, {Bypass});
            KeepFirst(Without(rest, {FullAuto}), Yolo) == Others(a) + [Yolo] + Others(b)
  {
    FilterMember(NotIn({Bypass}), a, Yolo);
    FilterMember(NotIn({Bypass}), a, Bypass);
    FilterMember(NotIn({Bypass}), b, Bypass);
    SecondStage(Without(a, {Bypass}), Without(b, {Bypass}));
    WithoutTwice(a, {Bypass}, FLAGS);
    WithoutTwice(b, {Bypass}, FLAGS);
    assert {Bypass} + FLAGS == FLAGS;
  }

  lemma ReconcileAroundYolo(a: seq<Arg>, b: seq<Arg>)
    requires Yolo !in a
    ensures Reconcile(a + [Yolo] + b) == Others(a) + [Yolo] + Others(b)
  {
    var args := a + [Yolo] + b;
    assert Yolo in args;
    if Bypass in args {
      WithoutAround(a, Yolo, b, {Bypass});
      FilterMember(NotIn({Bypass}), args, Yolo);
      SecondStageOfUnbypassed(a, b);
    } else {
      SecondStage(a, b);
    }
  }

  lemma AddYoloBehindExec(a: seq<Arg>, b: seq<Arg>)
    requires Exec !in a
    ensures AddYolo(a + [Exec] + b) == (a + [Exec]) + [Yolo] + b
  {
    var args := a + [Exec] + b;
    IndexAt(a, Exec, b);
    assert args[..|a| + 1] == a + [Exec] && args[|a| + 1..] == b;
  }

  lemma ReconcileBehindExec(a: seq<Arg>, b: seq<Arg>)
    requires Exec !in a && Yolo !in a && Yolo !in b && Bypass in a + b
    ensures Reconcile(a + [Exec] + b) == Others(a + [Exec]) + [Yolo] + Others(b)
  {
    var args := a + [Exec] + b;
    var rest := Without(args, {Bypass});
    FilterMember(NotIn({Bypass}), args, Yolo);
    WithoutAround(a, Exec, b, {Bypass});
    FilterMember(NotIn({Bypass}), a, Exec);
    AddYoloBehindExec(Without(a, {Bypass}), Without(b, {Bypass}));
    FilterConcat(NotIn({Bypass}), a, [Exec]);
    FilterOne(NotIn({Bypass}), Exec);
    assert Bypass in args;
    assert Unbypassed(args) == Without(a + [Exec], {Bypass}) + [Yolo] + Without(b, {Bypass});
    SecondStageOfUnbypassed(a + [Exec], b);
  }

  lemma ReconcileAtEnd(args: seq<Arg>)
    requires Exec !in args && Yolo !in args && Bypass in args
    ensures Reconcile(args) == Others(args) + [Yolo]
  {
    var rest := Without(args, {Bypass});
    FilterMember(NotIn({Bypass}), args, Yolo);
    FilterMember(NotIn({Bypass}), args, Exec);
    CutAt(rest, Exec);
    assert Unbypassed(args) == rest + [Yolo] + Without([], {Bypass});
    SecondStageOfUnbypassed(args, []);
  }

  // One `--yolo` between the other arguments of `a` and those of `b`.
  function Around(a: seq<Arg>, b: seq<Arg>): seq<Arg> {
    Others(a) + [Yolo] + Others(b)
  }

  // The closed form for arguments that hold `--yolo` or the bypass flag.
  function Canonical(args: seq<Arg>): seq<Arg> {
    var p := Anchor(args);
    if p <= |args| then Around(args[..p], args[p..]) else []
  }

  lemma OthersSkipYolo(b: seq<Arg>)
    ensures Others([Yolo] + b) == Others(b)
  {
    FilterConcat(NotIn(FLAGS), [Yolo], b);
    FilterOne(NotIn(FLAGS), Yolo);
  }

  lemma ClosedFormAtYolo(args: seq<Arg>, p: nat)
    requires Yolo in args && p == Index(args, Yolo)
    ensures p < |args| && Reconcile(args) == Around(args[..p], args[p..])
  {
    CutAt(args, Yolo);
    ReconcileAroundYolo(args[..p], args[p + 1..]);
    Cut(args, p);
    OthersSkipYolo(args[p + 1..]);
  }

  lemma ClosedFormBehindExec(args: seq<Arg>, e: nat)
    requires Yolo !in args && Bypass in args && Exec in args && e == Index(args, Exec)
    ensures Anchor(args) <= |args| && Reconcile(args) == Canonical(args)
  {
    CutAt(args, Exec);
    Cut(args, e);
    var a, b := args[..e], args[e + 1..];
    assert Bypass in a + b;
    ReconcileBehindExec(a, b);
  }

  lemma ClosedFormAtEnd(args: seq<Arg>)
    requires Yolo !in args && Bypass in args && Exec !in args
    ensures Anchor(args) <= |args| && Reconcile(args) == Canonical(args)
  {
    ReconcileAtEnd(args);
    assert args[..|args|] == args;
  }

  /** The result in closed form: without `--yolo` and the bypass flag nothing changes; otherwise all three flags go
      and one `--yolo` is put at its anchor, every other argument keeping its place in the order. */
  lemma ReconcileInClosedForm(args: seq<Arg>)
    ensures Anchor(args) <= |args|
    ensures Reconcile(args) == if Yolo !in args && Bypass !in args then args else Canonical(args)
  {
    FirstIsAt(args, Exec);
    if Yolo in args {
      ClosedFormAtYolo(args, Index(args, Yolo));
    } else if Bypass in args && Exec in args {
      ClosedFormBehindExec(args, Index(args, Exec));
    } else if Bypass in args {
      ClosedFormAtEnd(args);
    }
  }

  lemma OthersTwice(a: seq<Arg>)
    ensures Others(Others(a)) == Others(a)
  {
    WithoutTwice(a, FLAGS, FLAGS);
    assert FLAGS + FLAGS == FLAGS;
  }

  lemma OthersOfAround(a: seq<Arg>, b: seq<Arg>)
    ensures Others(Around(a, b)) == Others(a + b)
  {
    WithoutAround(Others(a), Yolo, Others(b), FLAGS);
    OthersTwice(a);
    OthersTwice(b);
    FilterConcat(NotIn(FLAGS), a, b);
  }

  lemma OthersOfCanonical(args: seq<Arg>)
    requires Anchor(args) <= |args|
    ensures Others(Canonical(args)) == Others(args)
  {
    var p := Anchor(args);
    OthersOfAround(args[..p], args[p..]);
    Halves(args, p);
  }

  lemma FlagsOfCanonical(args: seq<Arg>)
    requires Anchor(args) <= |args|
    ensures var r := Canonical(args); Bypass !in r && FullAuto !in r && multiset(r)[Yolo] == 1
  {
    var p := Anchor(args);
    var a, b := Others(args[..p]), Others(args[p..]);
    forall x | x in FLAGS ensures x !in a && x !in b {
      FilterMember(NotIn(FLAGS), args[..p], x);
      FilterMember(NotIn(FLAGS), args[p..], x);
    }
    assert multiset(a + [Yolo] + b) == multiset(a) + multiset{Yolo} + multiset(b);
  }

  /** No bypass flag is left, at most one `--yolo` and then no `--full-auto`; the other arguments keep their order. */
  lemma ReconcileNormalises(args: seq<Arg>)
    ensures var r := Reconcile(args);
            && Bypass !in r
            && Others(r) == Others(args)
            && (Yolo in r <==> Yolo in args || Bypass in args)
            && (Yolo in r ==> multiset(r)[Yolo] == 1 && FullAuto !in r)
            && (Yolo !in r ==> r == args)
  {
    ReconcileInClosedForm(args);
    if Yolo in args || Bypass in args {
      OthersOfCanonical(args);
      FlagsOfCanonical(args);
      assert Yolo in multiset(Canonical(args));
    }
  }

  lemma OthersOfPlain(a: seq<Arg>)
    requires forall i :: 0 <= i < |a| ==> a[i] !in FLAGS
    ensures Others(a) == a
  {
    FilterAll(NotIn(FLAGS), a);
  }

  /** Normalising twice is normalising once. */
  lemma ReconcileIdempotent(args: seq<Arg>)
    ensures Reconcile(Reconcile(args)) == Reconcile(args)
  {
    ReconcileInClosedForm(args);
    if Yolo in args || Bypass in args {
      var p := Anchor(args);
      var a, b := Others(args[..p]), Others(args[p..]);
      OthersIsPlain(args[..p]);
      OthersIsPlain(args[p..]);
      OthersOfPlain(a);
      OthersOfPlain(b);
      ReconcileAroundYolo(a, b);
    }
  }

  lemma OthersIsPlain(a: seq<Arg>)
    ensures forall i :: 0 <= i < |Others(a)| ==> Others(a)[i] !in FLAGS
  {
    forall i | 0 <= i < |Others(a)| ensures Others(a)[i] !in FLAGS {
      FilterMember(NotIn(FLAGS), a, Others(a)[i]);
    }
  }

  // `from_name_with_args("codex", extra)`.
  function CodexWithArgs(extra: seq<Arg>): seq<Arg> {
    Reconcile([Exec, Yolo] + extra)
  }

  /** Named Codex with extra arguments: `exec`, `--yolo`, then the extra arguments without the three flags. */
  lemma CodexWithArgsIs(extra: seq<Arg>)
    ensures CodexWithArgs(extra) == [Exec, Yolo] + Others(extra)
  {
    assert [Exec, Yolo] + extra == [Exec] + [Yolo] + extra;
    ReconcileAroundYolo([Exec], extra);
    OthersOfPlain([Exec]);
  }
}
