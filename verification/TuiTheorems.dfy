/** The incremental view shows what rendering the whole log from scratch would show. */
module TuiTheorems {
  import opened Prelude
  import opened StreamTypes
  import opened StreamTheorems
  import opened Sequences
  import PtyStream
  import Utf8
  import opened TuiHandler

  // ---- One item at a time --------------------------------------------------------------------

  function Put(render: Renderer, v: View, item: Block): View {
    match item
    case TextBlock(text) => Refresh(render, v.(pending := v.pending + text))
    case Fixed(line) => AddLine(render, v, line)
  }

  function PutAll(render: Renderer, v: View, items: seq<Block>): View {
    if items == [] then v else Put(render, PutAll(render, v, items[..|items| - 1]), items[|items| - 1])
  }

  lemma {:induction false} PutAllConcat(render: Renderer, v: View, a: seq<Block>, b: seq<Block>)
    ensures PutAll(render, v, a + b) == PutAll(render, PutAll(render, v, a), b)
  {
    if b == [] {
      assert a + b == a;
    } else {
      assert (a + b)[..|a + b| - 1] == a + b[..|b| - 1];
      PutAllConcat(render, v, a, b[..|b| - 1]);
    }
  }

  lemma PutAllOne(render: Renderer, v: View, item: Block)
    ensures PutAll(render, v, [item]) == Put(render, v, item)
  {
    assert [item][..0] == [];
  }

  lemma PutAllTwo(render: Renderer, v: View, a: Block, b: Block)
    ensures PutAll(render, v, [a, b]) == Put(render, Put(render, v, a), b)
  {
    assert [a, b] == [a] + [b];
    PutAllConcat(render, v, [a], [b]);
    PutAllOne(render, v, a);
    PutAllOne(render, Put(render, v, a), b);
  }

  lemma RefreshedFirst(render: Renderer, v: View, line: Line)
    ensures AddLine(render, Refresh(render, v), line) == Put(render, v, Fixed(line))
  {}

  lemma HandledPutsItems(cfg: Config, v: View, call: Call)
    ensures Handled(cfg, v, call) == PutAll(RendererOf(cfg), v, Items(cfg, call))
  {
    var render, items := RendererOf(cfg), Items(cfg, call);
    if call.OnComplete? {
      RefreshedFirst(render, v, BLANK);
      PutAllTwo(render, v, items[0], items[1]);
    } else if |items| == 1 {
      PutAllOne(render, v, items[0]);
    }
  }

  lemma {:induction false} HandledAllPutsItems(cfg: Config, v: View, calls: seq<Call>)
    ensures HandledAll(cfg, v, calls) == PutAll(RendererOf(cfg), v, AllItems(cfg, calls))
  {
    if calls != [] {
      var front, last := calls[..|calls| - 1], calls[|calls| - 1];
      HandledAllPutsItems(cfg, v, front);
      HandledPutsItems(cfg, HandledAll(cfg, v, front), last);
      PutAllConcat(RendererOf(cfg), v, AllItems(cfg, front), Items(cfg, last));
    }
  }

  // ---- Facts about the document --------------------------------------------------------------

  lemma {:induction false} SpelledConcat(a: seq<Block>, b: seq<Block>)
    ensures Spelled(a + b) == Spelled(a) + Spelled(b)
  {
    if a == [] {
      assert a + b == b;
    } else {
      assert (a + b)[1..] == a[1..] + b;
      SpelledConcat(a[1..], b);
    }
  }

  lemma SpelledOne(item: Block)
    ensures Spelled([item]) == if item.TextBlock? then item.text else []
  {
    assert [item][1..] == [];
  }

  predicate AllText(items: seq<Block>) {
    forall i :: 0 <= i < |items| ==> items[i].TextBlock?
  }

  lemma {:induction false} RunOfText(items: seq<Block>)
    requires AllText(items)
    ensures RunLength(items) == |items|
  {
    if items != [] {
      RunOfText(items[1..]);
    }
  }

  lemma {:induction false} RunStopsAt(a: seq<Block>, line: Line, b: seq<Block>)
    ensures RunLength(a + [Fixed(line)] + b) == RunLength(a)
  {
    var s := a + [Fixed(line)] + b;
    if a != [] && a[0].TextBlock? {
      assert s[1..] == a[1..] + [Fixed(line)] + b;
      RunStopsAt(a[1..], line, b);
    }
  }

  lemma DocumentOfRun(render: Renderer, run: seq<Block>)
    requires AllText(run)
    ensures Document(render, run) == render(Spelled(run))
  {
    RunOfText(run);
    assert run[..|run|] == run;
  }

  lemma Slices<T>(a: seq<T>, x: T, b: seq<T>, n: nat)
    requires n <= |a|
    ensures var s := a + [x] + b;
            && s[..n] == a[..n]
            && (n < |a| ==> s[n] == a[n] && s[n + 1..] == a[n + 1..] + [x] + b)
            && (n == |a| ==> s[n] == x && s[n + 1..] == b)
  {}

  lemma DocumentUnfolds(render: Renderer, items: seq<Block>, run: seq<Block>, item: Block, rest: seq<Block>)
    requires |run| == RunLength(items) < |items|
    requires items[..|run|] == run && items[|run|] == item && items[|run| + 1..] == rest
    ensures Document(render, items) == render(Spelled(run)) + (RenderBlock(render, item) + Document(render, rest))
  {}

  // The document is cut at any fixed line.
  lemma {:induction false} DocumentCut(render: Renderer, a: seq<Block>, line: Line, b: seq<Block>)
    ensures Document(render, a + [Fixed(line)] + b) == Document(render, a) + ([line] + Document(render, b))
    decreases |a|
  {
    var n := RunLength(a);
    var s := a + [Fixed(line)] + b;
    RunStopsAt(a, line, b);
    Slices(a, Fixed(line), b, n);
    if n < |a| {
      DocumentUnfolds(render, a, a[..n], a[n], a[n + 1..]);
      DocumentUnfolds(render, s, a[..n], a[n], a[n + 1..] + [Fixed(line)] + b);
      DocumentCut(render, a[n + 1..], line, b);
      Regroup(render(Spelled(a[..n])), RenderBlock(render, a[n]), Document(render, a[n + 1..]),
              [line] + Document(render, b));
    } else {
      assert a[..n] == a;
      DocumentUnfolds(render, s, a, Fixed(line), b);
    }
  }

  lemma DocumentAfter(render: Renderer, items: seq<Block>, line: Line)
    requires render([]) == []
    ensures Document(render, items + [Fixed(line)]) == Document(render, items) + [line]
  {
    assert items + [Fixed(line)] == items + [Fixed(line)] + [];
    DocumentCut(render, items, line, []);
    DocumentOfRun(render, []);
  }

  lemma DocumentAfterRun(render: Renderer, head: seq<Block>, run: seq<Block>)
    requires render([]) == [] && AllText(run) && (head != [] ==> head[|head| - 1].Fixed?)
    ensures Document(render, head + run) == Document(render, head) + render(Spelled(run))
  {
    DocumentOfRun(render, run);
    if head == [] {
      assert head + run == run;
      DocumentOfRun(render, []);
    } else {
      var a, line := head[..|head| - 1], head[|head| - 1].line;
      assert head == a + [Fixed(line)];
      DocumentCut(render, a, line, run);
      DocumentAfter(render, a, line);
      Associative(Document(render, a), [line], render(Spelled(run)));
    }
  }

  // ---- The view follows the document ---------------------------------------------------------

  // The frozen blocks show everything up to the last fixed item, the buffer spells the text behind it.
  predicate Follows(render: Renderer, head: seq<Block>, run: seq<Block>, v: View) {
    && AllText(run) && (head != [] ==> head[|head| - 1].Fixed?)
    && RenderBlocks(render, v.blocks) == Document(render, head)
    && v.pending == Spelled(run)
  }

  lemma RenderBlocksSnoc(render: Renderer, blocks: seq<Block>, b: Block)
    ensures RenderBlocks(render, blocks + [b]) == RenderBlocks(render, blocks) + RenderBlock(render, b)
  {
    assert (blocks + [b])[..|blocks|] == blocks;
  }

  lemma FrozenShows(render: Renderer, v: View)
    requires render([]) == []
    ensures RenderBlocks(render, Freeze(v).blocks) == RenderBlocks(render, v.blocks) + render(v.pending)
  {
    RenderBlocksSnoc(render, v.blocks, TextBlock(v.pending));
  }

  lemma FollowsText(render: Renderer, head: seq<Block>, run: seq<Block>, v: View, text: string)
    requires Follows(render, head, run, v)
    ensures Follows(render, head, run + [TextBlock(text)], Put(render, v, TextBlock(text)))
  {
    SpelledConcat(run, [TextBlock(text)]);
    SpelledOne(TextBlock(text));
  }

  lemma FollowsFixed(render: Renderer, head: seq<Block>, run: seq<Block>, v: View, line: Line)
    requires render([]) == [] && Follows(render, head, run, v)
    ensures Follows(render, head + run + [Fixed(line)], [], Put(render, v, Fixed(line)))
  {
    FrozenShows(render, v);
    RenderBlocksSnoc(render, Freeze(v).blocks, Fixed(line));
    DocumentAfterRun(render, head, run);
    DocumentAfter(render, head + run, line);
  }

  // The refreshed lines of a view that follows the log.
  lemma FollowersShow(render: Renderer, head: seq<Block>, run: seq<Block>, v: View)
    requires render([]) == [] && Follows(render, head, run, v)
    ensures Refresh(render, v).lines == Document(render, head + run)
  {
    DocumentAfterRun(render, head, run);
  }

  lemma PutRefreshes(render: Renderer, v: View, item: Block)
    ensures var w := Put(render, v, item); Refresh(render, w) == w
  {}

  lemma {:induction false} AlwaysFollows(render: Renderer, start: View, items: seq<Block>)
      returns (head: seq<Block>, run: seq<Block>)
    requires render([]) == [] && start.pending == [] && start.blocks == []
    ensures items == head + run && Follows(render, head, run, PutAll(render, start, items))
  {
    head, run := [], [];
    if items == [] {
      DocumentOfRun(render, []);
    } else {
      var front, last := items[..|items| - 1], items[|items| - 1];
      var v := PutAll(render, start, front);
      head, run := AlwaysFollows(render, start, front);
      assert items == front + [last];
      if last.TextBlock? {
        FollowsText(render, head, run, v, last.text);
        Associative(head, run, [last]);
        run := run + [last];
      } else {
        FollowsFixed(render, head, run, v, last.line);
        head, run := items, [];
      }
    }
  }

  /** After any callbacks the lines are the whole log rendered from scratch: adjacent text is rendered as one,
      empty tool results are dropped. Until something is shown the shared lines are left as they were. */
  lemma ViewIsTheDocument(cfg: Config, shared: seq<Line>, calls: seq<Call>)
    ensures HandledAll(cfg, View([], [], shared), calls).lines
            == var items := AllItems(cfg, calls); if items == [] then shared else Document(RendererOf(cfg), items)
  {
    var start, render, items := View([], [], shared), RendererOf(cfg), AllItems(cfg, calls);
    HandledAllPutsItems(cfg, start, calls);
    if items != [] {
      var head, run := AlwaysFollows(render, start, items);
      FollowersShow(render, head, run, PutAll(render, start, items));
      PutRefreshes(render, PutAll(render, start, items[..|items| - 1]), items[|items| - 1]);
    }
  }

  // ---- The blocks ----------------------------------------------------------------------------

  // No empty text block, and none directly behind another.
  predicate Normal(blocks: seq<Block>) {
    && (forall i :: 0 <= i < |blocks| && blocks[i].TextBlock? ==> blocks[i].text != [])
    && (forall i :: 0 < i < |blocks| && blocks[i].TextBlock? ==> blocks[i - 1].Fixed?)
  }

  predicate Settled(v: View) {
    Normal(v.blocks) && (v.blocks != [] ==> v.blocks[|v.blocks| - 1].Fixed?)
  }

  lemma SettledKept(render: Renderer, v: View, item: Block)
    requires Settled(v)
    ensures Settled(Put(render, v, item))
  {}

  // The fixed lines, in order.
  function FixedLines(blocks: seq<Block>): seq<Line> {
    if blocks == [] then [] else (if blocks[0].Fixed? then [blocks[0].line] else []) + FixedLines(blocks[1..])
  }

  lemma {:induction false} FixedLinesConcat(a: seq<Block>, b: seq<Block>)
    ensures FixedLines(a + b) == FixedLines(a) + FixedLines(b)
  {
    if a == [] {
      assert a + b == b;
    } else {
      assert (a + b)[1..] == a[1..] + b;
      FixedLinesConcat(a[1..], b);
    }
  }

  lemma FixedLinesOne(item: Block)
    ensures FixedLines([item]) == if item.Fixed? then [item.line] else []
  {
    assert [item][1..] == [];
  }

  lemma FreezeKeepsContent(v: View)
    ensures var f := Freeze(v);
            && f.pending == []
            && Spelled(f.blocks) == Spelled(v.blocks) + v.pending
            && FixedLines(f.blocks) == FixedLines(v.blocks)
  {
    var b := TextBlock(v.pending);
    SpelledConcat(v.blocks, [b]);
    SpelledOne(b);
    FixedLinesConcat(v.blocks, [b]);
    FixedLinesOne(b);
  }

  // The text of the blocks and of the live buffer.
  function Content(v: View): string {
    Spelled(v.blocks) + v.pending
  }

  lemma PutAddsContent(render: Renderer, v: View, item: Block)
    ensures var w := Put(render, v, item);
            && Content(w) == Content(v) + Spelled([item])
            && FixedLines(w.blocks) == FixedLines(v.blocks) + FixedLines([item])
  {
    SpelledOne(item);
    FixedLinesOne(item);
    if item.Fixed? {
      FreezeKeepsContent(v);
      SpelledConcat(Freeze(v).blocks, [item]);
      FixedLinesConcat(Freeze(v).blocks, [item]);
    } else {
      Associative(Spelled(v.blocks), v.pending, item.text);
    }
  }

  lemma {:induction false} ContentOf(render: Renderer, shared: seq<Line>, items: seq<Block>)
    ensures var v := PutAll(render, View([], [], shared), items);
            && Settled(v)
            && Content(v) == Spelled(items)
            && FixedLines(v.blocks) == FixedLines(items)
  {
    if items != [] {
      var front, last := items[..|items| - 1], items[|items| - 1];
      var v := PutAll(render, View([], [], shared), front);
      ContentOf(render, shared, front);
      SettledKept(render, v, last);
      PutAddsContent(render, v, last);
      assert items == front + [last];
      SpelledConcat(front, [last]);
      FixedLinesConcat(front, [last]);
    }
  }

  lemma ItemSpells(cfg: Config, call: Call)
    ensures Spelled(Items(cfg, call)) == TextOf(call)
  {
    var items := Items(cfg, call);
    if |items| == 1 {
      SpelledOne(items[0]);
    } else if |items| == 2 {
      SpelledConcat([items[0]], [items[1]]);
      assert items == [items[0]] + [items[1]];
      SpelledOne(items[0]);
      SpelledOne(items[1]);
    }
  }

  lemma {:induction false} ItemsSpellTheText(cfg: Config, calls: seq<Call>)
    ensures Spelled(AllItems(cfg, calls)) == Spoken(calls)
  {
    if calls != [] {
      var front, items := calls[..|calls| - 1], Items(cfg, calls[|calls| - 1]);
      ItemsSpellTheText(cfg, front);
      SpelledConcat(AllItems(cfg, front), items);
      ItemSpells(cfg, calls[|calls| - 1]);
    }
  }

  /** No text block is empty, no two are adjacent; the blocks and the live buffer together spell exactly the text
      received, and the fixed blocks are exactly the lines the other callbacks asked for. */
  lemma NothingIsLost(cfg: Config, shared: seq<Line>, calls: seq<Call>)
    ensures var v := HandledAll(cfg, View([], [], shared), calls);
            && Normal(v.blocks)
            && Content(v) == Spoken(calls)
            && FixedLines(v.blocks) == FixedLines(AllItems(cfg, calls))
  {
    HandledAllPutsItems(cfg, View([], [], shared), calls);
    ContentOf(RendererOf(cfg), shared, AllItems(cfg, calls));
    ItemsSpellTheText(cfg, calls);
  }

  // ---- Division of text does not matter ------------------------------------------------------

  lemma {:induction false} HandledAllConcat(cfg: Config, v: View, a: seq<Call>, b: seq<Call>)
    ensures HandledAll(cfg, v, a + b) == HandledAll(cfg, HandledAll(cfg, v, a), b)
  {
    if b == [] {
      assert a + b == a;
    } else {
      assert (a + b)[..|a + b| - 1] == a + b[..|b| - 1];
      HandledAllConcat(cfg, v, a, b[..|b| - 1]);
    }
  }

  lemma HandledTwo(cfg: Config, v: View, c: Call, d: Call)
    ensures HandledAll(cfg, v, [c, d]) == Handled(cfg, Handled(cfg, v, c), d)
    ensures HandledAll(cfg, v, [c]) == Handled(cfg, v, c)
  {
    assert [c, d][..1] == [c] && [c][..0] == [];
    assert HandledAll(cfg, v, [c]) == Handled(cfg, HandledAll(cfg, v, []), c);
  }

  /** Text delivered in two callbacks leaves the handler as one callback would: blocks, buffer and lines. */
  lemma DivisionOfTextDoesNotMatter(cfg: Config, v: View, s: string, t: string, after: seq<Call>)
    ensures HandledAll(cfg, v, [OnText(s), OnText(t)] + after) == HandledAll(cfg, v, [OnText(s + t)] + after)
  {
    HandledAllConcat(cfg, v, [OnText(s), OnText(t)], after);
    HandledAllConcat(cfg, v, [OnText(s + t)], after);
    HandledTwo(cfg, v, OnText(s), OnText(t));
    HandledTwo(cfg, v, OnText(s + t), OnText(t));
    Associative(v.pending, s, t);
  }

  // ---- The screen of a streamed run ----------------------------------------------------------

  lemma {:induction false} TextItems(cfg: Config, calls: seq<Call>)
    requires OnlyText(calls)
    ensures AllText(AllItems(cfg, calls)) && (AllItems(cfg, calls) == [] <==> calls == [])
  {
    if calls != [] {
      TextItems(cfg, calls[..|calls| - 1]);
    }
  }

  // Text alone is shown as one text.
  lemma ScreenOfText(cfg: Config, calls: seq<Call>)
    requires OnlyText(calls)
    ensures HandledAll(cfg, View([], [], []), calls).lines == TextToLines(cfg, Spoken(calls))
  {
    ViewIsTheDocument(cfg, [], calls);
    TextItems(cfg, calls);
    ItemsSpellTheText(cfg, calls);
    DocumentOfRun(RendererOf(cfg), AllItems(cfg, calls));
  }

  /** Two flushed runs over the same bytes, cut into valid chunks and received in whatever phases, leave the same
      lines on a fresh terminal view, for every output format. */
  lemma ScreenDoesNotDependOnChunking(
    tui: Config, cfg: PtyStream.Config, elapsedMs: Word64,
    chunksA: seq<seq<Utf8.Byte>>, a: PtyStream.Ending, lateA: Option<PtyStream.Exit>, outA: PtyStream.Outcome,
    chunksB: seq<seq<Utf8.Byte>>, b: PtyStream.Ending, lateB: Option<PtyStream.Exit>, outB: PtyStream.Outcome)
    requires PtyStream.IsFlushed(a) && PtyStream.IsFlushed(b)
    requires PtyStream.ExitOf(a, lateA) == PtyStream.ExitOf(b, lateB)
    requires Utf8.Flatten(chunksA) == Utf8.Flatten(chunksB) && Utf8.EachValid(chunksA) && Utf8.EachValid(chunksB)
    requires PtyStream.IsOutcome(cfg, chunksA, a, lateA, elapsedMs, outA)
    requires PtyStream.IsOutcome(cfg, chunksB, b, lateB, elapsedMs, outB)
    ensures HandledAll(tui, View([], [], []), outA.calls).lines == HandledAll(tui, View([], [], []), outB.calls).lines
  {
    if cfg.format.PlainText? {
      PlainTextIsRelayed(cfg, chunksA, a, lateA, elapsedMs, outA);
      PlainTextIsRelayed(cfg, chunksB, b, lateB, elapsedMs, outB);
      ScreenOfText(tui, outA.calls);
      ScreenOfText(tui, outB.calls);
    } else {
      ChunkingAndPhaseDoNotMatter(cfg, elapsedMs, chunksA, a, lateA, outA, chunksB, b, lateB, outB);
    }
  }
}
