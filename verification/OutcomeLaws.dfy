/** What a streamed run reports, told by what happened to it. */
module OutcomeLaws {
  import opened Prelude
  import opened StreamTypes
  import opened Framing
  import opened Sequences
  import opened Text
  import opened Utf8
  import opened PtyStream
  import ClaudeStream
  import CopilotStream
  import PiStream

  // ---- The exit ------------------------------------------------------------------------------

  // The exit that was seen: by the loop, or by the wait after it.
  predicate Saw(e: Ending, late: Option<Exit>, exit: Option<Exit>) {
    exit == match e
            case ByExit(x) => Some(x)
            case _ => late
  }

  /** A run succeeded exactly when its child was seen to exit successfully; it reports the code that was seen, counts
      as interrupted for code 130 or an interrupt, as timed out when it idled and did not exit so, and keeps all raw
      output. */
  lemma ReportsTheExit(cfg: Config, chunks: seq<seq<Byte>>, e: Ending, late: Option<Exit>, elapsedMs: Word64,
                       out: Outcome, exit: Option<Exit>)
    requires IsOutcome(cfg, chunks, e, late, elapsedMs, out) && Saw(e, late, exit)
    ensures out.result.success <==> exit.Some? && exit.value.success
    ensures out.result.exitCode == match exit case Some(x) => Some(x.code) case None => None
    ensures out.result.termination == UserInterrupt <==> (exit.Some? && exit.value.code == 130) || e == ByInterrupt
    ensures out.result.termination == IdleTimedOut <==> e == ByIdleTimeout && !(exit.Some? && exit.value.code == 130)
    ensures out.result.output == Flatten(chunks)
  {}

  // ---- The bill ------------------------------------------------------------------------------

  // The lines a run handled: complete ones, and the rest of a flushed run.
  function LinesOf(chunks: seq<seq<Byte>>, e: Ending): seq<string> {
    var s := SplitLines(Delivered(chunks));
    s.lines + if (e.AtEof? || e.ByExit?) && s.tail != "" then [s.tail] else []
  }

  // The line is a Claude result.
  predicate HoldsResult(cfg: Config, line: string) {
    Trim(line) != "" && cfg.claude(Trim(line)).Some? && cfg.claude(Trim(line)).value.Result?
  }

  predicate IsResult(cfg: Config, line: string, r: ClaudeStream.Event) {
    HoldsResult(cfg, line) && cfg.claude(Trim(line)).value == r
  }

  predicate HoldsNoResult(cfg: Config, lines: seq<string>) {
    forall i :: 0 <= i < |lines| ==> !HoldsResult(cfg, lines[i])
  }

  lemma {:induction false} NoSummary(cfg: Config, lines: seq<string>)
    requires cfg.format.Claude? && HoldsNoResult(cfg, lines)
    ensures LastSummary(cfg, lines) == None
  {
    if lines != [] {
      var n := |lines| - 1;
      NoSummary(cfg, lines[..n]);
    }
  }

  lemma {:induction false} LastOfSummaries(cfg: Config, lines: seq<string>, i: nat, r: ClaudeStream.Event)
    requires cfg.format.Claude? && i < |lines| && IsResult(cfg, lines[i], r) && HoldsNoResult(cfg, lines[i + 1..])
    ensures LastSummary(cfg, lines).Some? && LastSummary(cfg, lines).value.totalCostUsd == r.cost
    ensures var s := LastSummary(cfg, lines).value;
            s.inputTokens == s.outputTokens == s.cacheReadTokens == s.cacheWriteTokens == 0
    decreases |lines|
  {
    var n := |lines| - 1;
    if i < n {
      assert lines[..n][i + 1..] == lines[i + 1..][..n - i - 1];
      LastOfSummaries(cfg, lines[..n], i, r);
      assert lines[i + 1..][n - i - 1] == lines[n];
    }
  }

  predicate NoTokens(r: PtyResult) {
    r.inputTokens == r.outputTokens == r.cacheReadTokens == r.cacheWriteTokens == 0
  }

  lemma LinesAreSeen(chunks: seq<seq<Byte>>, e: Ending)
    ensures LinesOf(chunks, e) == LinesSeen(Delivered(chunks), IsFlushed(e))
  {}

  /** A Claude run costs what its last result line says, and nothing without one. */
  lemma ClaudeBills(cfg: Config, chunks: seq<seq<Byte>>, e: Ending, late: Option<Exit>, elapsedMs: Word64,
                    out: Outcome, i: nat, r: ClaudeStream.Event)
    requires cfg.format.Claude? && IsOutcome(cfg, chunks, e, late, elapsedMs, out)
    requires i < |LinesOf(chunks, e)| ==>
               IsResult(cfg, LinesOf(chunks, e)[i], r) && HoldsNoResult(cfg, LinesOf(chunks, e)[i + 1..])
    requires i >= |LinesOf(chunks, e)| ==> HoldsNoResult(cfg, LinesOf(chunks, e))
    ensures out.result.cost == (if i < |LinesOf(chunks, e)| then r.cost else 0.0) && NoTokens(out.result)
  {
    LinesAreSeen(chunks, e);
    if i < |LinesOf(chunks, e)| {
      LastOfSummaries(cfg, LinesOf(chunks, e), i, r);
    } else {
      NoSummary(cfg, LinesOf(chunks, e));
    }
  }

  /** Copilot and plain text cost nothing. */
  lemma OthersAreFree(cfg: Config, chunks: seq<seq<Byte>>, e: Ending, late: Option<Exit>, elapsedMs: Word64,
                      out: Outcome)
    requires (cfg.format.Copilot? || cfg.format.PlainText?) && IsOutcome(cfg, chunks, e, late, elapsedMs, out)
    ensures out.result.cost == 0.0 && NoTokens(out.result)
  {}

  // What the turns report to have cost.
  function Costs(es: seq<PiStream.Event>): real {
    if es == [] then 0.0
    else Costs(es[..|es| - 1]) + match es[|es| - 1]
                                 case TurnEnd(Some(TurnMessage(_, _, Some(Usage(_, _, _, _, Some(c)))))) => c
                                 case _ => 0.0
  }

  lemma {:induction false} CostsAdd(p: Progress, es: seq<PiStream.Event>, verbose: bool)
    ensures PiStream.Fold(p, es, verbose).pi.cost == p.pi.cost + Costs(es)
  {
    if es != [] {
      CostsAdd(p, es[..|es| - 1], verbose);
    }
  }

  // ---- What the handler hears at the end -----------------------------------------------------

  // The summary made from totals.
  predicate Sums(r: SessionResult, pi: PiTotals, elapsedMs: Word64, failed: bool) {
    && r.durationMs == elapsedMs && r.totalCostUsd == pi.cost && r.numTurns == pi.turns && r.isError == failed
    && r.inputTokens == pi.input && r.outputTokens == pi.output
    && r.cacheReadTokens == pi.cacheRead && r.cacheWriteTokens == pi.cacheWrite
  }

  // The calls a run adds to those of its lines: the reader's error; for the real Pi its stream; for any Pi a summary.
  predicate IsEnd(cfg: Config, e: Ending, p: Progress, elapsedMs: Word64, failed: bool, tail: seq<Call>) {
    var errors := if e.ByError? then 1 else 0;
    var banners := if cfg.format.Pi? && cfg.greeting.Some? then 1 else 0;
    var summaries := if cfg.format.Pi? then 1 else 0;
    && |tail| == errors + banners + summaries
    && (errors == 1 ==> tail[0] == OnError(e.message))
    && (banners == 1 ==> tail[errors] == OnText(
          "Pi stream: provider=" + (if p.pi.provider.Some? then p.pi.provider.value else "unknown")
          + ", model=" + (if p.pi.model.Some? then p.pi.model.value else "unknown") + "\n"))
    && (summaries == 1 ==> tail[errors + banners].OnComplete?
                           && Sums(tail[errors + banners].result, p.pi, elapsedMs, failed))
  }

  /** Behind the calls of its lines a run tells the reader's error, Pi's stream and Pi's summary, in this order; Pi is
      billed by that summary; the text in the result is that of the lines. */
  lemma EndsWith(cfg: Config, chunks: seq<seq<Byte>>, e: Ending, late: Option<Exit>, elapsedMs: Word64, out: Outcome,
                 exit: Option<Exit>, p: Progress)
    requires !cfg.format.PlainText? && IsOutcome(cfg, chunks, e, late, elapsedMs, out) && Saw(e, late, exit)
    requires p == FoldLines(cfg, Begin(cfg), LinesOf(chunks, e))
    ensures p.calls <= out.calls && out.result.extracted == p.extracted
    ensures IsEnd(cfg, e, p, elapsedMs, !(exit.Some? && exit.value.success), out.calls[|p.calls|..])
    ensures cfg.format.Pi? ==>
              && out.result.cost == p.pi.cost
              && out.result.inputTokens == p.pi.input && out.result.outputTokens == p.pi.output
              && out.result.cacheReadTokens == p.pi.cacheRead && out.result.cacheWriteTokens == p.pi.cacheWrite
  {
    LinesAreSeen(chunks, e);
    assert out.calls[|p.calls|..] == Epilogue(cfg, p, e, ExitOf(e, late), elapsedMs);
  }

  /** A session starts silent, except that the real Pi is announced. */
  lemma StartsWith(cfg: Config)
    ensures FoldLines(cfg, Begin(cfg), []) ==
            Progress(if cfg.format.Pi? && cfg.greeting.Some? then [OnText(cfg.greeting.value)] else [],
                     "", {}, 0, PiTotals(0.0, 0, None, None, 0, 0, 0, 0))
  {}

  // Text alone, and an error behind it if there is one.
  predicate TextThenError(calls: seq<Call>, error: Option<string>) {
    && (forall i :: 0 <= i < |calls| - 1 ==> calls[i].OnText?)
    && (calls != [] && error.None? ==> calls[|calls| - 1].OnText?)
    && (error.Some? ==> calls != [] && calls[|calls| - 1] == OnError(error.value))
  }

  lemma TextOnly(calls: seq<Call>)
    requires OnlyText(calls)
    ensures TextThenError(calls, None)
  {}

  lemma TextAndError(front: seq<Call>, message: string)
    requires OnlyText(front)
    ensures TextThenError(front + [OnError(message)], Some(message))
    ensures Spoken(front + [OnError(message)]) == Spoken(front)
  {
    assert (front + [OnError(message)])[..|front|] == front;
  }

  lemma RelayedCalls(calls: seq<Call>, n: nat, error: Option<string>)
    requires n <= |calls| && OnlyText(calls[..n])
    requires calls[n..] == if error.Some? then [OnError(error.value)] else []
    ensures TextThenError(calls, error) && Spoken(calls) == Spoken(calls[..n])
  {
    Halves(calls, n);
    if error.Some? {
      TextAndError(calls[..n], error.value);
    } else {
      assert calls[..n] == calls;
      TextOnly(calls);
    }
  }

  /** Plain text extracts nothing; its calls are its text and, if the reader failed, the error behind it. */
  lemma PlainEndsWith(cfg: Config, chunks: seq<seq<Byte>>, e: Ending, late: Option<Exit>, elapsedMs: Word64,
                      out: Outcome)
    requires cfg.format.PlainText? && IsOutcome(cfg, chunks, e, late, elapsedMs, out)
    ensures out.result.extracted == "" && Spoken(out.calls) == Delivered(chunks)
    ensures TextThenError(out.calls, if e.ByError? then Some(e.message) else None)
  {
    PlainFold(cfg, LinesSeen(Delivered(chunks), IsFlushed(e)));
    var tail := if e.ByError? then [OnError(e.message)] else [];
    var n :| 0 <= n <= |out.calls| && out.calls[n..] == tail && OnlyText(out.calls[..n])
             && Spoken(out.calls[..n]) == Delivered(chunks);
    RelayedCalls(out.calls, n, if e.ByError? then Some(e.message) else None);
  }

  // ---- The loops -----------------------------------------------------------------------------

  // A turn after which the loop goes on.
  predicate GoesOn(t: Tick) {
    t.exited.None? && (t.wake == Spurious || (t.wake.Received? && t.wake.event.Some? && t.wake.event.value.Data?))
  }

  // Why a turn ends the loop: what woke it, and only then the child's exit.
  predicate EndsBy(t: Tick, e: Ending) {
    match t.wake
    case Interrupted => e == ByInterrupt
    case IdleTimeout => e == ByIdleTimeout
    case Received(None) => e == AtEof
    case Received(Some(Eof)) => e == AtEof
    case Received(Some(Failed(message))) => e == ByError(message)
    case _ => t.exited.Some? && e == ByExit(t.exited.value)
  }

  // The data received, in order.
  function DataIn(ticks: seq<Tick>): seq<seq<Byte>> {
    if ticks == [] then []
    else DataIn(ticks[..|ticks| - 1]) + match ticks[|ticks| - 1].wake
                                        case Received(Some(Data(bytes))) => [bytes]
                                        case _ => []
  }

  lemma {:induction false} DataInCons(t: Tick, rest: seq<Tick>)
    ensures DataIn([t] + rest) == TickData(t) + DataIn(rest)
  {
    var all := [t] + rest;
    if rest == [] {
      assert all[..0] == [];
    } else {
      var front := rest[..|rest| - 1];
      assert all[..|all| - 1] == [t] + front;
      DataInCons(t, front);
      Associative(TickData(t), DataIn(front), TickData(rest[|rest| - 1]));
    }
  }

  /** The live loop runs to the first turn that ends it and stops for what woke that turn; it has received the data up
      to and including it. Without such a turn it is still running. */
  lemma {:induction false} LiveRunsTo(live: seq<Tick>) returns (k: nat)
    ensures k <= |live| && forall i :: 0 <= i < k ==> GoesOn(live[i])
    ensures k < |live| ==> !GoesOn(live[k]) && EndsBy(live[k], LiveRun(live).ending)
    ensures k == |live| ==> LiveRun(live).ending == Running
    ensures LiveRun(live).chunks == DataIn(live[..if k < |live| then k + 1 else k])
  {
    k := 0;
    if live != [] {
      assert live == [live[0]] + live[1..];
      if TickEnding(live[0]).Some? {
        DataInCons(live[0], []);
        assert live[..1] == [live[0]] + [];
      } else {
        var m := LiveRunsTo(live[1..]);
        k := m + 1;
        var n := if m < |live| - 1 then m + 1 else m;
        DataInCons(live[0], live[1..][..n]);
        assert live[..n + 1] == [live[0]] + live[1..][..n];
      }
    }
  }

  /** After an exit the queued data is received, whatever lies between, and then data as long as nothing else comes. */
  lemma DrainsTake(live: seq<Tick>, queued: seq<Output>, timed: seq<Output>, k: nat)
    requires k <= |timed| && (forall i :: 0 <= i < k ==> timed[i].Data?) && (k < |timed| ==> !timed[k].Data?)
    ensures ChunksOf(live, queued, timed) == LiveRun(live).chunks +
            if LiveRun(live).ending.ByExit? then BytesIn(queued) + BytesIn(timed[..k]) else []
  {
    DrainIsBytes(queued);
    TimedIsBytes(timed, k);
  }

  function BytesIn(events: seq<Output>): seq<seq<Byte>> {
    var data := Filter((o: Output) => o.Data?, events);
    seq(|data|, i requires 0 <= i < |data| => if data[i].Data? then data[i].bytes else [])
  }

  lemma BytesInCons(events: seq<Output>)
    requires events != []
    ensures BytesIn(events) == (if events[0].Data? then [events[0].bytes] else []) + BytesIn(events[1..])
  {}

  lemma {:induction false} DrainIsBytes(events: seq<Output>)
    ensures DrainChunks(events) == BytesIn(events)
  {
    if events != [] {
      BytesInCons(events);
      DrainIsBytes(events[1..]);
    }
  }

  lemma {:induction false} TimedIsBytes(events: seq<Output>, k: nat)
    requires k <= |events| && (forall i :: 0 <= i < k ==> events[i].Data?) && (k < |events| ==> !events[k].Data?)
    ensures TimedChunks(events) == BytesIn(events[..k])
  {
    if k > 0 {
      TimedIsBytes(events[1..], k - 1);
      BytesInCons(events[..k]);
      assert events[..k][1..] == events[1..][..k - 1];
    }
  }

  // ---- Lines ---------------------------------------------------------------------------------

  // What a line parses to, blank lines to nothing.
  function Parsed<E>(parse: string -> Option<E>, line: string): Option<E> {
    if Trim(line) == "" then None else parse(Trim(line))
  }

  /** A line reaches its format's dispatcher if it is not blank and parses; otherwise it does nothing. */
  lemma LinesReach(cfg: Config, p: Progress, line: string)
    ensures cfg.format.Claude? ==>
              var e := Parsed(cfg.claude, line);
              LineStep(cfg, p, line) == if e.Some? then ClaudeStream.Step(p, e.value) else p
    ensures cfg.format.Pi? ==>
              var e := Parsed(cfg.pi, line);
              LineStep(cfg, p, line) == if e.Some? then PiStream.Step(p, e.value, cfg.showThinking) else p
    ensures cfg.format.PlainText? ==> LineStep(cfg, p, line) == p
  {}
}
