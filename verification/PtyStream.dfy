/** The streaming observe loop: bytes arrive in chunks through three loops (live, drain after exit, timed drain)
    and are framed, parsed and dispatched. The specification side says what that amounts to for the whole text. */
module PtyStream {
  import opened Prelude
  import opened StreamTypes
  import opened Framing
  import opened Sequences
  import opened Utf8
  import Json
  import ClaudeStream
  import CopilotStream
  import PiStream

  datatype Format = Claude | Copilot | Pi | PlainText

  // The JSON library appears as three functions of the trimmed line.
  datatype Config = Config(
    format: Format,
    json: string -> Option<Json.Value>,
    claude: string -> Option<ClaudeStream.Event>,
    pi: string -> Option<PiStream.Event>,
    showThinking: bool,
    greeting: Option<string>)

  // The real Pi binary is announced before it starts and again after it ends.
  predicate IsRealPi(cfg: Config) {
    cfg.format.Pi? && cfg.greeting.Some?
  }

  function Begin(cfg: Config): Progress {
    START.(calls := if IsRealPi(cfg) then [OnText(cfg.greeting.value)] else [])
  }

  // ---- One line ------------------------------------------------------------------------------

  function LineStep(cfg: Config, p: Progress, line: string): Progress {
    match cfg.format
    case Claude =>
      (match ParseTrimmed(cfg.claude, line)
       case None => p
       case Some(e) => ClaudeStream.Step(p, e))
    case Copilot =>
      (match CopilotStream.ParseLine(cfg.json, line)
       case None => p
       case Some(e) => CopilotStream.Step(p, e))
    case Pi =>
      (match ParseTrimmed(cfg.pi, line)
       case None => p
       case Some(e) => PiStream.Step(p, e, cfg.showThinking))
    case PlainText => p
  }

  // A completion summary carried by the line, if it is one.
  function LineSummary(cfg: Config, p: Progress, line: string): Option<SessionResult> {
    match cfg.format
    case Claude =>
      (match ParseTrimmed(cfg.claude, line)
       case None => None
       case Some(e) => ClaudeStream.Completion(e))
    case Copilot =>
      (match CopilotStream.ParseLine(cfg.json, line)
       case None => None
       case Some(e) => if e.Result? then Some(CopilotStream.SessionSummary(e, p.completedTurns)) else None)
    case _ => None
  }

  function FoldLines(cfg: Config, p: Progress, lines: seq<string>): Progress {
    if lines == [] then p else LineStep(cfg, FoldLines(cfg, p, lines[..|lines| - 1]), lines[|lines| - 1])
  }

  // The last completion summary among the lines of a Claude session.
  function LastSummary(cfg: Config, lines: seq<string>): Option<SessionResult> {
    if lines == [] then None
    else
      var here := LineSummary(cfg, START, lines[|lines| - 1]);
      if here.Some? then here else LastSummary(cfg, lines[..|lines| - 1])
  }

  // What may be remembered as the completion: a Claude summary always, a Copilot one unless it was dropped.
  ghost predicate SummaryFits(cfg: Config, completion: Option<SessionResult>, lines: seq<string>) {
    match cfg.format
    case Claude => completion == LastSummary(cfg, lines)
    case Copilot => completion.None? || IsFree(completion.value)
    case _ => completion.None?
  }

  predicate IsFree(r: SessionResult) {
    r.totalCostUsd == 0.0 && r.inputTokens == 0 && r.outputTokens == 0
    && r.cacheReadTokens == 0 && r.cacheWriteTokens == 0
  }

  // ---- The environment of one run ------------------------------------------------------------

  datatype Output = Data(bytes: seq<Byte>) | Eof | Failed(message: string)
  datatype Wake = Interrupted | Spurious | Received(event: Option<Output>) | IdleTimeout
  datatype Exit = Exit(code: int, success: bool)
  // One turn of the select loop, and what the check for child exit after it finds.
  datatype Tick = Tick(wake: Wake, exited: Option<Exit>)

  datatype Ending = Running | ByInterrupt | ByIdleTimeout | ByError(message: string) | AtEof | ByExit(exit: Exit)
  datatype Live = Live(chunks: seq<seq<Byte>>, ending: Ending)

  function TickData(t: Tick): seq<seq<Byte>> {
    match t.wake
    case Received(Some(Data(bytes))) => [bytes]
    case _ => []
  }

  // An ending wake wins; otherwise the loop ends if the child is found dead.
  function TickEnding(t: Tick): Option<Ending> {
    match t.wake
    case Interrupted => Some(ByInterrupt)
    case IdleTimeout => Some(ByIdleTimeout)
    case Received(None) => Some(AtEof)
    case Received(Some(Eof)) => Some(AtEof)
    case Received(Some(Failed(message))) => Some(ByError(message))
    case _ => if t.exited.Some? then Some(ByExit(t.exited.value)) else None
  }

  // What the live loop receives and why it stops.
  function LiveRun(live: seq<Tick>): Live {
    if live == [] then Live([], Running)
    else if TickEnding(live[0]).Some? then Live(TickData(live[0]), TickEnding(live[0]).value)
    else
      var rest := LiveRun(live[1..]);
      Live(TickData(live[0]) + rest.chunks, rest.ending)
  }

  // A run that has received `got` and still faces `rest`.
  function After(got: seq<seq<Byte>>, rest: seq<Tick>): Live {
    Live(got + LiveRun(rest).chunks, LiveRun(rest).ending)
  }

  lemma LiveAdvances(got: seq<seq<Byte>>, live: seq<Tick>, i: nat)
    requires i < |live|
    ensures After(got, live[i..]) ==
            if TickEnding(live[i]).Some? then Live(got + TickData(live[i]), TickEnding(live[i]).value)
            else After(got + TickData(live[i]), live[i + 1..])
  {
    assert live[i..][1..] == live[i + 1..];
    var rest := LiveRun(live[i + 1..]).chunks;
    assert got + (TickData(live[i]) + rest) == (got + TickData(live[i])) + rest;
  }

  // The `try_recv` drain skips end and error markers; the timed drain stops at the first one.
  function DrainChunks(events: seq<Output>): seq<seq<Byte>> {
    if events == [] then []
    else if events[0].Data? then [events[0].bytes] + DrainChunks(events[1..])
    else DrainChunks(events[1..])
  }

  function TimedChunks(events: seq<Output>): seq<seq<Byte>> {
    if events == [] || !events[0].Data? then [] else [events[0].bytes] + TimedChunks(events[1..])
  }

  lemma DrainAdvances(got: seq<seq<Byte>>, events: seq<Output>, i: nat)
    requires i < |events|
    ensures got + DrainChunks(events[i..])
            == (if events[i].Data? then got + [events[i].bytes] else got) + DrainChunks(events[i + 1..])
  {
    assert events[i..][1..] == events[i + 1..];
    if events[i].Data? {
      Associative(got, [events[i].bytes], DrainChunks(events[i + 1..]));
    }
  }

  lemma TimedAdvances(got: seq<seq<Byte>>, events: seq<Output>, i: nat)
    requires i < |events| && events[i].Data?
    ensures got + TimedChunks(events[i..]) == got + [events[i].bytes] + TimedChunks(events[i + 1..])
  {
    assert events[i..][1..] == events[i + 1..];
    Associative(got, [events[i].bytes], TimedChunks(events[i + 1..]));
  }

  function ChunksOf(live: seq<Tick>, drained: seq<Output>, timed: seq<Output>): seq<seq<Byte>> {
    var l := LiveRun(live);
    if l.ending.ByExit? then l.chunks + (DrainChunks(drained) + TimedChunks(timed)) else l.chunks
  }

  predicate IsFlushed(e: Ending) {
    e.AtEof? || e.ByExit?
  }

  function LinesSeen(text: string, flushed: bool): seq<string> {
    if flushed then Flushed(text) else SplitLines(text).lines
  }

  // ---- The result ----------------------------------------------------------------------------

  datatype Termination = Natural | UserInterrupt | IdleTimedOut

  function TerminationOf(e: Ending, exit: Option<Exit>): Termination {
    if exit.Some? && exit.value.code == 130 then UserInterrupt
    else if e.ByInterrupt? then UserInterrupt
    else if e.ByIdleTimeout? then IdleTimedOut
    else Natural
  }

  datatype PtyResult = PtyResult(
    output: seq<Byte>, extracted: string, success: bool, exitCode: Option<int>, termination: Termination,
    cost: real, inputTokens: Word64, outputTokens: Word64, cacheReadTokens: Word64, cacheWriteTokens: Word64)

  function BuildResult(output: seq<Byte>, exit: Option<Exit>, termination: Termination, extracted: string,
                       completion: Option<SessionResult>): PtyResult {
    var c := completion.GetOr(PlainResult(0, 0.0, 0, false));
    PtyResult(output, extracted, exit.Some? && exit.value.success,
              if exit.Some? then Some(exit.value.code) else None, termination,
              c.totalCostUsd, c.inputTokens, c.outputTokens, c.cacheReadTokens, c.cacheWriteTokens)
  }

  function PiSummary(pi: PiTotals, elapsedMs: Word64, isError: bool): SessionResult {
    SessionResult(elapsedMs, pi.cost, pi.turns, isError, pi.input, pi.output, pi.cacheRead, pi.cacheWrite)
  }

  function PiBanner(pi: PiTotals): string {
    "Pi stream: provider=" + pi.provider.GetOr("unknown") + ", model=" + pi.model.GetOr("unknown") + "\n"
  }

  // The summary the caller is billed by: the last one Claude printed, Pi's own totals, nothing otherwise.
  function Billing(cfg: Config, lines: seq<string>, p: Progress, elapsedMs: Word64, isError: bool)
    : Option<SessionResult>
  {
    match cfg.format
    case Claude => LastSummary(cfg, lines)
    case Pi => Some(PiSummary(p.pi, elapsedMs, isError))
    case _ => None
  }

  function ExitOf(e: Ending, late: Option<Exit>): Option<Exit> {
    if e.ByExit? then Some(e.exit) else late
  }

  predicate Unsuccessful(exit: Option<Exit>) {
    !(exit.Some? && exit.value.success)
  }

  // What the handler hears after the last line.
  function Epilogue(cfg: Config, p: Progress, e: Ending, exit: Option<Exit>, elapsedMs: Word64): seq<Call> {
    (if e.ByError? then [OnError(e.message)] else [])
    + (if IsRealPi(cfg) then [OnText(PiBanner(p.pi))] else [])
    + (if cfg.format.Pi? then [OnComplete(PiSummary(p.pi, elapsedMs, Unsuccessful(exit)))] else [])
  }

  // The outcome of a run, told from the delivered text alone: which chunks brought it and in which phase is gone.
  datatype Outcome = Outcome(calls: seq<Call>, result: PtyResult)

  function OutcomeOf(cfg: Config, bytes: seq<Byte>, text: string, e: Ending, late: Option<Exit>, elapsedMs: Word64)
    : Outcome
  {
    var exit := ExitOf(e, late);
    var lines := LinesSeen(text, IsFlushed(e));
    var p := FoldLines(cfg, Begin(cfg), lines);
    Outcome(p.calls + Epilogue(cfg, p, e, exit, elapsedMs),
            BuildResult(bytes, exit, TerminationOf(e, exit), p.extracted,
                        Billing(cfg, lines, p, elapsedMs, Unsuccessful(exit))))
  }

  // Text alone, cut anyhow, and then the epilogue.
  ghost predicate Relays(calls: seq<Call>, text: string, epilogue: seq<Call>) {
    exists n :: 0 <= n <= |calls| && calls[n..] == epilogue && OnlyText(calls[..n]) && Spoken(calls[..n]) == text
  }

  // Plain text goes to the handler chunk by chunk, so there the calls are fixed only up to how the text is cut.
  ghost predicate IsOutcome(cfg: Config, chunks: seq<seq<Byte>>, e: Ending, late: Option<Exit>, elapsedMs: Word64,
                            o: Outcome) {
    var told := OutcomeOf(cfg, Flatten(chunks), Delivered(chunks), e, late, elapsedMs);
    && o.result == told.result
    && if cfg.format.PlainText? then
         Relays(o.calls, Delivered(chunks), if e.ByError? then [OnError(e.message)] else [])
       else o.calls == told.calls
  }

  // How a session that has been delivered `text` must look: its complete lines are dispatched, the rest is carried.
  ghost predicate Consistent(cfg: Config, now: Progress, lineBuffer: string, completion: Option<SessionResult>,
                             text: string) {
    && SummaryFits(cfg, completion, SplitLines(text).lines)
    && if cfg.format.PlainText? then
         lineBuffer == "" && now.extracted == "" && OnlyText(now.calls) && Spoken(now.calls) == text
       else
         lineBuffer == SplitLines(text).tail && now == FoldLines(cfg, Begin(cfg), SplitLines(text).lines)
  }

  // ---- The session ---------------------------------------------------------------------------

  class Session {
    const cfg: Config
    const sink: Sink
    var output: seq<Byte>
    var lineBuffer: string
    var completion: Option<SessionResult>
    ghost var chunks: seq<seq<Byte>>

    ghost predicate Valid()
      reads this, sink
    {
      output == Flatten(chunks) && Consistent(cfg, sink.Now(), lineBuffer, completion, Delivered(chunks))
    }

    constructor (cfg: Config)
      ensures Valid() && fresh(sink) && this.cfg == cfg && chunks == []
    {
      this.cfg := cfg;
      this.sink := new Sink();
      output, lineBuffer, completion := [], "", None;
      chunks := [];
      new;
      if IsRealPi(cfg) {
        sink.calls := [OnText(cfg.greeting.value)];
      }
    }

    // Returns the summary the line carries; whether to keep it is the caller's choice.
    method HandleLine(line: string) returns (summary: Option<SessionResult>)
      modifies sink
      ensures sink.Now() == LineStep(cfg, old(sink.Now()), line)
      ensures summary == LineSummary(cfg, old(sink.Now()), line)
    {
      summary := None;
      match cfg.format
      case Claude =>
        var event := ParseTrimmed(cfg.claude, line);
        if event.Some? {
          summary := ClaudeStream.Completion(event.value);
          ClaudeStream.Dispatch(event.value, sink);
        }
      case Copilot =>
        var event := CopilotStream.ParseLine(cfg.json, line);
        if event.Some? {
          summary := CopilotStream.Dispatch(event.value, sink);
        }
      case Pi =>
        var event := ParseTrimmed(cfg.pi, line);
        if event.Some? {
          PiStream.Dispatch(event.value, sink, cfg.showThinking);
        }
      case PlainText =>
    }

    // One framed line in a receive loop, after the lines `seen`; only the timed drain drops Copilot summaries.
    method TakeLine(line: string, timedDrain: bool, ghost seen: seq<string>)
      requires sink.Now() == FoldLines(cfg, Begin(cfg), seen) && SummaryFits(cfg, completion, seen)
      modifies this`completion, sink
      ensures sink.Now() == FoldLines(cfg, Begin(cfg), seen + [line]) && SummaryFits(cfg, completion, seen + [line])
    {
      ghost var earlier, p := completion, sink.Now();
      var summary := HandleLine(line);
      if summary.Some? && !(timedDrain && cfg.format.Copilot?) {
        completion := summary;
      }
      SummaryStep(cfg, p, earlier, completion, seen, line);
      assert (seen + [line])[..|seen|] == seen;
    }

    // The framing loop, written three times in the receive loops.
    method Feed(text: string, timedDrain: bool, ghost before: seq<string>)
      requires sink.Now() == FoldLines(cfg, Begin(cfg), before) && SummaryFits(cfg, completion, before)
      modifies this`lineBuffer, this`completion, sink
      ensures lineBuffer == SplitLines(old(lineBuffer) + text).tail
      ensures var seen := before + SplitLines(old(lineBuffer) + text).lines;
              sink.Now() == FoldLines(cfg, Begin(cfg), seen) && SummaryFits(cfg, completion, seen)
    {
      lineBuffer := lineBuffer + text;
      ghost var whole := SplitLines(lineBuffer);
      ghost var seen := before;
      while Find(lineBuffer) < |lineBuffer|
        invariant before + whole.lines == seen + SplitLines(lineBuffer).lines
        invariant whole.tail == SplitLines(lineBuffer).tail
        invariant sink.Now() == FoldLines(cfg, Begin(cfg), seen) && SummaryFits(cfg, completion, seen)
        decreases |lineBuffer|
      {
        var line := Head(lineBuffer);
        Advance(seen, lineBuffer);
        lineBuffer := Rest(lineBuffer);
        TakeLine(line, timedDrain, seen);
        seen := seen + [line];
      }
      assert seen + [] == seen;
    }

    // What the decoded text of a chunk does to the session.
    method Accept(arrived: string, timedDrain: bool, ghost text: string)
      requires Consistent(cfg, sink.Now(), lineBuffer, completion, text)
      modifies this`lineBuffer, this`completion, sink
      ensures Consistent(cfg, sink.Now(), lineBuffer, completion, text + arrived)
    {
      if cfg.format.PlainText? {
        ghost var calls := sink.calls;
        sink.calls := sink.calls + [OnText(arrived)];
        assert sink.calls[..|sink.calls| - 1] == calls;
      } else {
        SplitConcat(text, arrived);
        Feed(arrived, timedDrain, SplitLines(text).lines);
      }
    }

    method Receive(data: seq<Byte>, timedDrain: bool)
      requires Valid()
      modifies this, sink
      ensures Valid() && chunks == old(chunks) + [data]
    {
      ghost var text := Delivered(chunks);
      DeliveredAppend(chunks, data);
      FlattenAppend(chunks, data);
      output := output + data;
      chunks := chunks + [data];
      var decoded := Decode(data);
      if decoded.Some? {
        Accept(decoded.value, timedDrain, text);
      } else {
        assert text + "" == text;
      }
    }

    // End of stream: a non-empty rest is one more line. The buffer itself is left as it is.
    method Flush()
      requires Valid()
      modifies this`completion, sink
      ensures SummaryFits(cfg, completion, Flushed(Delivered(chunks)))
      ensures !cfg.format.PlainText? ==>
                sink.Now() == FoldLines(cfg, Begin(cfg), Flushed(Delivered(chunks)))
      ensures cfg.format.PlainText? ==> sink.Now() == old(sink.Now())
    {
      if !cfg.format.PlainText? && lineBuffer != "" {
        ghost var split := SplitLines(Delivered(chunks));
        ghost var p, earlier := sink.Now(), completion;
        var summary := HandleLine(lineBuffer);
        if summary.Some? {
          completion := summary;
        }
        SummaryStep(cfg, p, earlier, completion, split.lines, lineBuffer);
        assert (split.lines + [lineBuffer])[..|split.lines|] == split.lines;
      }
    }

    // One turn of the select loop.
    method TakeTick(t: Tick) returns (ending: Option<Ending>)
      requires Valid()
      modifies this, sink
      ensures Valid() && chunks == old(chunks) + TickData(t) && ending == TickEnding(t)
    {
      ending := None;
      match t.wake {
        case Interrupted => ending := Some(ByInterrupt);
        case IdleTimeout => ending := Some(ByIdleTimeout);
        case Received(None) => ending := Some(AtEof);
        case Received(Some(Eof)) => ending := Some(AtEof);
        case Received(Some(Failed(message))) => ending := Some(ByError(message));
        case Received(Some(Data(bytes))) => Receive(bytes, false);
        case Spurious =>
      }
      if ending.None? && t.exited.Some? {
        ending := Some(ByExit(t.exited.value));
      }
    }

    // The select loop. Stops at the first ending; an exhausted script leaves it running.
    method RunLive(live: seq<Tick>) returns (ending: Ending)
      requires Valid() && chunks == []
      modifies this, sink
      ensures Valid() && Live(chunks, ending) == LiveRun(live)
    {
      ending := Running;
      var i := 0;
      while i < |live|
        invariant 0 <= i <= |live| && Valid()
        invariant LiveRun(live) == After(chunks, live[i..])
      {
        LiveAdvances(chunks, live, i);
        var stop := TakeTick(live[i]);
        if stop.Some? {
          return stop.value;
        }
        i := i + 1;
      }
    }

    // Everything already queued when the child was found dead.
    method DrainQueued(queued: seq<Output>)
      requires Valid()
      modifies this, sink
      ensures Valid() && chunks == old(chunks) + DrainChunks(queued)
    {
      var i := 0;
      while i < |queued|
        invariant 0 <= i <= |queued| && Valid()
        invariant old(chunks) + DrainChunks(queued) == chunks + DrainChunks(queued[i..])
      {
        DrainAdvances(chunks, queued, i);
        if queued[i].Data? {
          Receive(queued[i].bytes, false);
        }
        i := i + 1;
      }
    }

    // What still arrives within the grace window.
    method DrainTimed(timed: seq<Output>)
      requires Valid()
      modifies this, sink
      ensures Valid() && chunks == old(chunks) + TimedChunks(timed)
    {
      var i := 0;
      while i < |timed|
        invariant 0 <= i <= |timed| && Valid()
        invariant old(chunks) + TimedChunks(timed) == chunks + TimedChunks(timed[i..])
      {
        if !timed[i].Data? {
          return;
        }
        TimedAdvances(chunks, timed, i);
        Receive(timed[i].bytes, true);
        i := i + 1;
      }
    }

    // The handler's last calls, and for Pi the completion made from its totals.
    method Conclude(e: Ending, exit: Option<Exit>, elapsedMs: Word64)
      modifies this`completion, sink`calls
      ensures sink.calls == old(sink.calls) + Epilogue(cfg, old(sink.Now()), e, exit, elapsedMs)
      ensures completion == if cfg.format.Pi? then Some(PiSummary(sink.pi, elapsedMs, Unsuccessful(exit)))
                            else old(completion)
    {
      if e.ByError? {
        sink.calls := sink.calls + [OnError(e.message)];
      }
      if cfg.format.Pi? {
        if IsRealPi(cfg) {
          sink.calls := sink.calls + [OnText(PiBanner(sink.pi))];
        }
        var summary := PiSummary(sink.pi, elapsedMs, Unsuccessful(exit));
        sink.calls := sink.calls + [OnComplete(summary)];
        completion := Some(summary);
      }
    }

    method Finish(e: Ending, late: Option<Exit>, elapsedMs: Word64) returns (r: PtyResult)
      requires Valid() && !e.Running?
      modifies this, sink
      ensures chunks == old(chunks)
      ensures IsOutcome(cfg, chunks, e, late, elapsedMs, Outcome(sink.calls, r))
    {
      ghost var lines := LinesSeen(Delivered(chunks), IsFlushed(e));
      if IsFlushed(e) {
        Flush();
      }
      ghost var spoken := sink.calls;
      if cfg.format.PlainText? {
        PlainFold(cfg, lines);
      }
      assert SummaryFits(cfg, completion, lines);
      var exit := ExitOf(e, late);
      Conclude(e, exit, elapsedMs);
      if cfg.format.PlainText? {
        assert sink.calls[..|spoken|] == spoken;
      }
      r := BuildResult(output, exit, TerminationOf(e, exit), sink.extracted, completion);
    }

    method DrainBoth(queued: seq<Output>, timed: seq<Output>)
      requires Valid()
      modifies this, sink
      ensures Valid() && chunks == old(chunks) + (DrainChunks(queued) + TimedChunks(timed))
    {
      ghost var before := chunks;
      DrainQueued(queued);
      DrainTimed(timed);
      Associative(before, DrainChunks(queued), TimedChunks(timed));
    }

    // The live loop and, once the child is dead, both drains.
    method Collect(live: seq<Tick>, queued: seq<Output>, timed: seq<Output>) returns (ending: Ending)
      requires Valid() && chunks == []
      modifies this, sink
      ensures Valid() && chunks == ChunksOf(live, queued, timed) && ending == LiveRun(live).ending
    {
      ending := RunLive(live);
      if ending.ByExit? {
        DrainBoth(queued, timed);
      }
    }

    method Run(live: seq<Tick>, queued: seq<Output>, timed: seq<Output>, late: Option<Exit>, elapsedMs: Word64)
      returns (r: Option<PtyResult>)
      requires Valid() && chunks == []
      modifies this, sink
      ensures chunks == ChunksOf(live, queued, timed)
      ensures r.None? <==> LiveRun(live).ending.Running?
      ensures r.Some? ==>
                IsOutcome(cfg, chunks, LiveRun(live).ending, late, elapsedMs, Outcome(sink.calls, r.value))
    {
      var ending := Collect(live, queued, timed);
      if ending.Running? {
        r := None;
      } else {
        var result := Finish(ending, late, elapsedMs);
        r := Some(result);
      }
    }
  }

  lemma {:induction false} PlainFold(cfg: Config, lines: seq<string>)
    requires cfg.format.PlainText?
    ensures FoldLines(cfg, Begin(cfg), lines) == Begin(cfg)
  {
    if lines != [] {
      PlainFold(cfg, lines[..|lines| - 1]);
    }
  }

  lemma SummaryStep(cfg: Config, p: Progress, earlier: Option<SessionResult>, later: Option<SessionResult>,
                    lines: seq<string>, line: string)
    requires SummaryFits(cfg, earlier, lines)
    requires var summary := LineSummary(cfg, p, line);
             if summary.None? then later == earlier
             else later == summary || (cfg.format.Copilot? && later == earlier)
    ensures SummaryFits(cfg, later, lines + [line])
  {
    assert (lines + [line])[..|lines|] == lines;
  }
}
