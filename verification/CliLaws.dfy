/** What each emission does to an execution, told by its line. */
module CliLaws {
  import opened Prelude
  import opened Text
  import opened CliExecutor

  ghost predicate HoldsMarker(line: string) {
    exists i: nat :: StandsIn(line, "Event emitted:", i)
  }

  // A line that holds the marker sets a deadline five seconds off, once.
  ghost predicate SetsDeadline(st: State, next: State, line: string, at: nat) {
    next.timing.deadline
    == if HoldsMarker(line) && st.timing.deadline.None? then Some(at + 5000) else st.timing.deadline
  }

  // A line ends no stream and is received when it is there and the loop is.
  ghost predicate LineArrives(st: State, next: State, turn: Turn, line: string) {
    var at := if turn.arrives < st.timing.clock then st.timing.clock else turn.arrives;
    && SetsDeadline(st, next, line, at) && next.timing.clock == at + turn.work && next.timedOut == st.timedOut
    && next.timing.stdoutDone == st.timing.stdoutDone && next.timing.stderrDone == st.timing.stderrDone
  }

  /** A line of standard output is kept as it is and, except for Copilot, shown as it is. */
  lemma StdoutIsKept(cfg: Config, st: State, turn: Turn, line: string)
    requires turn.emission == StdoutLine(line)
    ensures var next := Received(cfg, st, turn);
            && LineArrives(st, next, turn, line) && next.output == st.output + (line + "\n")
            && (!cfg.copilot ==> next.written == st.written + (line + "\n"))
  {
    ContainsIs(line, MARKER);
  }

  /** A line of standard error is kept with a mark, and shown with it only if asked for. */
  lemma StderrIsMarked(cfg: Config, st: State, turn: Turn, line: string)
    requires turn.emission == StderrLine(line)
    ensures var next := Received(cfg, st, turn);
            && LineArrives(st, next, turn, line) && next.output == st.output + ("[stderr] " + line + "\n")
            && next.written == if cfg.verbose then st.written + ("[stderr] " + line + "\n") else st.written
  {
    ContainsIs(line, MARKER);
  }

  /** The end of a stream ends that stream and is neither kept nor shown; the loop ends when both have. */
  lemma EndsAreNoted(cfg: Config, st: State, turn: Turn)
    requires turn.emission.StdoutEof? || turn.emission.StderrEof?
    ensures var next := Received(cfg, st, turn);
            && next.output == st.output && next.written == st.written
            && next.timing.deadline == st.timing.deadline
            && (next.timing.stdoutDone <==> st.timing.stdoutDone || turn.emission.StdoutEof?)
            && (next.timing.stderrDone <==> st.timing.stderrDone || turn.emission.StderrEof?)
            && (Done(next.timing) <==> next.timing.stdoutDone && next.timing.stderrDone)
  {}

  /** When the channel closes in time, both streams have ended, no earlier than it closed. */
  lemma ClosingEnds(cfg: Config, st: State, closes: nat)
    requires !Done(st.timing) && !TooLate(cfg.timeout, st.timing, closes)
    ensures var end := Finished(cfg, st, [], closes);
            && end.output == st.output && end.written == st.written && end.timedOut == st.timedOut
            && end.timing.stdoutDone && end.timing.stderrDone && end.timing.deadline == st.timing.deadline
            && end.timing.clock == if closes < st.timing.clock then st.timing.clock else closes
  {}
}
