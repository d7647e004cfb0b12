/** Running a CLI backend: lines of two streams arrive over one channel, silence is bounded by an inactivity timeout
    and, once the agent has announced its event, by a deadline. Times are in milliseconds. */
module CliExecutor {
  import opened Prelude
  import opened Text
  import opened Sequences
  import CopilotStream
  import Json

  const POST_EVENT_GRACE: nat := 5000
  const MARKER: string := "Event emitted:"

  datatype Emission = StdoutLine(line: string) | StderrLine(line: string) | StdoutEof | StderrEof

  // What the channel holds, when it got there and how long its handling takes.
  datatype Turn = Turn(emission: Emission, arrives: nat, work: nat)

  datatype Config = Config(timeout: Option<nat>, verbose: bool, copilot: bool, json: string -> Option<Json.Value>)

  datatype Timing = Timing(clock: nat, deadline: Option<nat>, stdoutDone: bool, stderrDone: bool)

  datatype State = State(timing: Timing, timedOut: bool, output: string, written: string)

  predicate Signals(e: Emission) {
    match e
    case StdoutLine(line) => Contains(line, MARKER)
    case StderrLine(line) => Contains(line, MARKER)
    case StdoutEof => false
    case StderrEof => false
  }

  // What is kept of an emission, and what is shown of it.
  function KeptText(e: Emission): string {
    match e
    case StdoutLine(line) => line + "\n"
    case StderrLine(line) => "[stderr] " + line + "\n"
    case StdoutEof => ""
    case StderrEof => ""
  }

  function ShownText(cfg: Config, e: Emission): string {
    match e
    case StdoutLine(line) => if cfg.copilot then CopilotStream.LineText(cfg.json, line) else line + "\n"
    case StderrLine(line) => if cfg.verbose then "[stderr] " + line + "\n" else ""
    case StdoutEof => ""
    case StderrEof => ""
  }

  // How long a wait begun at `now` may last.
  function Effective(timeout: Option<nat>, deadline: Option<nat>, now: nat): Option<nat> {
    match (timeout, deadline)
    case (None, None) => None
    case (Some(t), None) => Some(t)
    case (None, Some(d)) => Some(if d <= now then 0 else d - now)
    case (Some(t), Some(d)) => Some(if d <= now then 0 else Earlier(t, d - now))
  }

  function Earlier(a: nat, b: nat): nat {
    if a <= b then a else b
  }

  function Later(a: nat, b: nat): nat {
    if a <= b then b else a
  }

  function Expiry(timeout: Option<nat>, t: Timing): Option<nat> {
    match Effective(timeout, t.deadline, t.clock)
    case None => None
    case Some(d) => Some(t.clock + d)
  }

  // Nothing is there when the wait expires.
  predicate TooLate(timeout: Option<nat>, t: Timing, arrives: nat) {
    var e := Expiry(timeout, t);
    e.Some? && e.value < arrives
  }

  predicate Done(t: Timing) {
    t.stdoutDone && t.stderrDone
  }

  function Advanced(t: Timing, turn: Turn): Timing {
    var at := Later(t.clock, turn.arrives);
    Timing(at + turn.work,
           if Signals(turn.emission) && t.deadline.None? then Some(at + POST_EVENT_GRACE) else t.deadline,
           t.stdoutDone || turn.emission.StdoutEof?,
           t.stderrDone || turn.emission.StderrEof?)
  }

  function Received(cfg: Config, st: State, turn: Turn): State {
    State(Advanced(st.timing, turn), st.timedOut,
          st.output + KeptText(turn.emission), st.written + ShownText(cfg, turn.emission))
  }

  function Expired(timeout: Option<nat>, t: Timing): Timing {
    t.(clock := Expiry(timeout, t).GetOr(t.clock))
  }

  // The channel closes when both readers are gone.
  function ClosedAt(t: Timing, closes: nat): Timing {
    t.(clock := Later(t.clock, closes), stdoutDone := true, stderrDone := true)
  }

  // The loop; the channel closes at `closes`.
  function Finished(cfg: Config, st: State, turns: seq<Turn>, closes: nat): State
    decreases |turns|
  {
    var next := if turns == [] then closes else turns[0].arrives;
    if Done(st.timing) then st
    else if TooLate(cfg.timeout, st.timing, next) then
      st.(timedOut := true, timing := Expired(cfg.timeout, st.timing))
    else if turns == [] then st.(timing := ClosedAt(st.timing, closes))
    else Finished(cfg, Received(cfg, st, turns[0]), turns[1..], closes)
  }

  // Showing one line of standard output.
  method Show(cfg: Config, line: string) returns (shown: string)
    ensures shown == ShownText(cfg, StdoutLine(line))
  {
    if cfg.copilot {
      var text := CopilotStream.ExtractText(cfg.json, line);
      shown := "";
      if text.Some? {
        shown := text.value;
        if text.value == "" || text.value[|text.value| - 1] != '\n' {
          shown := shown + "\n";
        }
      }
    } else {
      shown := line + "\n";
    }
  }

  // What one emission other than its arrival does.
  method Handle(cfg: Config, e: Emission, stdoutDone: bool, stderrDone: bool)
    returns (outDone: bool, errDone: bool, kept: string, shown: string)
    ensures outDone == (stdoutDone || e.StdoutEof?) && errDone == (stderrDone || e.StderrEof?)
    ensures kept == KeptText(e) && shown == ShownText(cfg, e)
  {
    outDone, errDone, kept, shown := stdoutDone, stderrDone, "", "";
    match e {
      case StdoutLine(line) =>
        shown := Show(cfg, line);
        kept := line + "\n";
      case StderrLine(line) =>
        if cfg.verbose {
          shown := "[stderr] " + line + "\n";
        }
        kept := "[stderr] " + line + "\n";
      case StdoutEof => outDone := true;
      case StderrEof => errDone := true;
    }
  }

  method Execute(cfg: Config, turns: seq<Turn>, closes: nat) returns (end: State)
    ensures end == Finished(cfg, START, turns, closes)
  {
    var clock: nat, deadline: Option<nat>, timedOut := 0, None, false;
    var stdoutDone, stderrDone := false, false;
    var output, written := "", "";
    var i := 0;
    ghost var st := START;
    while !timedOut && (!stdoutDone || !stderrDone)
      invariant 0 <= i <= |turns|
      invariant st == State(Timing(clock, deadline, stdoutDone, stderrDone), timedOut, output, written)
      invariant Finished(cfg, START, turns, closes) == if timedOut then st else Finished(cfg, st, turns[i..], closes)
      decreases !timedOut && (!stdoutDone || !stderrDone), |turns| - i
    {
      var effective := Effective(cfg.timeout, deadline, clock);
      var arrives := if i < |turns| then turns[i].arrives else closes;
      if effective.Some? && clock + effective.value < arrives {
        clock := clock + effective.value;
        timedOut := true;
        st := st.(timedOut := true, timing := Expired(cfg.timeout, st.timing));
      } else if i == |turns| {
        clock := Later(clock, arrives);
        stdoutDone, stderrDone := true, true;
        st := st.(timing := ClosedAt(st.timing, closes));
      } else {
        var e := turns[i].emission;
        assert turns[i..][1..] == turns[i + 1..];
        st := Received(cfg, st, turns[i]);
        clock := Later(clock, arrives);
        if Signals(e) && deadline.None? {
          deadline := Some(clock + POST_EVENT_GRACE);
        }
        var kept, shown;
        stdoutDone, stderrDone, kept, shown := Handle(cfg, e, stdoutDone, stderrDone);
        output, written := output + kept, written + shown;
        clock := clock + turns[i].work;
        i := i + 1;
      }
    }
    end := State(Timing(clock, deadline, stdoutDone, stderrDone), timedOut, output, written);
  }

  const START := State(Timing(0, None, false, false), false, "", "")

  // ---- What a run amounts to -----------------------------------------------------------------

  // What the turns come to, told one by one.
  function Told(tell: Emission -> string, turns: seq<Turn>): string {
    if turns == [] then "" else Told(tell, turns[..|turns| - 1]) + tell(turns[|turns| - 1].emission)
  }

  function Transcript(turns: seq<Turn>): string {
    Told(KeptText, turns)
  }

  function Shows(cfg: Config): Emission -> string {
    e => ShownText(cfg, e)
  }

  function Display(cfg: Config, turns: seq<Turn>): string {
    Told(Shows(cfg), turns)
  }

  /** Every wait ends by the earlier of `now + timeout` and the deadline, at once if the deadline has passed; without
      either it may last for ever. */
  lemma ExpiryIsTheEarlier(timeout: Option<nat>, t: Timing)
    ensures Expiry(timeout, t).None? <==> timeout.None? && t.deadline.None?
    ensures Expiry(timeout, t).Some? ==>
              var e := Expiry(timeout, t).value;
              && (timeout.Some? ==> e <= t.clock + timeout.value)
              && (t.deadline.Some? ==> e <= Later(t.clock, t.deadline.value))
              && (|| (timeout.Some? && e == t.clock + timeout.value)
                  || (t.deadline.Some? && e == Later(t.clock, t.deadline.value)))
  {}

  // The timing after the given turns, if all of them were received.
  function After(t: Timing, turns: seq<Turn>): Timing {
    if turns == [] then t else Advanced(After(t, turns[..|turns| - 1]), turns[|turns| - 1])
  }

  lemma {:induction false} AfterRest(t: Timing, turns: seq<Turn>)
    requires turns != []
    ensures After(Advanced(t, turns[0]), turns[1..]) == After(t, turns)
  {
    if |turns| > 1 {
      assert turns[1..][..|turns| - 2] == turns[..|turns| - 1][1..];
      AfterRest(t, turns[..|turns| - 1]);
    } else {
      assert turns[..0] == [] && After(t, turns[..0]) == t;
    }
  }

  // The i-th wait is not given up: something is there in time.
  predicate Continues(timeout: Option<nat>, t: Timing, turns: seq<Turn>, i: nat)
    requires i < |turns|
  {
    !Done(After(t, turns[..i])) && !TooLate(timeout, After(t, turns[..i]), turns[i].arrives)
  }

  function NextAt(turns: seq<Turn>, closes: nat, n: nat): nat {
    if n < |turns| then turns[n].arrives else closes
  }

  // How a run ends whose last wait began at `last`, with `next` the instant of what comes next.
  predicate EndsAs(timeout: Option<nat>, last: Timing, next: nat, exhausted: bool, end: State) {
    && end.timedOut == (!Done(last) && TooLate(timeout, last, next))
    && (end.timedOut ==> end.timing == Expired(timeout, last))
    && (!end.timedOut ==> Done(last) || exhausted)
    && (!end.timedOut ==> end.timing == if Done(last) then last else ClosedAt(last, next))
  }

  predicate StopsAfter(cfg: Config, st: State, turns: seq<Turn>, closes: nat, n: nat, end: State)
    requires n <= |turns|
  {
    && (forall i :: 0 <= i < n ==> Continues(cfg.timeout, st.timing, turns, i))
    && EndsAs(cfg.timeout, After(st.timing, turns[..n]), NextAt(turns, closes, n), n == |turns|, end)
    && end.output == st.output + Transcript(turns[..n])
    && end.written == st.written + Display(cfg, turns[..n])
  }

  lemma ContinuesRest(timeout: Option<nat>, t: Timing, turns: seq<Turn>, i: nat)
    requires i + 1 < |turns|
    ensures Continues(timeout, t, turns, i + 1) == Continues(timeout, Advanced(t, turns[0]), turns[1..], i)
  {
    assert turns[..i + 1][1..] == turns[1..][..i];
    AfterRest(t, turns[..i + 1]);
  }

  lemma Ends<T>(s: seq<T>)
    requires |s| > 1
    ensures var front := s[..|s| - 1];
            && front[0] == s[0] && s[1..][..|s| - 2] == front[1..] && s[1..][|s| - 2] == s[|s| - 1]
  {}

  lemma {:induction false} ToldRest(tell: Emission -> string, turns: seq<Turn>)
    requires turns != []
    ensures Told(tell, turns) == tell(turns[0].emission) + Told(tell, turns[1..])
  {
    if |turns| == 1 {
      assert turns[..0] == [] && turns[1..] == [];
      assert Told(tell, turns[..0]) == "";
    } else {
      var front, last := turns[..|turns| - 1], tell(turns[|turns| - 1].emission);
      Ends(turns);
      ToldRest(tell, front);
      Associative(tell(turns[0].emission), Told(tell, front[1..]), last);
    }
  }

  lemma StopsLater(cfg: Config, st: State, turns: seq<Turn>, closes: nat, m: nat, end: State)
    requires turns != [] && m < |turns|
    requires !Done(st.timing) && !TooLate(cfg.timeout, st.timing, turns[0].arrives)
    requires StopsAfter(cfg, Received(cfg, st, turns[0]), turns[1..], closes, m, end)
    ensures StopsAfter(cfg, st, turns, closes, m + 1, end)
  {
    var n := m + 1;
    forall i | 0 <= i < n ensures Continues(cfg.timeout, st.timing, turns, i) {
      if i > 0 {
        ContinuesRest(cfg.timeout, st.timing, turns, i - 1);
      }
    }
    assert turns[..n][1..] == turns[1..][..m];
    AfterRest(st.timing, turns[..n]);
    ToldRest(KeptText, turns[..n]);
    ToldRest(Shows(cfg), turns[..n]);
    Associative(st.output, KeptText(turns[0].emission), Transcript(turns[1..][..m]));
    Associative(st.written, ShownText(cfg, turns[0].emission), Display(cfg, turns[1..][..m]));
  }

  /** A run receives some first turns, each within its wait, keeps exactly their lines, in order and with those of
      standard error marked, and shows them as the options say. It then ends: because both streams ended, because the
      next thing came too late, or because the channel closed. */
  lemma {:induction false} RunsAre(cfg: Config, st: State, turns: seq<Turn>, closes: nat) returns (n: nat)
    requires !st.timedOut
    ensures n <= |turns| && StopsAfter(cfg, st, turns, closes, n, Finished(cfg, st, turns, closes))
    decreases |turns|
  {
    n := 0;
    if turns != [] && !Done(st.timing) && !TooLate(cfg.timeout, st.timing, turns[0].arrives) {
      var next := Received(cfg, st, turns[0]);
      var m := RunsAre(cfg, next, turns[1..], closes);
      StopsLater(cfg, st, turns, closes, m, Finished(cfg, next, turns[1..], closes));
      n := m + 1;
    }
  }

  // The instant the i-th turn is received.
  function ReceivedAt(t: Timing, turns: seq<Turn>, i: nat): nat
    requires i < |turns|
  {
    Later(After(t, turns[..i]).clock, turns[i].arrives)
  }

  // The first line that holds the marker, or the number of turns.
  predicate IsFirstSignal(turns: seq<Turn>, i: nat) {
    && i <= |turns|
    && (forall j :: 0 <= j < i ==> !Signals(turns[j].emission))
    && (i < |turns| ==> Signals(turns[i].emission))
  }

  lemma FirstSignalFurther(front: seq<Turn>, last: Turn, i: nat) returns (k: nat)
    requires IsFirstSignal(front, i)
    ensures IsFirstSignal(front + [last], k)
    ensures if i < |front| then k == i else if Signals(last.emission) then k == |front| else k == |front| + 1
  {
    k := if i == |front| && !Signals(last.emission) then i + 1 else i;
  }

  function DeadlineFrom(t: Timing, turns: seq<Turn>, i: nat): Option<nat> {
    if i < |turns| then Some(ReceivedAt(t, turns, i) + POST_EVENT_GRACE) else None
  }

  lemma ReceivedAsBefore(t: Timing, front: seq<Turn>, last: Turn, i: nat)
    requires i <= |front|
    ensures ReceivedAt(t, front + [last], i)
            == if i < |front| then ReceivedAt(t, front, i) else Later(After(t, front).clock, last.arrives)
  {
    assert i < |front| ==> (front + [last])[..i] == front[..i];
    assert (front + [last])[..|front|] == front;
  }

  lemma DeadlineStep(t: Timing, front: seq<Turn>, last: Turn)
    ensures var before := After(t, front);
            After(t, front + [last]).deadline
            == if before.deadline.None? && Signals(last.emission)
               then Some(Later(before.clock, last.arrives) + POST_EVENT_GRACE) else before.deadline
  {
    assert (front + [last])[..|front|] == front;
  }

  /** The deadline is five seconds behind the receipt of the first line that holds the marker, and stays there whatever
      follows; without such a line there is none. */
  lemma {:induction false} DeadlineIsFixed(t: Timing, turns: seq<Turn>) returns (i: nat)
    requires t.deadline.None?
    ensures IsFirstSignal(turns, i) && After(t, turns).deadline == DeadlineFrom(t, turns, i)
  {
    i := 0;
    if turns != [] {
      var front, last := turns[..|turns| - 1], turns[|turns| - 1];
      var k := DeadlineIsFixed(t, front);
      assert turns == front + [last];
      i := FirstSignalFurther(front, last, k);
      DeadlineStep(t, front, last);
      ReceivedAsBefore(t, front, last, k);
    }
  }

  /** Each line of a run was received within its wait: by the timeout, and by the deadline once there is one, unless it
      was already there. A run ends by timeout only after silence up to the very end of its last wait, and otherwise
      only when both streams have ended or the channel is closed. */
  lemma ExecutionIsBounded(cfg: Config, turns: seq<Turn>, closes: nat) returns (n: nat)
    ensures n <= |turns| && StopsAfter(cfg, START, turns, closes, n, Finished(cfg, START, turns, closes))
    ensures var end := Finished(cfg, START, turns, closes);
            var last := After(START.timing, turns[..n]);
            && (end.timedOut ==>
                  && Expiry(cfg.timeout, last) == Some(end.timing.clock) && !Done(end.timing)
                  && end.timing.clock < NextAt(turns, closes, n))
            && (!end.timedOut ==> Done(end.timing))
    ensures forall i :: 0 <= i < n ==>
              var before := After(START.timing, turns[..i]);
              && (cfg.timeout.Some? ==> ReceivedAt(START.timing, turns, i) <= before.clock + cfg.timeout.value)
              && (before.deadline.Some? ==>
                    ReceivedAt(START.timing, turns, i) <= Later(before.clock, before.deadline.value))
  {
    n := RunsAre(cfg, START, turns, closes);
    forall i | 0 <= i < n
      ensures var before := After(START.timing, turns[..i]);
              && (cfg.timeout.Some? ==> ReceivedAt(START.timing, turns, i) <= before.clock + cfg.timeout.value)
              && (before.deadline.Some? ==>
                    ReceivedAt(START.timing, turns, i) <= Later(before.clock, before.deadline.value))
    {
      assert Continues(cfg.timeout, START.timing, turns, i);
      ExpiryIsTheEarlier(cfg.timeout, After(START.timing, turns[..i]));
    }
  }

  function StdoutLines(turns: seq<Turn>): seq<string> {
    if turns == [] then []
    else
      var front := StdoutLines(turns[..|turns| - 1]);
      match turns[|turns| - 1].emission
      case StdoutLine(line) => front + [line]
      case _ => front
  }

  /** For Copilot the quiet display is exactly the text that batch extraction finds in the lines of standard output. */
  lemma {:induction false} CopilotDisplayIsExtraction(cfg: Config, turns: seq<Turn>)
    requires cfg.copilot && !cfg.verbose
    ensures Display(cfg, turns) == CopilotStream.LinesText(cfg.json, StdoutLines(turns))
  {
    if turns != [] {
      var front := StdoutLines(turns[..|turns| - 1]);
      CopilotDisplayIsExtraction(cfg, turns[..|turns| - 1]);
      match turns[|turns| - 1].emission {
        case StdoutLine(line) => assert (front + [line])[..|front|] == front;
        case _ =>
      }
    }
  }
}
