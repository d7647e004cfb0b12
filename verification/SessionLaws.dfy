/** What Claude's and Pi's events do to a session, told by their fields. */
module SessionLaws {
  import opened Prelude
  import opened StreamTypes
  import opened Sequences
  import ClaudeStream
  import PiStream

  // `q` is `p` with these further calls and this further text, and nothing else.
  predicate Adds(p: Progress, q: Progress, calls: seq<Call>, text: string) {
    q == p.(calls := p.calls + calls, extracted := p.extracted + text)
  }

  // ---- Claude --------------------------------------------------------------------------------

  lemma {:induction false} BlockCallsAt(bs: seq<ClaudeStream.Block>, i: nat)
    requires i < |bs|
    ensures |ClaudeStream.BlockCalls(bs)| == |bs|
    ensures ClaudeStream.BlockCalls(bs)[i] == match bs[i]
                                              case TextBlock(text) => OnText(text)
                                              case ToolUse(id, name, input) => OnToolCall(name, id, input)
    decreases |bs|
  {
    var n := |bs| - 1;
    if n > 0 {
      BlockCallsAt(bs[..n], if i < n then i else 0);
    }
  }

  // The texts that are shown, each a line of its own.
  function ShownLines(calls: seq<Call>): string {
    if calls == [] then "" else ShownLines(calls[..|calls| - 1]) + match calls[|calls| - 1]
                                                                   case OnText(t) => t + "\n"
                                                                   case _ => ""
  }

  lemma {:induction false} BlocksTextIsShown(bs: seq<ClaudeStream.Block>)
    ensures ClaudeStream.BlocksText(bs) == ShownLines(ClaudeStream.BlockCalls(bs))
  {
    if bs != [] {
      var n := |bs| - 1;
      BlocksTextIsShown(bs[..n]);
      assert ClaudeStream.BlockCalls(bs)[..|ClaudeStream.BlockCalls(bs)| - 1] == ClaudeStream.BlockCalls(bs[..n]);
    }
  }

  /** An assistant message makes one call per block, in order, and its texts are extracted as lines. */
  lemma ClaudeSays(p: Progress, content: seq<ClaudeStream.Block>) returns (calls: seq<Call>)
    ensures Adds(p, ClaudeStream.Step(p, ClaudeStream.Assistant(content)), calls, ShownLines(calls))
    ensures |calls| == |content|
    ensures forall i :: 0 <= i < |calls| ==>
              calls[i] == match content[i]
                          case TextBlock(text) => OnText(text)
                          case ToolUse(id, name, input) => OnToolCall(name, id, input)
  {
    calls := ClaudeStream.BlockCalls(content);
    BlocksTextIsShown(content);
    if content != [] {
      BlockCallsAt(content, 0);
    }
    forall i | 0 <= i < |content|
      ensures calls[i] == match content[i]
                          case TextBlock(text) => OnText(text)
                          case ToolUse(id, name, input) => OnToolCall(name, id, input)
    {
      BlockCallsAt(content, i);
    }
  }

  lemma {:induction false} ResultCallsAt(rs: seq<ClaudeStream.ToolResult>, i: nat)
    requires i < |rs|
    ensures |ClaudeStream.ResultCalls(rs)| == |rs|
    ensures ClaudeStream.ResultCalls(rs)[i] == OnToolResult(rs[i].id, rs[i].content)
    decreases |rs|
  {
    var n := |rs| - 1;
    if n > 0 {
      ResultCallsAt(rs[..n], if i < n then i else 0);
    }
  }

  /** A user message makes one call per tool result, in order, and no text. */
  lemma ClaudeHears(p: Progress, results: seq<ClaudeStream.ToolResult>) returns (calls: seq<Call>)
    ensures Adds(p, ClaudeStream.Step(p, ClaudeStream.User(results)), calls, "")
    ensures |calls| == |results|
    ensures forall i :: 0 <= i < |calls| ==> calls[i] == OnToolResult(results[i].id, results[i].content)
  {
    calls := ClaudeStream.ResultCalls(results);
    if results != [] {
      ResultCallsAt(results, 0);
    }
    forall i | 0 <= i < |results| ensures calls[i] == OnToolResult(results[i].id, results[i].content) {
      ResultCallsAt(results, i);
    }
  }

  /** A result completes the session with what it reports, behind an error if it reports one; a system event does
      nothing. */
  lemma ClaudeEnds(p: Progress, ms: Word64, cost: real, turns: Word32)
    ensures var done := OnComplete(SessionResult(ms, cost, turns, false, 0, 0, 0, 0));
            Adds(p, ClaudeStream.Step(p, ClaudeStream.Result(ms, cost, turns, false)), [done], "")
    ensures var done := OnComplete(SessionResult(ms, cost, turns, true, 0, 0, 0, 0));
            Adds(p, ClaudeStream.Step(p, ClaudeStream.Result(ms, cost, turns, true)),
                 [OnError("Session ended with error"), done], "")
    ensures ClaudeStream.Step(p, ClaudeStream.System) == p
  {}

  // ---- Pi ------------------------------------------------------------------------------------

  /** Text is shown and extracted; thinking is shown if asked for and never extracted; errors are shown. */
  lemma PiSays(p: Progress, verbose: bool, text: string)
    ensures Adds(p, PiStream.Step(p, PiStream.TextDelta(text), verbose), [OnText(text)], text)
    ensures Adds(p, PiStream.Step(p, PiStream.ThinkingDelta(text), verbose), if verbose then [OnText(text)] else [], "")
    ensures Adds(p, PiStream.Step(p, PiStream.Error(text), verbose), [OnError(text)], "")
    ensures PiStream.Step(p, PiStream.Other, verbose) == p
  {}

  /** A tool start is a tool call; a tool end is its text blocks, one per line, as a result or as an error. */
  lemma PiTools(p: Progress, verbose: bool, start: PiStream.Event, end: PiStream.Event, output: string)
    requires start.ToolStart? && end.ToolEnd? && IsLines(PiStream.TextBlocks(end.content), output)
    ensures Adds(p, PiStream.Step(p, start, verbose), [OnToolCall(start.name, start.id, start.args)], "")
    ensures Adds(p, PiStream.Step(p, end, verbose),
                 [if end.isError then OnError(output) else OnToolResult(end.id, output)], "")
  {
    LinesAreJoined(PiStream.TextBlocks(end.content), output);
  }

  // The text that has these lines, told from the last one.
  predicate IsLines(lines: seq<string>, text: string) {
    if lines == [] then text == ""
    else if |lines| == 1 then text == lines[0]
    else
      var last := lines[|lines| - 1];
      |last| + 1 <= |text| && text[|text| - |last|..] == last && text[|text| - |last| - 1] == '\n'
      && IsLines(lines[..|lines| - 1], text[..|text| - |last| - 1])
  }

  lemma {:induction false} JoinSnoc(lines: seq<string>, last: string)
    requires lines != []
    ensures PiStream.JoinLines(lines + [last]) == PiStream.JoinLines(lines) + "\n" + last
  {
    var all := lines + [last];
    assert all[1..] == lines[1..] + [last];
    if |lines| == 1 {
      assert all[1..] == [last];
    } else {
      JoinSnoc(lines[1..], last);
      Associative(lines[0] + "\n", PiStream.JoinLines(lines[1..]) + "\n", last);
      Associative(lines[0] + "\n", PiStream.JoinLines(lines[1..]), "\n");
    }
  }

  lemma {:induction false} LinesAreJoined(lines: seq<string>, text: string)
    requires IsLines(lines, text)
    ensures text == PiStream.JoinLines(lines)
  {
    if |lines| > 1 {
      var n := |lines| - 1;
      var last := lines[n];
      LinesAreJoined(lines[..n], text[..|text| - |last| - 1]);
      JoinSnoc(lines[..n], last);
      assert lines == lines[..n] + [last];
      Cut(text, |text| - |last| - 1);
    }
  }

  /** The text blocks are the blocks that are text, in order. */
  lemma {:induction false} TextBlocksAre(content: seq<Option<string>>)
    ensures |PiStream.TextBlocks(content)| == |Filter((b: Option<string>) => b.Some?, content)|
    ensures forall i :: 0 <= i < |PiStream.TextBlocks(content)| ==>
              Filter((b: Option<string>) => b.Some?, content)[i] == Some(PiStream.TextBlocks(content)[i])
  {
    if content != [] {
      TextBlocksAre(content[1..]);
    }
  }

  // A number added to a counter that starts again at zero.
  predicate IsSum64(sum: Word64, a: Word64, b: Word64) {
    sum == (a + b) % 0x1_0000_0000_0000_0000
  }

  // What a turn that reports usage leaves in the totals.
  predicate Counted(t: PiTotals, u: PiStream.Usage, q: PiTotals) {
    && q.cost == t.cost + (if u.cost.Some? then u.cost.value else 0.0)
    && IsSum64(q.input, t.input, u.input) && IsSum64(q.output, t.output, u.output)
    && IsSum64(q.cacheRead, t.cacheRead, u.cacheRead) && IsSum64(q.cacheWrite, t.cacheWrite, u.cacheWrite)
  }

  predicate SameUsage(t: PiTotals, q: PiTotals) {
    && q.cost == t.cost && q.input == t.input && q.output == t.output
    && q.cacheRead == t.cacheRead && q.cacheWrite == t.cacheWrite
  }

  predicate Names(q: Option<string>, t: Option<string>, reported: Option<string>) {
    q == if reported.Some? && reported.value != "" then reported else t
  }

  /** The end of a turn shows nothing; it is counted, its usage added field by field, and its names remembered unless
      they are absent or empty. */
  lemma PiTurns(p: Progress, verbose: bool, m: PiStream.TurnMessage)
    ensures var q := PiStream.Step(p, PiStream.TurnEnd(Some(m)), verbose);
            && q == p.(pi := q.pi) && q.pi.turns == (p.pi.turns + 1) % 0x1_0000_0000
            && Names(q.pi.provider, p.pi.provider, m.provider) && Names(q.pi.model, p.pi.model, m.model)
            && if m.usage.Some? then Counted(p.pi, m.usage.value, q.pi) else SameUsage(p.pi, q.pi)
    ensures PiStream.Step(p, PiStream.TurnEnd(None), verbose)
            == p.(pi := p.pi.(turns := (p.pi.turns + 1) % 0x1_0000_0000))
  {}
}
