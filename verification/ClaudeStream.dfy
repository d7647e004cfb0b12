/** Claude's stream events and their dispatch. */
module ClaudeStream {
  import opened Prelude
  import opened StreamTypes
  import opened Sequences
  import Json

  datatype Block = TextBlock(text: string) | ToolUse(id: string, name: string, input: Json.Value)
  datatype ToolResult = ToolResult(id: string, content: string)

  datatype Event =
    | System
    | Assistant(content: seq<Block>)
    | User(results: seq<ToolResult>)
    | Result(durationMs: Word64, cost: real, turns: Word32, isError: bool)

  function BlockCall(b: Block): Call {
    match b
    case TextBlock(text) => OnText(text)
    case ToolUse(id, name, input) => OnToolCall(name, id, input)
  }

  function BlockText(b: Block): string {
    if b.TextBlock? then b.text + "\n" else ""
  }

  function BlocksText(bs: seq<Block>): string {
    if bs == [] then "" else BlocksText(bs[..|bs| - 1]) + BlockText(bs[|bs| - 1])
  }

  function Completion(e: Event): Option<SessionResult> {
    if e.Result? then Some(PlainResult(e.durationMs, e.cost, e.turns, e.isError)) else None
  }

  function BlockCalls(bs: seq<Block>): seq<Call> {
    if bs == [] then [] else BlockCalls(bs[..|bs| - 1]) + [BlockCall(bs[|bs| - 1])]
  }

  function ResultCalls(rs: seq<ToolResult>): seq<Call> {
    if rs == [] then []
    else ResultCalls(rs[..|rs| - 1]) + [OnToolResult(rs[|rs| - 1].id, rs[|rs| - 1].content)]
  }

  function CallsOf(e: Event): seq<Call> {
    match e
    case System => []
    case Assistant(content) => BlockCalls(content)
    case User(results) => ResultCalls(results)
    case Result(_, _, _, isError) =>
      (if isError then [OnError("Session ended with error")] else []) + [OnComplete(Completion(e).value)]
  }

  function Step(p: Progress, e: Event): Progress {
    p.(calls := p.calls + CallsOf(e),
       extracted := p.extracted + if e.Assistant? then BlocksText(e.content) else "")
  }

  // What the first blocks leave behind, and one more.
  function Emitted(p: Progress, content: seq<Block>): Progress {
    p.(calls := p.calls + BlockCalls(content), extracted := p.extracted + BlocksText(content))
  }

  lemma EmittedOneMore(p: Progress, content: seq<Block>, i: nat)
    requires i < |content|
    ensures var q := Emitted(p, content[..i]);
            Emitted(p, content[..i + 1])
            == q.(calls := q.calls + [BlockCall(content[i])], extracted := q.extracted + BlockText(content[i]))
  {
    assert content[..i + 1][..i] == content[..i];
    Associative(p.calls, BlockCalls(content[..i]), [BlockCall(content[i])]);
    Associative(p.extracted, BlocksText(content[..i]), BlockText(content[i]));
  }

  method EmitBlocks(content: seq<Block>, sink: Sink)
    modifies sink
    ensures sink.Now() == Emitted(old(sink.Now()), content)
  {
    ghost var before := sink.Now();
    for i := 0 to |content|
      invariant sink.Now() == Emitted(before, content[..i])
    {
      EmittedOneMore(before, content, i);
      ghost var text := sink.extracted;
      sink.calls := sink.calls + [BlockCall(content[i])];
      if content[i].TextBlock? {
        sink.extracted := sink.extracted + content[i].text;
        sink.extracted := sink.extracted + "\n";
        Associative(text, content[i].text, "\n");
      }
    }
    assert content[..|content|] == content;
  }

  method EmitResults(results: seq<ToolResult>, sink: Sink)
    modifies sink
    ensures sink.Now() == old(sink.Now()).(calls := old(sink.calls) + ResultCalls(results))
  {
    ghost var before := sink.Now();
    for i := 0 to |results|
      invariant sink.Now() == before.(calls := before.calls + ResultCalls(results[..i]))
    {
      assert results[..i + 1][..i] == results[..i];
      sink.calls := sink.calls + [OnToolResult(results[i].id, results[i].content)];
    }
    assert results[..|results|] == results;
  }

  method Dispatch(e: Event, sink: Sink)
    modifies sink
    ensures sink.Now() == Step(old(sink.Now()), e)
  {
    match e
    case System =>
    case Assistant(content) =>
      EmitBlocks(content, sink);
    case User(results) =>
      EmitResults(results, sink);
    case Result(durationMs, cost, turns, isError) =>
      if isError {
        sink.calls := sink.calls + [OnError("Session ended with error")];
      }
      sink.calls := sink.calls + [OnComplete(PlainResult(durationMs, cost, turns, isError))];
  }
}
