/** Copilot's JSONL events: parsing, live dispatch with replay suppression, and batch extraction. */
module CopilotStream {
  import opened Prelude
  import opened StreamTypes
  import opened Framing
  import opened Json
  import Digits

  datatype ToolOutput = ToolOutput(content: Value, detailed: Option<string>)

  datatype Event =
    | Message(messageId: Option<string>, content: Value)
    | MessageDelta(messageId: Option<string>, delta: string)
    | Reasoning(reasoningId: Option<string>, reasoning: string)
    | ReasoningDelta(reasoningId: Option<string>, delta: string)
    | TurnStart(turnId: Option<string>)
    | TurnEnd(turnId: Option<string>)
    | ToolStart(id: string, name: string, arguments: Value)
    | ToolPartial(id: string, partialOutput: string)
    | ToolComplete(id: string, success: bool, result: Option<ToolOutput>, error: Option<string>)
    | Result(exitCode: Option<int>, sessionMs: Option<Word64>, apiMs: Option<Word64>)
    | Other

  // ---- Parsing -------------------------------------------------------------------------------

  function Data(v: Value): Value {
    v.Get("data").GetOr(Null)
  }

  function ParseToolStart(v: Value): Event {
    match (Data(v).GetStr("toolCallId"), Data(v).GetStr("toolName"))
    case (Some(id), Some(name)) => ToolStart(id, name, Data(v).Get("arguments").GetOr(Null))
    case _ => Other
  }

  function ParseToolPartial(v: Value): Event {
    match Data(v).GetStr("toolCallId")
    case Some(id) => ToolPartial(id, Data(v).GetStr("partialOutput").GetOr(""))
    case None => Other
  }

  function ParseToolComplete(v: Value): Event {
    match Data(v).GetStr("toolCallId")
    case None => Other
    case Some(id) =>
      var result := match Data(v).Get("result")
        case Some(r) => Some(ToolOutput(r.Get("content").GetOr(Null), r.GetStr("detailedContent")))
        case None => None;
      var error := match Data(v).Get("error")
        case Some(e) => e.GetStr("message")
        case None => None;
      ToolComplete(id, Data(v).GetBool("success").GetOr(false), result, error)
  }

  // The types the program tells apart.
  datatype Kind =
    | KMessage | KMessageDelta | KReasoning | KReasoningDelta | KTurnStart | KTurnEnd
    | KToolStart | KToolPartial | KToolComplete | KResult | KOther

  function AssistantKind(t: string): Kind {
    if t == "assistant.message" then KMessage
    else if t == "assistant.message_delta" then KMessageDelta
    else if t == "assistant.reasoning" then KReasoning
    else if t == "assistant.reasoning_delta" then KReasoningDelta
    else if t == "assistant.turn_start" then KTurnStart
    else if t == "assistant.turn_end" then KTurnEnd
    else KOther
  }

  function KindOf(t: string): Kind {
    if t == "tool.execution_start" then KToolStart
    else if t == "tool.execution_partial_result" then KToolPartial
    else if t == "tool.execution_complete" then KToolComplete
    else if t == "result" then KResult
    else AssistantKind(t)
  }

  function ParseKind(k: Kind, v: Value): Event {
    match k
    case KMessage => Message(Data(v).GetStr("messageId"), Data(v).Get("content").GetOr(Null))
    case KMessageDelta => MessageDelta(Data(v).GetStr("messageId"), Data(v).GetStr("deltaContent").GetOr(""))
    case KReasoning => Reasoning(Data(v).GetStr("reasoningId"), Data(v).GetStr("content").GetOr(""))
    case KReasoningDelta => ReasoningDelta(Data(v).GetStr("reasoningId"), Data(v).GetStr("deltaContent").GetOr(""))
    case KTurnStart => TurnStart(Data(v).GetStr("turnId"))
    case KTurnEnd => TurnEnd(Data(v).GetStr("turnId"))
    case KToolStart => ParseToolStart(v)
    case KToolPartial => ParseToolPartial(v)
    case KToolComplete => ParseToolComplete(v)
    case KResult =>
      var usage := v.Get("usage").GetOr(Null);
      Result(v.GetI32("exitCode"), usage.GetU64("sessionDurationMs"), usage.GetU64("totalApiDurationMs"))
    case KOther => Other
  }

  function ParseValue(v: Value): Option<Event> {
    match v.GetStr("type")
    case None => None
    case Some(t) => Some(ParseKind(KindOf(t), v))
  }

  function ParseLine(json: string -> Option<Value>, line: string): Option<Event> {
    match ParseTrimmed(json, line)
    case None => None
    case Some(v) => ParseValue(v)
  }

  // ---- Text of a message ---------------------------------------------------------------------

  function ItemText(item: Value): string {
    match item
    case Str(s) => s
    case Object(_) => item.GetStr("text").GetOr("")
    case _ => ""
  }

  function ItemsText(items: seq<Value>): string {
    if items == [] then "" else ItemsText(items[..|items| - 1]) + ItemText(items[|items| - 1])
  }

  function ContentText(v: Value): Option<string> {
    match v
    case Str(s) => Some(s)
    case Array(items) => if ItemsText(items) == "" then None else Some(ItemsText(items))
    case Object(_) => v.GetStr("text")
    case _ => None
  }

  method ExtractContentText(v: Value) returns (text: Option<string>)
    ensures text == ContentText(v)
  {
    match v
    case Str(s) => text := Some(s);
    case Array(items) =>
      var combined := "";
      for i := 0 to |items|
        invariant combined == ItemsText(items[..i])
      {
        assert items[..i + 1][..i] == items[..i];
        combined := combined + ItemText(items[i]);
      }
      assert items[..|items|] == items;
      text := if combined == "" then None else Some(combined);
    case Object(_) => text := v.GetStr("text");
    case _ => text := None;
  }

  // A message ends in a newline once appended, whether or not it brought one.
  function Chunk(text: string): string {
    if text != "" && text[|text| - 1] == '\n' then text else text + "\n"
  }

  method AppendTextChunk(output: string, chunk: string) returns (r: string)
    ensures r == output + Chunk(chunk)
    ensures r[|r| - 1] == '\n'
  {
    r := output + chunk;
    if chunk == "" || chunk[|chunk| - 1] != '\n' {
      r := r + "\n";
      assert r == output + (chunk + "\n");
    }
  }

  // ---- Live dispatch -------------------------------------------------------------------------

  function OutputText(e: Event): Option<string>
    requires e.ToolComplete?
  {
    match e.result
    case None => None
    case Some(out) => if out.detailed.Some? then out.detailed else ContentText(out.content)
  }

  function FailureText(e: Event): string
    requires e.ToolComplete?
  {
    if e.error.Some? then e.error.value else OutputText(e).GetOr("Tool execution failed: " + e.id)
  }

  function SessionSummary(e: Event, turns: Word32): SessionResult
    requires e.Result?
  {
    var ms := if e.sessionMs.Some? then e.sessionMs.value else e.apiMs.GetOr(0);
    PlainResult(ms, 0.0, turns, e.exitCode.GetOr(0) != 0)
  }

  function SummaryCalls(e: Event, turns: Word32): seq<Call>
    requires e.Result?
  {
    var summary := SessionSummary(e, turns);
    (if summary.isError then [OnError("Session ended with exit code " + Digits.PrintInt(e.exitCode.GetOr(0)))] else [])
    + [OnComplete(summary)]
  }

  predicate Suppressed(id: Option<string>, streamed: set<string>) {
    id.Some? && id.value in streamed
  }

  function CallsOf(e: Event, streamed: set<string>, turns: Word32): seq<Call> {
    match e
    case MessageDelta(_, delta) => if delta == "" then [] else [OnText(delta)]
    case Message(id, content) =>
      if Suppressed(id, streamed) then [OnText("\n")]
      else if ContentText(content).Some? then [OnText(ContentText(content).value)]
      else []
    case ToolStart(id, name, arguments) => [OnToolCall(name, id, arguments)]
    case ToolComplete(id, success, _, _) =>
      if success then [OnToolResult(id, OutputText(e).GetOr(""))] else [OnError(FailureText(e))]
    case Result(_, _, _) => SummaryCalls(e, turns)
    case _ => []
  }

  // The text one event contributes to `extracted_text`, streamed before or not.
  function EventText(e: Event): string {
    if e.Message? && ContentText(e.content).Some? then Chunk(ContentText(e.content).value) else ""
  }

  function Step(p: Progress, e: Event): Progress {
    p.(calls := p.calls + CallsOf(e, p.streamedIds, p.completedTurns),
       extracted := p.extracted + EventText(e),
       streamedIds := p.streamedIds + if e.MessageDelta? && e.messageId.Some? then {e.messageId.value} else {},
       completedTurns := if e.TurnEnd? then WrapAdd32(p.completedTurns, 1) else p.completedTurns)
  }

  method Dispatch(e: Event, sink: Sink) returns (summary: Option<SessionResult>)
    modifies sink
    ensures sink.Now() == Step(old(sink.Now()), e)
    ensures summary == if e.Result? then Some(SessionSummary(e, old(sink.completedTurns))) else None
  {
    summary := None;
    match e
    case MessageDelta(id, delta) =>
      if id.Some? {
        sink.streamedIds := sink.streamedIds + {id.value};
      }
      if delta != "" {
        sink.calls := sink.calls + [OnText(delta)];
      }
    case Message(id, content) =>
      var text := ExtractContentText(content);
      if Suppressed(id, sink.streamedIds) {
        sink.calls := sink.calls + [OnText("\n")];
      } else if text.Some? {
        sink.calls := sink.calls + [OnText(text.value)];
      }
      if text.Some? {
        sink.extracted := AppendTextChunk(sink.extracted, text.value);
      }
    case TurnEnd(_) =>
      sink.completedTurns := WrapAdd32(sink.completedTurns, 1);
    case ToolStart(id, name, arguments) =>
      sink.calls := sink.calls + [OnToolCall(name, id, arguments)];
    case ToolComplete(id, success, _, _) =>
      if success {
        sink.calls := sink.calls + [OnToolResult(id, OutputText(e).GetOr(""))];
      } else {
        sink.calls := sink.calls + [OnError(FailureText(e))];
      }
    case Result(exitCode, _, _) =>
      var result := SessionSummary(e, sink.completedTurns);
      if result.isError {
        sink.calls := sink.calls + [OnError("Session ended with exit code " + Digits.PrintInt(exitCode.GetOr(0)))];
      }
      sink.calls := sink.calls + [OnComplete(result)];
      summary := Some(result);
    case _ =>
  }

  // ---- Batch extraction ----------------------------------------------------------------------

  function LineText(json: string -> Option<Value>, line: string): string {
    match ParseLine(json, line)
    case None => ""
    case Some(e) => EventText(e)
  }

  function LinesText(json: string -> Option<Value>, lines: seq<string>): string {
    if lines == [] then "" else LinesText(json, lines[..|lines| - 1]) + LineText(json, lines[|lines| - 1])
  }

  // The text of the full message on a line, if there is one.
  function MessageText(json: string -> Option<Value>, line: string): Option<string> {
    match ParseLine(json, line)
    case Some(Message(_, content)) => ContentText(content)
    case _ => None
  }

  method ExtractText(json: string -> Option<Value>, line: string) returns (text: Option<string>)
    ensures text == MessageText(json, line)
    ensures LineText(json, line) == if text.Some? then Chunk(text.value) else ""
  {
    match ParseLine(json, line)
    case Some(Message(_, content)) => text := ExtractContentText(content);
    case _ => text := None;
  }

  method ExtractAllText(json: string -> Option<Value>, raw: string) returns (extracted: string)
    ensures extracted == LinesText(json, Lines(raw))
  {
    extracted := "";
    var lines := Lines(raw);
    for i := 0 to |lines|
      invariant extracted == LinesText(json, lines[..i])
    {
      assert lines[..i + 1][..i] == lines[..i];
      var text := ExtractText(json, lines[i]);
      if text.Some? {
        extracted := AppendTextChunk(extracted, text.value);
      }
    }
    assert lines[..|lines|] == lines;
  }

  // ---- What a whole event sequence produces ---------------------------------------------------

  function Fold(p: Progress, es: seq<Event>): Progress {
    if es == [] then p else Step(Fold(p, es[..|es| - 1]), es[|es| - 1])
  }

  // Some delta before position `i` carried this message id.
  predicate StreamedBefore(es: seq<Event>, i: nat, id: string)
    requires i <= |es|
  {
    exists j :: 0 <= j < i && es[j].MessageDelta? && es[j].messageId == Some(id)
  }

  function TurnsBefore(es: seq<Event>, i: nat): nat
    requires i <= |es|
  {
    if i == 0 then 0 else TurnsBefore(es, i - 1) + if es[i - 1].TurnEnd? then 1 else 0
  }

  lemma {:induction false} TurnsOfPrefix(es: seq<Event>, n: nat)
    requires n <= |es|
    ensures TurnsBefore(es[..n], n) == TurnsBefore(es, n)
    decreases n
  {
    if n > 0 {
      TurnsOfPrefix(es, n - 1);
      TurnsOfPrefix(es[..n], n - 1);
      assert es[..n][..n - 1] == es[..n - 1];
    }
  }

  lemma {:induction false} FoldCountsTurns(es: seq<Event>)
    ensures Fold(START, es).completedTurns == Wrap32(TurnsBefore(es, |es|))
  {
    if es != [] {
      var n := |es| - 1;
      FoldCountsTurns(es[..n]);
      TurnsOfPrefix(es, n);
      WrapCounts(TurnsBefore(es, n));
    }
  }

  lemma {:induction false} FoldRemembers(es: seq<Event>, id: string)
    ensures id in Fold(START, es).streamedIds <==> StreamedBefore(es, |es|, id)
  {
    if es != [] {
      var n := |es| - 1;
      FoldRemembers(es[..n], id);
      StreamedInPrefix(es, n, id);
      if es[n].MessageDelta? && es[n].messageId == Some(id) {
        assert StreamedBefore(es, n + 1, id);
      }
    }
  }

  lemma StreamedInPrefix(es: seq<Event>, i: nat, id: string)
    requires i <= |es|
    ensures StreamedBefore(es[..i], i, id) <==> StreamedBefore(es, i, id)
  {
    assert forall j :: 0 <= j < i ==> es[..i][j] == es[j];
  }

  /** What the handler hears at position `i`, told by the history of events alone: a full message is replaced
      by a line break exactly when an earlier delta carried its id, and a summary counts the turns that ended. */
  lemma HandlerHears(es: seq<Event>, i: nat)
    requires i < |es|
    ensures var heard := Fold(START, es[..i + 1]).calls;
            var before := Fold(START, es[..i]).calls;
            && before <= heard
            && (es[i].Message? ==>
                  heard[|before|..] ==
                  if es[i].messageId.Some? && StreamedBefore(es, i, es[i].messageId.value) then [OnText("\n")]
                  else if ContentText(es[i].content).Some? then [OnText(ContentText(es[i].content).value)] else [])
            && (es[i].MessageDelta? && es[i].delta != "" ==> heard[|before|..] == [OnText(es[i].delta)])
            && (es[i].Result? ==>
                  |heard| > 0
                  && heard[|heard| - 1] == OnComplete(SessionSummary(es[i], Wrap32(TurnsBefore(es, i)))))
  {
    assert es[..i + 1][..i] == es[..i];
    FoldCountsTurns(es[..i]);
    TurnsOfPrefix(es, i);
    if es[i].Message? && es[i].messageId.Some? {
      FoldRemembers(es[..i], es[i].messageId.value);
      StreamedInPrefix(es, i, es[i].messageId.value);
    }
  }
}
