/** What a line of Copilot output means, told by the fields of its JSON alone. */
module CopilotLaws {
  import opened Prelude
  import opened StreamTypes
  import opened Text
  import opened Json
  import opened CopilotStream
  import opened Sequences
  import PtyStream
  import Digits

  type Fields = map<string, Value>
  type Config = PtyStream.Config

  // The line of a Copilot session holds this JSON.
  predicate Holds(cfg: Config, line: string, v: Value) {
    cfg.format.Copilot? && Trim(line) != "" && cfg.json(Trim(line)) == Some(v)
  }

  // An object of this type.
  predicate IsTyped(v: Value, t: string) {
    v.Object? && "type" in v.fields && v.fields["type"] == Str(t)
  }

  // The fields under "data"; none if it is missing or no object.
  function DataFields(v: Value): Fields {
    if v.Object? && "data" in v.fields && v.fields["data"].Object? then v.fields["data"].fields else map[]
  }

  predicate IsTypedWith(v: Value, t: string, data: Fields) {
    IsTyped(v, t) && data == DataFields(v)
  }

  // The string in a field, and the value.
  function StringIn(fields: Fields, key: string): Option<string> {
    if key in fields && fields[key].Str? then Some(fields[key].s) else None
  }

  function ValueIn(fields: Fields, key: string): Value {
    if key in fields then fields[key] else Null
  }

  // A text as one or more lines: it ends in the newline it brought, or in one more.
  predicate IsLineOf(r: string, t: string) {
    if t != "" && t[|t| - 1] == '\n' then r == t else r == t + "\n"
  }

  // ---- Reading -------------------------------------------------------------------------------

  lemma Reads(cfg: Config, p: Progress, line: string, v: Value, t: string)
    requires Holds(cfg, line, v) && IsTyped(v, t)
    ensures var e := ParseKind(KindOf(t), v);
            PtyStream.LineStep(cfg, p, line) == CopilotStream.Step(p, e) && LineText(cfg.json, line) == EventText(e)
  {}

  lemma ReadsData(v: Value, t: string, data: Fields, key: string)
    requires IsTypedWith(v, t, data)
    ensures Data(v).GetStr(key) == StringIn(data, key)
    ensures Data(v).Get(key) == if key in data then Some(data[key]) else None
  {}

  lemma MessageKinds(t: string)
    ensures KindOf(t) == KMessage <==> t == "assistant.message"
  {}

  lemma DeltaKinds(t: string)
    ensures KindOf(t) == KMessageDelta <==> t == "assistant.message_delta"
  {}

  lemma TurnKinds(t: string)
    ensures KindOf(t) == KTurnEnd <==> t == "assistant.turn_end"
  {}

  lemma ToolKinds(t: string)
    ensures KindOf(t) == KToolStart <==> t == "tool.execution_start"
    ensures KindOf(t) == KToolComplete <==> t == "tool.execution_complete"
  {}

  lemma ResultKinds(t: string)
    ensures KindOf(t) == KResult <==> t == "result"
  {}

  // ---- Messages ------------------------------------------------------------------------------

  // What a full message with this text does to a session and to an extraction: the text is shown, or a line break if
  // its id was streamed before; a text is extracted as a line either way.
  ghost predicate Tells(p: Progress, q: Progress, id: Option<string>, text: Option<string>, extracted: string) {
    && (if text.Some? then IsLineOf(extracted, text.value) else extracted == "")
    && q == p.(calls := p.calls + Shown(p, id, text), extracted := p.extracted + extracted)
  }

  function Shown(p: Progress, id: Option<string>, text: Option<string>): seq<Call> {
    if id.Some? && id.value in p.streamedIds then [OnText("\n")]
    else if text.Some? then [OnText(text.value)] else []
  }

  lemma MessageTells(cfg: Config, p: Progress, line: string, v: Value, data: Fields, text: Option<string>)
    requires Holds(cfg, line, v) && IsTypedWith(v, "assistant.message", data)
    requires text == ContentText(ValueIn(data, "content"))
    ensures Tells(p, PtyStream.LineStep(cfg, p, line), StringIn(data, "messageId"), text, LineText(cfg.json, line))
    ensures MessageText(cfg.json, line) == text
  {
    Reads(cfg, p, line, v, "assistant.message");
    ReadsData(v, "assistant.message", data, "messageId");
    ReadsData(v, "assistant.message", data, "content");
    MessageKinds("assistant.message");
  }

  /** A message whose content is a string is that string. */
  lemma StringMessage(cfg: Config, p: Progress, line: string, v: Value, data: Fields, s: string)
    requires Holds(cfg, line, v) && IsTypedWith(v, "assistant.message", data)
    requires "content" in data && data["content"] == Str(s)
    ensures Tells(p, PtyStream.LineStep(cfg, p, line), StringIn(data, "messageId"), Some(s), LineText(cfg.json, line))
    ensures MessageText(cfg.json, line) == Some(s)
  {
    MessageTells(cfg, p, line, v, data, Some(s));
  }

  // What an item of an array content contributes: a string itself, an object its "text".
  function Piece(item: Value): string {
    match item
    case Str(s) => s
    case Object(fields) => StringIn(fields, "text").GetOr("")
    case _ => ""
  }

  function Pieces(items: seq<Value>): seq<string> {
    seq(|items|, i requires 0 <= i < |items| => Piece(items[i]))
  }

  // The text of an array: its pieces in order, and none if they come to nothing.
  function TextOfArray(items: seq<Value>): Option<string> {
    if Joined(Pieces(items)) == "" then None else Some(Joined(Pieces(items)))
  }

  function Joined(pieces: seq<string>): string {
    if pieces == [] then "" else pieces[0] + Joined(pieces[1..])
  }

  lemma {:induction false} JoinedSnoc(pieces: seq<string>, last: string)
    ensures Joined(pieces + [last]) == Joined(pieces) + last
  {
    if pieces == [] {
      assert [last][1..] == [];
    } else {
      assert (pieces + [last])[1..] == pieces[1..] + [last];
      JoinedSnoc(pieces[1..], last);
      Associative(pieces[0], Joined(pieces[1..]), last);
    }
  }

  lemma {:induction false} ItemsAreJoined(items: seq<Value>)
    ensures ItemsText(items) == Joined(Pieces(items))
  {
    if items != [] {
      var n := |items| - 1;
      ItemsAreJoined(items[..n]);
      JoinedSnoc(Pieces(items[..n]), Piece(items[n]));
      assert Pieces(items) == Pieces(items[..n]) + [Piece(items[n])];
    }
  }

  /** A message whose content is an array is its pieces in order, and nothing if they come to nothing. */
  lemma ArrayMessage(cfg: Config, p: Progress, line: string, v: Value, data: Fields, items: seq<Value>)
    requires Holds(cfg, line, v) && IsTypedWith(v, "assistant.message", data)
    requires "content" in data && data["content"] == Array(items)
    ensures Tells(p, PtyStream.LineStep(cfg, p, line), StringIn(data, "messageId"), TextOfArray(items),
                  LineText(cfg.json, line))
    ensures MessageText(cfg.json, line) == TextOfArray(items)
  {
    ItemsAreJoined(items);
    MessageTells(cfg, p, line, v, data, TextOfArray(items));
  }

  /** A message whose content is an object is its "text"; any other content, or none, has no text. */
  lemma OtherMessage(cfg: Config, p: Progress, line: string, v: Value, data: Fields)
    requires Holds(cfg, line, v) && IsTypedWith(v, "assistant.message", data)
    requires !ValueIn(data, "content").Str? && !ValueIn(data, "content").Array?
    ensures var c := ValueIn(data, "content");
            Tells(p, PtyStream.LineStep(cfg, p, line), StringIn(data, "messageId"),
                  if c.Object? then StringIn(c.fields, "text") else None, LineText(cfg.json, line))
            && MessageText(cfg.json, line) == if c.Object? then StringIn(c.fields, "text") else None
  {
    MessageTells(cfg, p, line, v, data, ContentText(ValueIn(data, "content")));
  }

  /** No other type of line is extracted. */
  lemma OnlyMessagesAreExtracted(cfg: Config, p: Progress, line: string, v: Value, t: string)
    requires Holds(cfg, line, v) && IsTyped(v, t) && t != "assistant.message"
    ensures LineText(cfg.json, line) == "" && MessageText(cfg.json, line) == None
    ensures PtyStream.LineStep(cfg, p, line).extracted == p.extracted
  {
    Reads(cfg, p, line, v, t);
    MessageKinds(t);
  }

  /** A line that is blank, no JSON, or JSON without a string "type" does nothing. */
  lemma UntypedIsIgnored(cfg: Config, p: Progress, line: string)
    requires cfg.format.Copilot?
    requires Trim(line) == "" || cfg.json(Trim(line)).None?
             || !cfg.json(Trim(line)).value.Object? || StringIn(cfg.json(Trim(line)).value.fields, "type").None?
    ensures LineText(cfg.json, line) == "" && PtyStream.LineStep(cfg, p, line) == p
  {}

  // ---- Deltas and turns ----------------------------------------------------------------------

  /** A delta is shown unless it is empty, and its id is remembered even then. */
  lemma DeltaShows(cfg: Config, p: Progress, line: string, v: Value, data: Fields)
    requires Holds(cfg, line, v) && IsTypedWith(v, "assistant.message_delta", data)
    ensures var delta := StringIn(data, "deltaContent").GetOr("");
            var id := StringIn(data, "messageId");
            PtyStream.LineStep(cfg, p, line) == p.(calls := p.calls + if delta == "" then [] else [OnText(delta)],
                                         streamedIds := p.streamedIds + if id.Some? then {id.value} else {})
  {
    Reads(cfg, p, line, v, "assistant.message_delta");
    ReadsData(v, "assistant.message_delta", data, "messageId");
    ReadsData(v, "assistant.message_delta", data, "deltaContent");
    DeltaKinds("assistant.message_delta");
  }

  /** The end of a turn is counted and not shown. */
  lemma TurnIsCounted(cfg: Config, p: Progress, line: string, v: Value)
    requires Holds(cfg, line, v) && IsTyped(v, "assistant.turn_end")
    ensures PtyStream.LineStep(cfg, p, line) == p.(completedTurns := (p.completedTurns + 1) % 0x1_0000_0000)
  {
    Reads(cfg, p, line, v, "assistant.turn_end");
    TurnKinds("assistant.turn_end");
  }

  // ---- Tools ---------------------------------------------------------------------------------

  /** A tool start with an id and a name is a tool call with its arguments; without them it is nothing. */
  lemma ToolStartShows(cfg: Config, p: Progress, line: string, v: Value, data: Fields)
    requires Holds(cfg, line, v) && IsTypedWith(v, "tool.execution_start", data)
    ensures var id, name := StringIn(data, "toolCallId"), StringIn(data, "toolName");
            PtyStream.LineStep(cfg, p, line) ==
            if id.Some? && name.Some? then
              p.(calls := p.calls + [OnToolCall(name.value, id.value, ValueIn(data, "arguments"))])
            else p
  {
    Reads(cfg, p, line, v, "tool.execution_start");
    ReadsData(v, "tool.execution_start", data, "toolCallId");
    ReadsData(v, "tool.execution_start", data, "toolName");
    ReadsData(v, "tool.execution_start", data, "arguments");
    ToolKinds("tool.execution_start");
  }

  // The text of a tool's result: its detailed content, else its content as for a message.
  function OutputIn(data: Fields): Option<string> {
    match ValueIn(data, "result")
    case Object(result) =>
      if StringIn(result, "detailedContent").Some? then StringIn(result, "detailedContent")
      else (match ValueIn(result, "content")
            case Str(s) => Some(s)
            case Array(items) => TextOfArray(items)
            case Object(fields) => StringIn(fields, "text")
            case _ => None)
    case _ => None
  }

  // The message of an error.
  function ErrorIn(data: Fields): Option<string> {
    match ValueIn(data, "error")
    case Object(error) => StringIn(error, "message")
    case _ => None
  }

  lemma ContentIsText(v: Value)
    ensures ContentText(v) == match v
                              case Str(s) => Some(s)
                              case Array(items) => TextOfArray(items)
                              case Object(fields) => StringIn(fields, "text")
                              case _ => None
  {
    if v.Array? {
      ItemsAreJoined(v.items);
    }
  }

  lemma ToolCompleteReads(v: Value, data: Fields, id: string)
    requires IsTypedWith(v, "tool.execution_complete", data) && StringIn(data, "toolCallId") == Some(id)
    ensures var e := ParseToolComplete(v);
            && e.ToolComplete? && e.id == id && OutputText(e) == OutputIn(data) && e.error == ErrorIn(data)
            && (e.success <==> "success" in data && data["success"] == Bool(true))
  {
    ReadsData(v, "tool.execution_complete", data, "toolCallId");
    if ValueIn(data, "result").Object? {
      ContentIsText(ValueIn(data["result"].fields, "content"));
    }
  }

  /** A completed tool shows its output if it succeeded, else its error, its output or a notice. */
  lemma ToolCompleteShows(cfg: Config, p: Progress, line: string, v: Value, data: Fields, id: string)
    requires Holds(cfg, line, v) && IsTypedWith(v, "tool.execution_complete", data)
    requires StringIn(data, "toolCallId") == Some(id)
    ensures PtyStream.LineStep(cfg, p, line) ==
            p.(calls := p.calls + [
                 if "success" in data && data["success"] == Bool(true) then OnToolResult(id, OutputIn(data).GetOr(""))
                 else if ErrorIn(data).Some? then OnError(ErrorIn(data).value)
                 else OnError(OutputIn(data).GetOr("Tool execution failed: " + id))])
  {
    Reads(cfg, p, line, v, "tool.execution_complete");
    ToolKinds("tool.execution_complete");
    ToolCompleteReads(v, data, id);
  }

  /** Without an id a completion is nothing. */
  lemma NamelessCompletionIsIgnored(cfg: Config, p: Progress, line: string, v: Value, data: Fields)
    requires Holds(cfg, line, v) && IsTypedWith(v, "tool.execution_complete", data)
    requires StringIn(data, "toolCallId").None?
    ensures PtyStream.LineStep(cfg, p, line) == p
  {
    Reads(cfg, p, line, v, "tool.execution_complete");
    ReadsData(v, "tool.execution_complete", data, "toolCallId");
    ToolKinds("tool.execution_complete");
  }

  // ---- Results -------------------------------------------------------------------------------

  // The number in a field, if it is within a range.
  function NumberIn(v: Value, key: string, low: int, high: int): Option<int> {
    if v.Object? && key in v.fields && v.fields[key].Int? && low <= v.fields[key].n <= high then Some(v.fields[key].n)
    else None
  }

  // The summary of a session, as its result line tells it.
  predicate IsSummary(v: Value, turns: Word32, r: SessionResult)
    requires v.Object?
  {
    var usage := ValueIn(v.fields, "usage");
    var session := NumberIn(usage, "sessionDurationMs", 0, U64_MAX);
    var api := NumberIn(usage, "totalApiDurationMs", 0, U64_MAX);
    && r.durationMs == (if session.Some? then session.value else api.GetOr(0))
    && r.numTurns == turns && (r.isError <==> NumberIn(v, "exitCode", -0x8000_0000, 0x7FFF_FFFF).GetOr(0) != 0)
    && r.totalCostUsd == 0.0
    && r.inputTokens == r.outputTokens == r.cacheReadTokens == r.cacheWriteTokens == 0
  }

  lemma ResultReads(v: Value, turns: Word32)
    requires v.Object?
    ensures var e := ParseKind(KResult, v);
            && IsSummary(v, turns, SessionSummary(e, turns))
            && e.exitCode == NumberIn(v, "exitCode", -0x8000_0000, 0x7FFF_FFFF)
  {}

  /** A result completes the session with its summary, behind an error that tells a non-zero exit code. */
  lemma ResultShows(cfg: Config, p: Progress, line: string, v: Value) returns (r: SessionResult)
    requires Holds(cfg, line, v) && IsTyped(v, "result")
    ensures IsSummary(v, p.completedTurns, r) && PtyStream.LineSummary(cfg, p, line) == Some(r)
    ensures var code := NumberIn(v, "exitCode", -0x8000_0000, 0x7FFF_FFFF).GetOr(0);
            PtyStream.LineStep(cfg, p, line) ==
            p.(calls := p.calls
                 + (if code == 0 then [] else [OnError("Session ended with exit code " + Digits.PrintInt(code))])
                 + [OnComplete(r)])
  {
    var e := ParseKind(KResult, v);
    r := SessionSummary(e, p.completedTurns);
    Reads(cfg, p, line, v, "result");
    ResultKinds("result");
    ResultReads(v, p.completedTurns);
    var errors := SummaryCalls(e, p.completedTurns)[..if r.isError then 1 else 0];
    Associative(p.calls, errors, [OnComplete(r)]);
  }

  // The types that show or count something.
  predicate Matters(t: string) {
    || t == "assistant.message" || t == "assistant.message_delta" || t == "assistant.turn_end"
    || t == "tool.execution_start" || t == "tool.execution_complete" || t == "result"
  }

  /** Every other type, reasoning among them, leaves the session as it was. */
  lemma OthersAreIgnored(cfg: Config, p: Progress, line: string, v: Value, t: string)
    requires Holds(cfg, line, v) && IsTyped(v, t) && !Matters(t)
    ensures PtyStream.LineStep(cfg, p, line) == p && PtyStream.LineSummary(cfg, p, line) == None
  {
    Reads(cfg, p, line, v, t);
    MessageKinds(t);
    DeltaKinds(t);
    TurnKinds(t);
    ToolKinds(t);
    ResultKinds(t);
  }
}
