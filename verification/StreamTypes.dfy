/** What a streamed session accumulates, whichever backend speaks. */
module StreamTypes {
  import opened Prelude
  import opened Text
  import Json

  datatype SessionResult = SessionResult(
    durationMs: Word64, totalCostUsd: real, numTurns: Word32, isError: bool,
    inputTokens: Word64, outputTokens: Word64, cacheReadTokens: Word64, cacheWriteTokens: Word64)

  // A line of NDJSON, trimmed; `parse` stands for the JSON library, which sees nothing of an empty line.
  function ParseTrimmed<E>(parse: string -> Option<E>, line: string): Option<E> {
    var trimmed := Trim(line);
    if trimmed == "" then None else parse(trimmed)
  }

  // A result whose token counts are defaulted to zero.
  function PlainResult(durationMs: Word64, cost: real, turns: Word32, isError: bool): SessionResult {
    SessionResult(durationMs, cost, turns, isError, 0, 0, 0, 0)
  }

  // The calls a `StreamHandler` receives.
  datatype Call =
    | OnText(text: string)
    | OnToolCall(name: string, id: string, input: Json.Value)
    | OnToolResult(id: string, output: string)
    | OnError(message: string)
    | OnComplete(result: SessionResult)

  predicate OnlyText(calls: seq<Call>) {
    forall i :: 0 <= i < |calls| ==> calls[i].OnText?
  }

  // The text of a call, and of all calls in order.
  function TextOf(call: Call): string {
    match call
    case OnText(t) => t
    case _ => []
  }

  function Spoken(calls: seq<Call>): string {
    if calls == [] then [] else Spoken(calls[..|calls| - 1]) + TextOf(calls[|calls| - 1])
  }

  datatype PiTotals = PiTotals(
    cost: real, turns: Word32, provider: Option<string>, model: Option<string>,
    input: Word64, output: Word64, cacheRead: Word64, cacheWrite: Word64)

  datatype Progress = Progress(
    calls: seq<Call>, extracted: string,
    streamedIds: set<string>, completedTurns: Word32,
    pi: PiTotals)

  const NO_PI := PiTotals(0.0, 0, None, None, 0, 0, 0, 0)
  const START := Progress([], "", {}, 0, NO_PI)

  // The mutable state the dispatchers share: the handler, the extracted text and the per-backend counters.
  class Sink {
    var calls: seq<Call>
    var extracted: string
    var streamedIds: set<string>
    var completedTurns: Word32
    var pi: PiTotals

    constructor ()
      ensures Now() == START
    {
      calls, extracted, streamedIds, completedTurns, pi := [], "", {}, 0, NO_PI;
    }

    function Now(): Progress
      reads this
    {
      Progress(calls, extracted, streamedIds, completedTurns, pi)
    }
  }
}
