/** What holds of every streamed run, whatever the chunking and the phases. */
module StreamTheorems {
  import opened Prelude
  import opened StreamTypes
  import opened Framing
  import opened Text
  import opened Utf8
  import opened PtyStream
  import Json
  import CopilotStream
  import PiStream

  /** Two runs that flush, got the same bytes in chunks that are valid one by one, and end with the same exit
      status have the same result; and, unless the output is plain text, the handler hears the same calls.
      Neither where the chunks were cut nor which of the three loops received them can be told afterwards. */
  lemma ChunkingAndPhaseDoNotMatter(
    cfg: Config, elapsedMs: Word64,
    chunksA: seq<seq<Byte>>, a: Ending, lateA: Option<Exit>, outA: Outcome,
    chunksB: seq<seq<Byte>>, b: Ending, lateB: Option<Exit>, outB: Outcome)
    requires IsFlushed(a) && IsFlushed(b) && ExitOf(a, lateA) == ExitOf(b, lateB)
    requires Flatten(chunksA) == Flatten(chunksB) && EachValid(chunksA) && EachValid(chunksB)
    requires IsOutcome(cfg, chunksA, a, lateA, elapsedMs, outA)
    requires IsOutcome(cfg, chunksB, b, lateB, elapsedMs, outB)
    ensures outA.result == outB.result
    ensures !cfg.format.PlainText? ==> outA.calls == outB.calls
  {
    ChunkedDecodingExact(chunksA);
    ChunkedDecodingExact(chunksB);
  }

  /** A flushed plain-text run tells the handler nothing but text, and all of it, however it was cut. */
  lemma PlainTextIsRelayed(cfg: Config, chunks: seq<seq<Byte>>, e: Ending, late: Option<Exit>, elapsedMs: Word64,
                           out: Outcome)
    requires cfg.format.PlainText? && IsFlushed(e) && EachValid(chunks)
    requires IsOutcome(cfg, chunks, e, late, elapsedMs, out)
    ensures OnlyText(out.calls) && Decode(Flatten(chunks)) == Some(Spoken(out.calls))
  {
    ChunkedDecodingExact(chunks);
    forall n | 0 <= n <= |out.calls| && out.calls[n..] == [] ensures out.calls[..n] == out.calls {}
  }

  // ---- Copilot: live and batch extraction -----------------------------------------------------

  lemma {:induction false} LiveExtraction(cfg: Config, lines: seq<string>)
    requires cfg.format.Copilot?
    ensures FoldLines(cfg, Begin(cfg), lines).extracted == CopilotStream.LinesText(cfg.json, lines)
  {
    if lines != [] {
      LiveExtraction(cfg, lines[..|lines| - 1]);
    }
  }

  lemma {:induction false} TrimmedLinesSuffice(json: string -> Option<Json.Value>, a: seq<string>, b: seq<string>)
    requires |a| == |b| && forall i :: 0 <= i < |a| ==> Trim(a[i]) == Trim(b[i])
    ensures CopilotStream.LinesText(json, a) == CopilotStream.LinesText(json, b)
  {
    if a != [] {
      TrimmedLinesSuffice(json, a[..|a| - 1], b[..|b| - 1]);
    }
  }

  /** A flushed Copilot run extracts exactly what batch extraction finds in the whole output,
      whatever was streamed as deltas, suppressed as a replay, or terminated by CRLF. */
  lemma CopilotLiveEqualsBatch(cfg: Config, text: string)
    requires cfg.format.Copilot?
    ensures FoldLines(cfg, Begin(cfg), Flushed(text)).extracted == CopilotStream.LinesText(cfg.json, Lines(text))
  {
    LiveExtraction(cfg, Flushed(text));
    LinesAgree(text);
    TrimmedLinesSuffice(cfg.json, Lines(text), Flushed(text));
  }

  /** So the text in the result of a flushed Copilot run is batch extraction from the delivered output; if every chunk
      is valid alone, from the decoding of all bytes. */
  lemma CopilotResultIsBatch(cfg: Config, chunks: seq<seq<Byte>>, e: Ending, late: Option<Exit>, elapsedMs: Word64,
                             out: Outcome)
    requires cfg.format.Copilot? && IsFlushed(e) && IsOutcome(cfg, chunks, e, late, elapsedMs, out)
    ensures out.result.extracted == CopilotStream.LinesText(cfg.json, Lines(Delivered(chunks)))
    ensures EachValid(chunks) ==>
              Decode(Flatten(chunks)).Some?
              && out.result.extracted == CopilotStream.LinesText(cfg.json, Lines(Decode(Flatten(chunks)).value))
  {
    CopilotLiveEqualsBatch(cfg, Delivered(chunks));
    ChunkedDecodingExact(chunks);
  }

  // ---- From lines to events -------------------------------------------------------------------

  function CopilotEvents(cfg: Config, lines: seq<string>): seq<CopilotStream.Event> {
    if lines == [] then []
    else
      var front := CopilotEvents(cfg, lines[..|lines| - 1]);
      match CopilotStream.ParseLine(cfg.json, lines[|lines| - 1])
      case None => front
      case Some(e) => front + [e]
  }

  /** The line fold is the event fold, so what `CopilotStream.HandlerHears` says of events holds of the stream. */
  lemma {:induction false} CopilotLinesAreEvents(cfg: Config, lines: seq<string>)
    requires cfg.format.Copilot?
    ensures FoldLines(cfg, Begin(cfg), lines) == CopilotStream.Fold(START, CopilotEvents(cfg, lines))
  {
    if lines != [] {
      var front := CopilotEvents(cfg, lines[..|lines| - 1]);
      CopilotLinesAreEvents(cfg, lines[..|lines| - 1]);
      var parsed := CopilotStream.ParseLine(cfg.json, lines[|lines| - 1]);
      if parsed.Some? {
        assert (front + [parsed.value])[..|front|] == front;
      }
    }
  }

  function PiEvents(cfg: Config, lines: seq<string>): seq<PiStream.Event> {
    if lines == [] then []
    else
      var front := PiEvents(cfg, lines[..|lines| - 1]);
      match ParseTrimmed(cfg.pi, lines[|lines| - 1])
      case None => front
      case Some(e) => front + [e]
  }

  lemma {:induction false} PiLinesAreEvents(cfg: Config, lines: seq<string>)
    requires cfg.format.Pi?
    ensures FoldLines(cfg, Begin(cfg), lines) == PiStream.Fold(Begin(cfg), PiEvents(cfg, lines), cfg.showThinking)
  {
    if lines != [] {
      var front := PiEvents(cfg, lines[..|lines| - 1]);
      PiLinesAreEvents(cfg, lines[..|lines| - 1]);
      var parsed := ParseTrimmed(cfg.pi, lines[|lines| - 1]);
      if parsed.Some? {
        assert (front + [parsed.value])[..|front|] == front;
      }
    }
  }

  /** A flushed Pi run bills the sum of all reported usage, modulo the counter width. */
  lemma PiBillsReportedUsage(cfg: Config, chunks: seq<seq<Byte>>, e: Ending, late: Option<Exit>, elapsedMs: Word64,
                             out: Outcome)
    requires cfg.format.Pi? && IsFlushed(e) && IsOutcome(cfg, chunks, e, late, elapsedMs, out)
    ensures var sums := PiStream.Total(PiEvents(cfg, Flushed(Delivered(chunks))));
            && out.result.inputTokens == Wrap64(sums.input)
            && out.result.outputTokens == Wrap64(sums.output)
            && out.result.cacheReadTokens == Wrap64(sums.cacheRead)
            && out.result.cacheWriteTokens == Wrap64(sums.cacheWrite)
  {
    var lines := Flushed(Delivered(chunks));
    PiLinesAreEvents(cfg, lines);
    PiStream.TotalsAreSums(Begin(cfg), PiEvents(cfg, lines), cfg.showThinking);
  }
}
