# Ralph, verified

A Dafny model of the parts of Ralph that carry its promises: the streaming of agent output, the idempotent RPC
service, the task queue and its scheduler, the delivery of live events, the terminal view, the command-line executor,
and three pieces of algebra (time stamps, configuration overlays, Codex arguments). What the program changes in place is
a class or a loop here, proved against a function of the old state; what the program is for is proved about those
functions, over every input and every run. `dafny verify dfyconfig.toml` checks everything.

## How it is organised

- Foundations: `Prelude` (options, results, machine words), `Sequences`, `Text` (byte-wise string order, trimming),
  `Digits` (Rust's number formatting), `Utf8` (section 3 of RFC 3629), `Json`.
- Streaming: `Framing` (the carried line buffer), `StreamTypes`, `ClaudeStream`, `CopilotStream`, `PiStream` (one
  dispatcher each), `PtyStream` (the observe loop with its three receive loops, both flushes and the result),
  `StreamTheorems` (what holds of every run), `CopilotLaws` (which JSON is a message, a tool, a result), `SessionLaws`
  (what Claude's and Pi's events do), `OutcomeLaws` (what a run reports).
- The terminal view: `TuiText` (sanitising), `TuiHandler` (the handler), `TuiTheorems` (its lines are the event log
  rendered from scratch, for any division of the stream), `TuiLaws` (what those lines say).
- The executor: `CliExecutor`, `CliLaws` (what each line does to it).
- RPC: `Protocol` (codes, envelopes, replay), `Idempotency` (the expiring store), `RpcInterleaving` (check, dispatch and
  store as separate steps of concurrent requests), `RpcRuntime` (one request from check to answer), `ProtocolLaws` (what
  goes over the wire).
- Tasks: `QueueIds`, `TaskRecords` (records, ordered map, stable sort), `TaskDomain` (all operations), `TaskTheorems`
  (what every history keeps), `TaskQueueIds` (which ids are issued, and when two can meet), `TaskRestarts` (the same across
  restarts), `TaskScheduler` (what rounds of running and closing achieve), `TaskLaws` (each operation field by field).
- Events: `SubscriptionParams` (topics and filters), `Subscriptions` (cursors, history, checkpoints), `LiveEvents`
  (`stream.next`), `StreamDelivery` (a consumer that acknowledges what it gets), `SubscriptionLaws` (whose events a
  client gets, told by the JSON it sent).
- Algebra: `CivilTime`, `YamlMerge`, `CodexArgs`.

The modules named `...Laws` tell each result by the fields and literals of the inputs and not by the functions in
between: they fix what the other theorems speak about.

The clock, the disk, the JSON library, what `dispatch` answers, the arrival of chunks and lines and everything other
requests do are parameters: the theorems hold for every choice of them. A method that receives a script of arrivals
stands for the loop that waits for them.

## What was found

- **Chunking.** Framing, dispatch and the result do not depend on where chunks are cut or which loop receives them, if
  every chunk is valid UTF-8 by itself. That condition is exact for the delivered text: it is the decoding of the whole
  stream if and only if every chunk is valid (`Utf8.ChunkedDecodingExact`). The timed drain discards
  Copilot completion summaries and the other loops keep them; the result is the same, because it reads only cost and
  tokens and those are zero for Copilot.
- **Idempotency.** Plain exactly-once is false (`RpcInterleaving.OverlappingDuplicatesBothDispatch`). The exact rule is
  `RpcInterleaving.ChecksGoAheadExactly`: a request goes ahead if and only if no answer for its pair was kept within the
  TTL before its check; so two dispatches of one pair closer than the TTL belong to overlapping requests. Keys are
  ambiguous for some method names and not for those that exist (`Idempotency.KeysMeetExactly`). An HTTP retry is
  answered with the first request's id.
- **Tasks.** A refused call leaves the tasks alone with exactly one exception, `retry` on an archived failed task. Within
  one process, queue ids from whatever operation are distinct until the counter saturates, and after that where the clock
  readings differ. Across restarts that holds for ids that were saved; an unsaved id can come back
  (`TaskRestarts.UnsavedIdComesBack`). A full set of rounds closes every open task exactly when the blockers can be
  ranked.
- **Events.** A consumer that acknowledges the last event of each batch gets nothing twice and nothing out of order. It
  loses exactly the events evicted from the history or dropped for the replay limit in front of a batch, and nothing if
  all it will ever be told stays in the history and within the limit, even when its live receiver lags. So the drop
  count reported for a lag is not a count of lost events: the next call replays them. An acknowledgement that falls
  between the two looks at the cursor brings the acknowledged event back once.
- **Overlays.** `merge_yaml_values` is not associative; `YamlMerge.MergeAssociativeExactly` says when it is.
- **Time stamps.** The source calls its date arithmetic approximate. It is exact.
- **Sanitising.** Cleaning text chunk by chunk differs from cleaning it whole exactly when a CRLF is cut; the view
  cleans whole buffers. Tool results and errors always stay on one line. Tool calls do not: their summary is cleaned and
  their name is not, so a call stays on its line exactly if the name does (`TuiLaws.ToolCallsAreSingleExactly`).

## Model

| member | source | states |
|---|---|---|
| Utf8.DecodeEncode | crates/ralph-adapters/src/pty_executor.rs:771 | Decoding undoes encoding for every text, so "valid UTF-8" means "some text's encoding". |
| Utf8.EncodeDecode | crates/ralph-adapters/src/pty_executor.rs:771 | Bytes that decode are the encoding of the decoded text: decoding accepts no overlong or surrogate form. |
| Utf8.DeliveredAppend | crates/ralph-adapters/src/pty_executor.rs:765-775 | One more chunk adds its text if it is valid alone and nothing otherwise. |
| Utf8.ChunkedDecodingExact | crates/ralph-adapters/src/pty_executor.rs:771 | Decoding chunk by chunk gives the text of the whole stream if and only if each chunk is valid alone. |
| Utf8.SplitCharacterIsLost | crates/ralph-adapters/src/pty_executor.rs:771 | A two-byte character cut between chunks is lost on both sides. |
| Framing.SplitExact | crates/ralph-adapters/src/pty_executor.rs:777-779 | The framing is the one and only way to write a text as newline-free lines and an unterminated rest. |
| Framing.SplitConcat | crates/ralph-adapters/src/pty_executor.rs:774-779 | Framing is incremental: of what came before, only the carried rest matters. |
| Framing.LinesAgree | crates/ralph-adapters/src/copilot_stream.rs:315-327 | `str::lines` and the framing loop give equally many lines, the same up to trimming, for LF and CRLF. |
| ClaudeStream.EmitBlocks | crates/ralph-adapters/src/pty_executor.rs:1891-1907 | Each block of an assistant message makes one call in order; each text block is also appended to the text with a newline. |
| ClaudeStream.EmitResults | crates/ralph-adapters/src/pty_executor.rs:1908-1919 | Each tool result of a user message makes one call, in order. |
| ClaudeStream.Dispatch | crates/ralph-adapters/src/pty_executor.rs:1882-1937 | An event changes the session as the specification says and touches no other counter; a result reports an error first. |
| CopilotStream.ExtractContentText | crates/ralph-adapters/src/copilot_stream.rs:522-553 | Text of a message: a string as it is, an array's parts joined unless that is empty, an object's `text`. |
| CopilotStream.AppendTextChunk | crates/ralph-adapters/src/copilot_stream.rs:329-334 | The output gains the chunk and always ends in exactly the newline it brought or one more. |
| CopilotStream.Dispatch | crates/ralph-adapters/src/copilot_stream.rs:337-412 | Calls, extracted text, remembered ids and turn count after each event, and the summary of a result event. |
| CopilotStream.ExtractText | crates/ralph-adapters/src/copilot_stream.rs:250-268 | A line yields exactly the text of the full message it holds, else nothing; what it adds to the extraction is that text, newline-terminated. |
| CopilotStream.ExtractAllText | crates/ralph-adapters/src/copilot_stream.rs:315-327 | Batch extraction is the concatenation of what the lines yield. |
| CopilotStream.FoldCountsTurns | crates/ralph-adapters/src/copilot_stream.rs:366-370 | The turn counter is the number of ended turns, modulo its width. |
| CopilotStream.FoldRemembers | crates/ralph-adapters/src/copilot_stream.rs:342-352 | An id is remembered if and only if some earlier delta carried it. |
| CopilotStream.HandlerHears | crates/ralph-adapters/src/copilot_stream.rs:337-412 | In any event sequence a full message reaches the handler if and only if no earlier delta carried its id (else a line break does), non-empty deltas always do, and a summary counts the turns so far. |
| CopilotLaws.StringMessage | crates/ralph-adapters/src/copilot_stream.rs:198-201 | A line whose JSON has type "assistant.message" and string content is shown and extracted as that string, newline-terminated; if its id was streamed before, a line break is shown instead. |
| CopilotLaws.ArrayMessage | crates/ralph-adapters/src/copilot_stream.rs:522-546 | The same for array content, read as its strings and the "text" of its objects, in order; no text if they come to nothing. |
| CopilotLaws.OtherMessage | crates/ralph-adapters/src/copilot_stream.rs:547-553 | An object is read as its "text"; other content, or none, has no text. |
| CopilotLaws.OnlyMessagesAreExtracted | crates/ralph-adapters/src/copilot_stream.rs:250-264 | A line of any other type, reasoning among them, extracts nothing, live and in batch. |
| CopilotLaws.UntypedIsIgnored | crates/ralph-adapters/src/copilot_stream.rs:180-196 | A blank line, a line that is no JSON and JSON without a string "type" do nothing. |
| CopilotLaws.DeltaShows | crates/ralph-adapters/src/copilot_stream.rs:344-353 | A delta shows its "deltaContent" unless that is empty, extracts nothing, and its id is remembered either way. |
| CopilotLaws.TurnIsCounted | crates/ralph-adapters/src/copilot_stream.rs:373-376 | The end of a turn adds one to the counter, modulo its width, and does nothing else. |
| CopilotLaws.ToolStartShows | crates/ralph-adapters/src/copilot_stream.rs:442-450 | A tool start calls the handler with the name, the id and the "arguments" (null if missing), and does nothing without a string id and name. |
| CopilotLaws.ToolCompleteShows | crates/ralph-adapters/src/copilot_stream.rs:381-392 | A tool completion shows its output if "success" is true; otherwise the error message, else the output, else a notice with the id. |
| CopilotLaws.NamelessCompletionIsIgnored | crates/ralph-adapters/src/copilot_stream.rs:459-466 | A completion without a string id does nothing. |
| CopilotLaws.ResultShows | crates/ralph-adapters/src/copilot_stream.rs:393-410 | A result completes the session with the session duration, else the API duration, the turns so far and no cost, behind an error that tells a non-zero exit code. |
| CopilotLaws.OthersAreIgnored | crates/ralph-adapters/src/copilot_stream.rs:368-372 | Every type that is not named here leaves the session as it was. |
| PiStream.Dispatch | crates/ralph-adapters/src/pi_stream.rs:189-269 | Calls, extracted text and session totals after each event. |
| SessionLaws.ClaudeSays | crates/ralph-adapters/src/pty_executor.rs:1891-1905 | An assistant message makes one call per block, text or tool call, in order; what is extracted is the shown texts, a newline behind each. |
| SessionLaws.ClaudeHears | crates/ralph-adapters/src/pty_executor.rs:1906-1917 | A user message makes one call per tool result, with its id and content, in order, and extracts nothing. |
| SessionLaws.ClaudeEnds | crates/ralph-adapters/src/pty_executor.rs:1918-1934 | A result completes the session with its duration, cost, turns and error flag, behind an error exactly if it has the flag. |
| SessionLaws.PiSays | crates/ralph-adapters/src/pi_stream.rs:197-213 | Text deltas are shown and extracted; thinking is shown only if asked for and never extracted; errors are shown. |
| SessionLaws.PiTools | crates/ralph-adapters/src/pi_stream.rs:214-241 | A tool end is one call, an error or a result under its id, that says its text blocks with a newline between any two. |
| SessionLaws.PiTurns | crates/ralph-adapters/src/pi_stream.rs:242-265 | The end of a turn counts, adds each kind of token and the cost to its own total, and remembers provider and model unless empty. |
| PiStream.TotalsAreSums | crates/ralph-adapters/src/pi_stream.rs:243-264 | After any events each total is the unbounded sum of the reported usage, modulo the counter's width. |
| PiStream.ProviderIsLastReported | crates/ralph-adapters/src/pi_stream.rs:243-264 | The provider shown is the last non-empty one that a turn reported, whatever else happened since. |
| PtyStream.Session.HandleLine | crates/ralph-adapters/src/pty_executor.rs:780-835 | One framed line acts on the session as its format's event does, or not at all if it does not parse. |
| PtyStream.Session.TakeLine | crates/ralph-adapters/src/pty_executor.rs:1029-1040 | Whichever loop takes the line, the remembered completion still fits the lines seen. |
| PtyStream.Session.Feed | crates/ralph-adapters/src/pty_executor.rs:774-839 | The framing loop dispatches exactly the complete lines of rest plus text, in order, and carries the new rest. |
| PtyStream.Session.Accept | crates/ralph-adapters/src/pty_executor.rs:771-842 | A session consistent with the text so far stays consistent with that text plus the chunk's. |
| PtyStream.Session.Receive | crates/ralph-adapters/src/pty_executor.rs:765-842 | Raw output keeps all bytes; an undecodable chunk changes nothing else. |
| PtyStream.Session.Flush | crates/ralph-adapters/src/pty_executor.rs:844-883 | The flush handles a non-empty rest as one more line, and with it the session is the fold over the whole text's lines. |
| PtyStream.Session.TakeTick | crates/ralph-adapters/src/pty_executor.rs:700-910 | One turn of the select loop receives what it was woken for; an ending wake outranks the child's exit. |
| PtyStream.Session.RunLive | crates/ralph-adapters/src/pty_executor.rs:679-910 | The live loop receives the chunks up to the first ending and stops with that ending. |
| PtyStream.Session.DrainQueued | crates/ralph-adapters/src/pty_executor.rs:919-985 | The queued drain receives all data and skips end and error markers. |
| PtyStream.Session.DrainTimed | crates/ralph-adapters/src/pty_executor.rs:987-1069 | The timed drain receives data up to the first event that is none. |
| PtyStream.Session.Conclude | crates/ralph-adapters/src/pty_executor.rs:1114-1140 | The last calls of a run: an error if the reader failed, the banner of the real Pi binary, Pi's summary. |
| PtyStream.Session.Finish | crates/ralph-adapters/src/pty_executor.rs:1071-1225 | Calls and result of a finished run are told by the delivered text, the ending and the exit alone. |
| PtyStream.Session.Collect | crates/ralph-adapters/src/pty_executor.rs:679-1070 | The live loop and, after an exit, both drains receive the chunks in order. |
| PtyStream.Session.Run | crates/ralph-adapters/src/pty_executor.rs:619-1225 | A whole run ends with the outcome that the delivered text determines. |
| OutcomeLaws.ReportsTheExit | crates/ralph-adapters/src/pty_executor.rs:1946-1980 | Of every outcome: success if and only if the child was seen to exit successfully; the code that was seen, or none; interrupted exactly for code 130 or an interrupt; timed out exactly for an idle timeout otherwise; all raw bytes kept. |
| OutcomeLaws.ClaudeBills | crates/ralph-adapters/src/pty_executor.rs:1954-1965 | A Claude run costs what the last result among the delivered lines says, and nothing without one. |
| OutcomeLaws.OthersAreFree | crates/ralph-adapters/src/pty_executor.rs:1954-1965 | Copilot and plain text cost nothing. |
| OutcomeLaws.EndsWith | crates/ralph-adapters/src/pty_executor.rs:1114-1140 | Behind its lines' calls a run tells the reader's error, the real Pi's provider and model and Pi's summary, which fails exactly unless the exit was successful and by which Pi is billed; the result's text is that of the lines. |
| OutcomeLaws.StartsWith | crates/ralph-adapters/src/pty_executor.rs:619-680 | A session starts with no text, no turns and no calls, except that the real Pi is announced. |
| OutcomeLaws.PlainEndsWith | crates/ralph-adapters/src/pty_executor.rs:836-842 | Plain text extracts nothing; its calls are its text and, behind it, the reader's error if there was one. |
| OutcomeLaws.CostsAdd | crates/ralph-adapters/src/pi_stream.rs:255-258 | The cost of a Pi session is the sum of the costs its turns report. |
| OutcomeLaws.LiveRunsTo | crates/ralph-adapters/src/pty_executor.rs:700-910 | The live loop receives the data up to and including the first turn that ends it, and stops for what woke that turn before it stops for the exit. |
| OutcomeLaws.DrainsTake | crates/ralph-adapters/src/pty_executor.rs:919-1069 | After an exit, and only then, all queued data is received and then data until anything else comes. |
| OutcomeLaws.LinesReach | crates/ralph-adapters/src/pty_executor.rs:780-835 | A trimmed line that is not blank and parses acts as its format's event; any other does nothing. |
| StreamTheorems.ChunkingAndPhaseDoNotMatter | crates/ralph-adapters/src/pty_executor.rs:765-1112 | Two flushed runs over the same bytes in valid chunks give the same result and the same handler calls, wherever chunks were cut and whichever loop received them. |
| StreamTheorems.PlainTextIsRelayed | crates/ralph-adapters/src/pty_executor.rs:836-842 | For plain text the handler is told nothing but text, and all of it. |
| StreamTheorems.CopilotLiveEqualsBatch | crates/ralph-adapters/src/copilot_stream.rs:315-412 | The live fold extracts what batch extraction finds in the whole output, whatever was streamed or suppressed, for LF and CRLF. |
| StreamTheorems.CopilotResultIsBatch | crates/ralph-adapters/src/pty_executor.rs:619-1225 | The text in the result of a flushed Copilot run is batch extraction from the delivered output, and from the decoding of all bytes if every chunk is valid. |
| StreamTheorems.CopilotLinesAreEvents | crates/ralph-adapters/src/pty_executor.rs:1760-1768 | The fold over lines is the fold over the events that parse, so statements on events hold of streams. |
| StreamTheorems.PiLinesAreEvents | crates/ralph-adapters/src/pty_executor.rs:818-835 | The same for Pi. |
| StreamTheorems.PiBillsReportedUsage | crates/ralph-adapters/src/pty_executor.rs:1114-1225 | The result of a flushed Pi run bills exactly the usage reported in the delivered text. |
| TuiText.SanitizeIsClean | crates/ralph-adapters/src/stream_handler.rs:43-65 | The staged sanitiser with its early exits is a one-pass cleaning on every text. |
| TuiText.SanitizeBlockIsSafe | crates/ralph-adapters/src/stream_handler.rs:33-65 | No carriage return and no dropped control survives, and sanitising again changes nothing. |
| TuiText.SanitizePiecewiseExactly | crates/ralph-adapters/src/stream_handler.rs:43-65 | Sanitising two pieces apart equals sanitising them joined if and only if no CRLF is cut. |
| TuiText.InlineIsOneLine | crates/ralph-adapters/src/stream_handler.rs:69-76 | Inline text is one line; truncated, it keeps the prefix of the given length and an ellipsis. |
| TuiHandler.TuiStreamHandler.FreezeCurrentText | crates/ralph-adapters/src/stream_handler.rs:452-458 | A non-empty buffer becomes a block, an empty one does not. |
| TuiHandler.TuiStreamHandler.UpdateLines | crates/ralph-adapters/src/stream_handler.rs:465-490 | The lines become the rendering of all blocks and then of the buffer. |
| TuiHandler.TuiStreamHandler.AddNonTextLine | crates/ralph-adapters/src/stream_handler.rs:495-499 | Text before the line is frozen before it. |
| TuiHandler.TuiStreamHandler.OnTextPiece | crates/ralph-adapters/src/stream_handler.rs:503-510 | Text extends the buffer and is shown at once. |
| TuiHandler.TuiStreamHandler.OnToolCallNamed | crates/ralph-adapters/src/stream_handler.rs:512-528 | A tool call adds one line, with its summary if there is one. |
| TuiHandler.TuiStreamHandler.OnToolOutput | crates/ralph-adapters/src/stream_handler.rs:530-545 | An empty display leaves the view untouched; any other adds one line. |
| TuiHandler.TuiStreamHandler.OnFailure | crates/ralph-adapters/src/stream_handler.rs:547-557 | An error adds one line. |
| TuiHandler.TuiStreamHandler.OnCompletion | crates/ralph-adapters/src/stream_handler.rs:559-579 | A completion adds a blank line and a summary. |
| TuiHandler.TuiStreamHandler.HandleAll | crates/ralph-adapters/src/stream_handler.rs:502-579 | A sequence of callbacks leaves the view the state machine predicts. |
| TuiTheorems.ViewIsTheDocument | crates/ralph-adapters/src/stream_handler.rs:448-579 | After any callbacks the lines equal the log rendered from scratch: adjacent text as one, empty tool results dropped. |
| TuiTheorems.NothingIsLost | crates/ralph-adapters/src/stream_handler.rs:452-499 | No text block is empty, no two are adjacent, blocks and buffer spell all text received, fixed lines keep their order. |
| TuiTheorems.DivisionOfTextDoesNotMatter | crates/ralph-adapters/src/stream_handler.rs:503-510 | Text in two callbacks leaves blocks, buffer and lines as one callback would, whatever follows. |
| TuiTheorems.ScreenDoesNotDependOnChunking | crates/ralph-adapters/src/pty_executor.rs:765-1112 | For every output format, two flushed runs over the same bytes show the same lines on a fresh view. |
| TuiLaws.ShowsTheCleaned | crates/ralph-adapters/src/stream_handler.rs:328-376 | A text is shown as what it cleans to. |
| TuiLaws.ParsesTheRendered | crates/ralph-adapters/src/stream_handler.rs:341-375 | What cleans to nothing shows nothing. Text with an escape sequence bypasses Markdown, all other goes through it; where the ANSI parser declines, one unstyled span a line spells the cleaned text. |
| TuiLaws.PlainIsSafe | crates/ralph-adapters/src/stream_handler.rs:370-375 | No line of plainly shown text holds a carriage return, bell, backspace, vertical tab or form feed. |
| TuiLaws.CleanDrops | crates/ralph-adapters/src/stream_handler.rs:43-65 | Cleaning leaves no carriage return and none of the four controls; without carriage returns it drops exactly those four. |
| TuiLaws.BreaksAreNewlines | crates/ralph-adapters/src/stream_handler.rs:53-55 | A carriage return, with or without a newline behind it, becomes one newline. |
| TuiLaws.ToolCallAdds | crates/ralph-adapters/src/stream_handler.rs:512-528 | A tool call freezes the text so far and adds one line: the name and, if there is one, the inline summary. |
| TuiLaws.ResultsAndErrorsAdd | crates/ralph-adapters/src/stream_handler.rs:530-557 | A tool result adds one line with at most 200 characters of its display and an ellipsis, nothing if it has none; an error adds its message. |
| TuiLaws.CompletionAdds | crates/ralph-adapters/src/stream_handler.rs:559-578 | A completion adds an empty line and the summary, red exactly for an error. |
| TuiLaws.ResultsAreSingle | crates/ralph-adapters/src/stream_handler.rs:530-545 | Tool results are free of line breaks and controls. |
| TuiLaws.ErrorsAreSingle | crates/ralph-adapters/src/stream_handler.rs:547-557 | So are errors. |
| TuiLaws.ToolCallsAreSingleExactly | crates/ralph-adapters/src/stream_handler.rs:512-528 | A tool call's line is free of them if and only if the tool's name is, which the source does not clean. |
| TuiLaws.TextWaits | crates/ralph-adapters/src/stream_handler.rs:503-510 | Text is appended to the text so far and freezes nothing. |
| TuiLaws.TextIsShown | crates/ralph-adapters/src/stream_handler.rs:328-376 | A view without blocks shows its text. |
| TuiLaws.TextIsShownBehind | crates/ralph-adapters/src/stream_handler.rs:328-376 | Text behind blocks is shown behind their lines, which stay. |
| TuiLaws.LineIsShown | crates/ralph-adapters/src/stream_handler.rs:328-376 | An added line is shown behind all that was shown, which stays. |
| CliExecutor.Show | crates/ralph-adapters/src/cli_executor.rs:178-186 | A line of standard output is shown as it is, or for Copilot as the text it holds, newline-terminated. |
| CliExecutor.Handle | crates/ralph-adapters/src/cli_executor.rs:170-215 | What an emission adds to the kept and the shown text, and which stream it ends. |
| CliExecutor.Execute | crates/ralph-adapters/src/cli_executor.rs:156-226 | The loop ends in the state the specification of the run predicts. |
| CliExecutor.ExpiryIsTheEarlier | crates/ralph-adapters/src/cli_executor.rs:156-165 | Every wait ends by the earlier of `now + timeout` and the deadline, at once after the deadline, and is unbounded without both. |
| CliExecutor.RunsAre | crates/ralph-adapters/src/cli_executor.rs:156-226 | A run keeps exactly the lines it received, in order, those of standard error marked, and ends for one of three reasons. |
| CliExecutor.DeadlineIsFixed | crates/ralph-adapters/src/cli_executor.rs:171-176 | The deadline is five seconds behind the receipt of the first marker line and never moves; without one there is none. |
| CliExecutor.ExecutionIsBounded | crates/ralph-adapters/src/cli_executor.rs:156-226 | Each line came within its wait; a timeout means silence to the very end of the last wait. |
| CliExecutor.CopilotDisplayIsExtraction | crates/ralph-adapters/src/cli_executor.rs:178-186 | The quiet Copilot display is what batch extraction finds in the lines of standard output. |
| CliLaws.StdoutIsKept | crates/ralph-adapters/src/cli_executor.rs:185-204 | A line of standard output is kept and, except for Copilot, shown with a newline; if "Event emitted:" stands anywhere in it the deadline is five seconds off, unless there is one. |
| CliLaws.StderrIsMarked | crates/ralph-adapters/src/cli_executor.rs:205-218 | A line of standard error is kept with the mark "[stderr] " and shown with it exactly if asked for; it sets the deadline likewise. |
| CliLaws.EndsAreNoted | crates/ralph-adapters/src/cli_executor.rs:219-220 | The end of a stream ends that stream only; the loop is done when both have ended. |
| CliLaws.ClosingEnds | crates/ralph-adapters/src/cli_executor.rs:221-224 | A channel that closes in time ends both streams and leaves what was kept and shown. |
| Protocol.CodeRoundTrip | crates/ralph-api/src/errors.rs:29-76 | A string is read as a code if and only if it is that code's printed form. |
| Protocol.ReplayIsFaithful | crates/ralph-api/src/runtime.rs:352-416 | Whatever dispatch answered, the replay answers the same: value, or code, message, retryability, details and status. |
| Protocol.HttpReplayIsFaithful | crates/ralph-api/src/runtime.rs:175-178 | Over HTTP a retry gets the status and body of a fresh answer except for time stamp and id; the id is the first request's, so the retry finds its own if and only if the ids are equal. |
| Protocol.MutatingMethodsHaveNoColon | crates/ralph-api/src/protocol.rs:64-92 | No mutating method's name contains the separator of the key format. |
| ProtocolLaws.NewErrorsSay | crates/ralph-api/src/errors.rs:209-230 | Each status belongs to exactly its codes, and exactly 408, 429 and 503 are retryable by default. |
| ProtocolLaws.SuccessSays | crates/ralph-api/src/protocol.rs:204-213 | A success holds version, id, method, result and meta, and no error. |
| ProtocolLaws.ErrorSays | crates/ralph-api/src/protocol.rs:215-224 | An error holds version, id, error, meta and, if known, the method, and no result. |
| ProtocolLaws.ErrorBodySays | crates/ralph-api/src/errors.rs:199-206 | The error is told by printed code, message, retryability and, exactly if there are any, details. |
| ProtocolLaws.EmptyIsInternal | crates/ralph-api/src/runtime.rs:387-394 | A stored reply with neither result nor error object is replayed as an internal error. |
| ProtocolLaws.SilentIsInternal | crates/ralph-api/src/runtime.rs:396-415 | So is a stored error that says nothing, with the stored status if that can be one. |
| ProtocolLaws.HttpStatusIs | crates/ralph-api/src/runtime.rs:177-180 | A stored status that is none is answered with 200 over HTTP. |
| Idempotency.MakeKeyInjective | crates/ralph-api/src/idempotency.rs:51-53 | Keys of methods without a colon determine method and key. |
| Idempotency.KeysMeetExactly | crates/ralph-api/src/idempotency.rs:51-53 | Keys of two methods can meet if and only if the methods are equal or one continues the other behind a colon. |
| Idempotency.Store.Cleanup | crates/ralph-api/src/idempotency.rs:46-49 | Exactly the entries not older than the TTL stay, each judged at a clock reading of its own. |
| Idempotency.Store.CheckKey | crates/ralph-api/src/idempotency.rs:57-72 | A check prunes, and answers new, replay or conflict from what is left. |
| Idempotency.Store.StoreKey | crates/ralph-api/src/idempotency.rs:74-88 | A store prunes, and then overwrites the one entry at a later clock reading. |
| RpcInterleaving.CheckAgreesWithLog | crates/ralph-api/src/idempotency.rs:57-72 | In a state that agrees with the log, the map answers a check as the log of kept answers does. |
| RpcInterleaving.InvKept | crates/ralph-api/src/runtime.rs:303-376 | Every step of every interleaving keeps the invariant that ties map, pending requests and log together. |
| RpcInterleaving.Reachable | crates/ralph-api/src/runtime.rs:303-376 | The invariant holds in every state that any interleaving reaches. |
| RpcInterleaving.NoDispatchAfterFreshAnswer | crates/ralph-api/src/runtime.rs:303-376 | No dispatch starts from a check made within the TTL of an answer kept for its pair, even if overwritten since. |
| RpcInterleaving.CloseDispatchesOverlap | crates/ralph-api/src/runtime.rs:303-376 | Two dispatches of one pair no further apart than the TTL belong to overlapping requests. |
| RpcInterleaving.ChecksGoAheadExactly | crates/ralph-api/src/runtime.rs:328-349 | In every reachable log a check lets its request go ahead if and only if no answer was kept for the pair within the TTL before it. |
| RpcInterleaving.SerialRunsDispatchOncePerTtl | crates/ralph-api/src/runtime.rs:303-376 | Without overlap a pair is dispatched at most once per TTL. |
| RpcInterleaving.RepeatedAnswersAreKept | crates/ralph-api/src/idempotency.rs:57-72 | A replay is the latest answer kept, for the same parameters and in time; a conflict means other parameters. |
| RpcInterleaving.OverlappingDuplicatesBothDispatch | crates/ralph-api/src/runtime.rs:303-376 | Exactly-once is false: two overlapping requests with one key are both dispatched. |
| RpcRuntime.Runtime.Begin | crates/ralph-api/src/runtime.rs:308-350 | A request without a key is rejected, one with a key is answered from the pruned store or goes ahead. |
| RpcRuntime.Runtime.InvokeMethod | crates/ralph-api/src/runtime.rs:139-147 | Store, answer and whether dispatch happened, for one whole request. |
| RpcRuntime.RetryGetsTheSameAnswer | crates/ralph-api/src/runtime.rs:303-416 | A repeat within the TTL is not dispatched and gets the first answer, whatever dispatch would say by then. |
| RpcRuntime.ReusedKeyIsRefused | crates/ralph-api/src/runtime.rs:335-345 | The same key with other parameters is refused with a conflict, and the kept answer survives. |
| ProtocolLaws.ReadsPassThrough | crates/ralph-api/src/runtime.rs:303-376 | A request that changes nothing is dispatched whatever key it brings; the store stays and the answer is what dispatch said. |
| ProtocolLaws.KeylessIsRefused | crates/ralph-api/src/runtime.rs:309-324 | A mutating request without a key is refused with status 400, undispatched, and leaves the store alone. |
| ProtocolLaws.FirstIsKept | crates/ralph-api/src/runtime.rs:352-375 | A mutating request whose key is not held, or no longer, is dispatched; its answer is kept under method and key with parameters, time and status, beside exactly such entries as had not expired. |
| ProtocolLaws.OthersConflict | crates/ralph-api/src/runtime.rs:335-345 | A key held with other parameters is a conflict, undispatched, that names the method and the key. |
| QueueIds.PrintInjective | crates/ralph-api/src/task_domain.rs:506-513 | Two printed queue ids are equal if and only if clock reading and counter were. |
| TaskRecords.ValuesById | crates/ralph-api/src/task_domain.rs:89-105 | The values of the ordered map are its records, each once, in the order of their ids. |
| TaskRecords.SortRanks | crates/ralph-api/src/task_domain.rs:515-520 | A stable sort of records in id order is a permutation ranked by key and then id. |
| TaskDomain.TaskStore.CreateTask | crates/ralph-api/src/task_domain.rs:147-203 | Creation with all its refusals; automatic queueing follows at a clock reading of its own. |
| TaskDomain.TaskStore.UpdateTask | crates/ralph-api/src/task_domain.rs:205-242 | An update changes only the given fields and keeps completion time, error and queue id in step with the status. |
| TaskDomain.TaskStore.Transition | crates/ralph-api/src/task_domain.rs:413-439 | A status change clears or sets completion time, error and queue id together. |
| TaskDomain.TaskStore.CloseTask | crates/ralph-api/src/task_domain.rs:244-246 | Closing is that transition, refused for a missing task. |
| TaskDomain.TaskStore.ArchiveTask | crates/ralph-api/src/task_domain.rs:248-258 | Archiving marks the record and nothing else. |
| TaskDomain.TaskStore.UnarchiveTask | crates/ralph-api/src/task_domain.rs:260-270 | Unarchiving removes the mark. |
| TaskDomain.TaskStore.DeleteTask | crates/ralph-api/src/task_domain.rs:272-290 | Only finished tasks are deleted. |
| TaskDomain.TaskStore.ClearTasks | crates/ralph-api/src/task_domain.rs:292-296 | Clearing empties the store, whether or not the disk obeys. |
| TaskDomain.TaskStore.QueueTask | crates/ralph-api/src/task_domain.rs:441-479 | The counter rises first; then a missing, archived or active task is refused. |
| TaskDomain.TaskStore.RunTask | crates/ralph-api/src/task_domain.rs:298-305 | Queueing, and the record as queued. |
| TaskDomain.TaskStore.RetryTask | crates/ralph-api/src/task_domain.rs:326-353 | A failed task is reopened and then queued, in that order. |
| TaskDomain.TaskStore.CancelTask | crates/ralph-api/src/task_domain.rs:355-380 | Only pending and running tasks are cancelled; they fail with a message. |
| TaskDomain.TaskStore.RunAllTasks | crates/ralph-api/src/task_domain.rs:307-324 | The ready tasks are queued one by one, with a count and a list of errors. |
| TaskDomain.TaskStore.QueuePosition | crates/ralph-api/src/task_domain.rs:481-496 | The index of the task in the queue, if it is there. |
| TaskLaws.CreateRefuses | crates/ralph-api/src/task_domain.rs:148-167 | A known id, and automatic queueing of a task that is not open, are refused, in this order, and change nothing. |
| TaskLaws.CreateAdds | crates/ralph-api/src/task_domain.rs:169-203 | Any other create adds exactly one record with the given fields, priority in 1 to 5 and 2 by default; it is queued under the next number if and only if that is wanted and it has no blocker, and otherwise keeps its status, has no queue id and leaves the counter. |
| TaskLaws.UpdateSets | crates/ralph-api/src/task_domain.rs:205-242 | An update sets exactly the given fields and the time; a new status takes completion time, queue id and error message with it. |
| TaskLaws.CloseSets | crates/ralph-api/src/task_domain.rs:413-435 | Closing moves one task to closed and leaves everything but that and the time. |
| TaskLaws.ArchiveMarks | crates/ralph-api/src/task_domain.rs:248-270 | Archiving notes its time, unarchiving removes the note; nothing else changes but the time of the update. |
| TaskLaws.DeleteRemoves | crates/ralph-api/src/task_domain.rs:272-296 | Only failed and closed tasks are deleted, only the one asked for, and clearing deletes all; the counter stays. |
| TaskLaws.RunQueues | crates/ralph-api/src/task_domain.rs:298-305 | Running draws the next number; a missing, archived, pending or running task is refused, any other is pending under that number, changed now, with no completion and no error left. |
| TaskLaws.RetryRequeues | crates/ralph-api/src/task_domain.rs:326-353 | Only failed tasks are retried: queued anew at a later clock reading or, if archived, reopened and refused. |
| TaskLaws.CancelFails | crates/ralph-api/src/task_domain.rs:355-380 | Only pending and running tasks are cancelled: they fail with a message, complete now and lose the queue id. |
| TaskTheorems.ConsistentAfterOp | crates/ralph-api/src/task_domain.rs:147-479 | Every operation keeps the joint invariant, whatever clock and disk do. |
| TaskTheorems.EveryHistoryIsConsistent | crates/ralph-api/src/task_domain.rs:147-479 | After every history: key equals id, priority 1 to 5, queue id only when active, completion time exactly when finished, error only when failed, queue ids distinct. |
| TaskQueueIds.PrintedQueueIdsDiffer | crates/ralph-api/src/task_domain.rs:506-513 | No two tasks of a history show the same printed queue id before the counter saturates. |
| TaskQueueIds.CounterNeverFalls | crates/ralph-api/src/task_domain.rs:441-443 | No operation lowers the counter. |
| TaskQueueIds.IssuedIdsAre | crates/ralph-api/src/task_domain.rs:441-479 | Whichever of the eleven operations issues an id, it is the clock reading and the counter at its turn; only `run_all` issues more than one. |
| TaskQueueIds.RunReturnsTheIssued | crates/ralph-api/src/task_domain.rs:298-305 | The id `run` returns is the one its task is given. |
| TaskQueueIds.BorneIdsWereIssued | crates/ralph-api/src/task_domain.rs:441-479 | Every id a task bears was issued to it by some step of the history. |
| TaskQueueIds.IdsCollideOnlyOnceSaturated | crates/ralph-api/src/task_domain.rs:441-513 | Over any history two ids issued by whatever operations (create, run, retry, or one `run_all`) print the same if and only if the counter had run out for both and the clock read the same; an id issued while the counter has not run out differs from all earlier ones. |
| TaskRestarts.EveryLifeIsConsistent | crates/ralph-api/src/task_domain/storage.rs:17-53 | Store and snapshot keep the joint invariant through any operations and restarts, with or without a readable snapshot. |
| TaskRestarts.IdsAcrossRestarts | crates/ralph-api/src/task_domain/storage.rs:17-53 | Ids on either side of restarts print the same if and only if clocks and numbers agree; if every restart in between knew of the earlier id, that is only once the counter ran out. |
| TaskRestarts.ObeyedIdsAreSaved | crates/ralph-api/src/task_domain/storage.rs:55-79 | An id issued while the disk obeys is known to the snapshot, whichever operation issues it. |
| TaskRestarts.SavedIdsStayDistinct | crates/ralph-api/src/task_domain/storage.rs:17-79 | Where snapshots are found, an id issued while the disk obeyed meets a later one if and only if the counter had run out and the clocks agree. |
| TaskRestarts.UnsavedIdComesBack | crates/ralph-api/src/task_domain/storage.rs:17-53 | A create whose save fails, a restart and a create in the same millisecond issue the same id twice. |
| TaskTheorems.RefusalsKeepTasks | crates/ralph-api/src/task_domain.rs:326-353 | A refused call changes no task, unless and only unless it is a retry of a failed task that is archived. |
| TaskTheorems.ArchivedRetryHappens | crates/ralph-api/src/task_domain.rs:326-353 | Creating, cancelling, archiving and retrying a task reaches the exception: the retry is refused and the task is open afterwards. |
| TaskTheorems.DiskOnlyReports | crates/ralph-api/src/task_domain.rs:147-479 | For every operation a failed save leaves memory as if it had succeeded; a call that would have succeeded reports it, any other error stays. |
| TaskTheorems.ReadyIsExact | crates/ralph-api/src/task_domain.rs:129-145 | `ready` lists exactly the open, unarchived, unblocked tasks, each once, by creation time and id. |
| TaskTheorems.ReadyIdsAreExact | crates/ralph-api/src/task_domain.rs:307-311 | The ids `run_all` works through are exactly theirs, without repetition. |
| TaskTheorems.RunAllMovesTheReady | crates/ralph-api/src/task_domain.rs:307-324 | `run_all` queues exactly the ready tasks with rising counters, leaves all others alone, and reports exactly the failed saves. |
| TaskTheorems.RunAllIsIdempotent | crates/ralph-api/src/task_domain.rs:307-324 | An immediate second `run_all` finds nothing and changes nothing. |
| TaskTheorems.QueueOrderIsExact | crates/ralph-api/src/task_domain.rs:481-490 | The queue holds exactly the queued tasks, by time of last change and id. |
| TaskTheorems.QueuePositionRanks | crates/ralph-api/src/task_domain.rs:481-496 | A position exists if and only if the task is queued, and counts the queued tasks ahead of it. |
| TaskTheorems.QueuePositionsAreABijection | crates/ralph-api/src/task_domain.rs:481-496 | The positions are 0 to n - 1, one each. |
| TaskScheduler.RoundIsAfterRound | crates/ralph-api/src/task_domain.rs:307-324 | A round of `run_all` and closing what was ready closes exactly the open tasks whose blocker is done. |
| TaskScheduler.RoundsCloseWhatResolves | crates/ralph-api/src/task_domain.rs:129-145 | After n rounds exactly the open tasks whose blocker chain ends within n are closed. |
| TaskScheduler.EnoughRounds | crates/ralph-api/src/task_domain.rs:129-145 | A chain that ends at all ends within as many tasks as are open. |
| TaskScheduler.AllGetDoneExactly | crates/ralph-api/src/task_domain.rs:129-145 | As many rounds as open tasks leave none open if and only if the blockers can be ranked. |
| TaskScheduler.StoreGetsDoneExactly | crates/ralph-api/src/task_domain.rs:307-324 | The same of the store itself, from any reachable state, for any clocks and disk failures. |
| TaskScheduler.CyclesNeverRun | crates/ralph-api/src/task_domain.rs:498-504 | A task on a blocker cycle is never in the list `ready` returns and stays open, through any rounds of the store. |
| SubscriptionParams.DistinctIsExact | crates/ralph-api/src/stream_domain/filters.rs:54-82 | The accepted topics are the requested ones, none twice. |
| SubscriptionParams.NormalizeTopics | crates/ralph-api/src/stream_domain/filters.rs:54-82 | Refuses an empty request and the first unknown topic; otherwise accepts the topics in order of first occurrence. |
| SubscriptionParams.ParseFilterSet | crates/ralph-api/src/stream_domain/filters.rs:102-138 | A field that holds a string or strings adds the non-blank ones; any other content is refused. |
| SubscriptionParams.FiltersFromJson | crates/ralph-api/src/stream_domain/filters.rs:15-37 | Resource ids are the union over four fields, kinds over two; anything but an object is refused. |
| Subscriptions.CursorRoundTrip | crates/ralph-api/src/stream_domain/mod.rs:460-491 | A published cursor reads back as its event's sequence number. |
| Subscriptions.StreamDomain.Publish | crates/ralph-api/src/stream_domain/mod.rs:358-383 | The sent event carries topic, resource, the next sequence number and its cursor; the history stays the newest 2048 of all events; unknown topics change nothing. |
| Subscriptions.StreamDomain.EphemeralEvent | crates/ralph-api/src/stream_domain/mod.rs:398-439 | Keep-alives take the next sequence number and leave no other trace. |
| Subscriptions.StreamDomain.Subscribe | crates/ralph-api/src/stream_domain/mod.rs:130-172 | Topics, cursor and filters are refused in that order; an accepted subscription is recorded under a fresh counter and starts at its cursor or at the newest event. |
| Subscriptions.StreamDomain.Unsubscribe | crates/ralph-api/src/stream_domain/mod.rs:182-194 | The subscription goes, or was not there. |
| Subscriptions.StreamDomain.Ack | crates/ralph-api/src/stream_domain/mod.rs:196-222 | A checkpoint never moves back; refusals change nothing. |
| Subscriptions.StreamDomain.ReplayForSubscription | crates/ralph-api/src/stream_domain/mod.rs:273-320 | The newest pending events up to the limit, marked with the requested cursor and the size of the batch, and how many were dropped for the limit. |
| SubscriptionLaws.PendingIsAskedFor | crates/ralph-api/src/stream_domain/mod.rs:455-457 | Of all published events exactly those are pending that are past the cursor, of a requested topic, with an id named in one of the four id fields if any is named, and a kind named in one of the two type fields if any is. |
| SubscriptionLaws.WantedIsAskedFor | crates/ralph-api/src/stream_domain/filters.rs:15-52 | The same of a single event, for any subscription made with these parameters, acknowledged or not. |
| SubscriptionLaws.SubscribeAndAsk | crates/ralph-api/src/stream_domain/mod.rs:130-172 | A client that subscribes and asks gets only published events that it asked for past its start and, if none were dropped, all of those in the history. |
| SubscriptionLaws.StartsWhereAsked | crates/ralph-api/src/stream_domain/mod.rs:389-396 | A subscription starts at the requested cursor, else at the newest event, else before the first. |
| SubscriptionLaws.FiltersAreRefusedExactly | crates/ralph-api/src/stream_domain/filters.rs:102-138 | Filters are refused if and only if they are no object or one of the six fields is neither a string nor an array of strings. |
| SubscriptionLaws.ReplayKeepsTheNewest | crates/ralph-api/src/stream_domain/mod.rs:284-320 | A replay is the newest pending events up to the limit and counts the ones it dropped. |
| Subscriptions.CheckpointSettles | crates/ralph-api/src/stream_domain/mod.rs:196-222 | Acknowledging a pending event is accepted, settles it and all before it, and leaves exactly what is behind pending. |
| Subscriptions.StartsAtTheEnd | crates/ralph-api/src/stream_domain/mod.rs:389-396 | Subscribing at the newest event leaves nothing pending. |
| Subscriptions.TornLookExactly | crates/ralph-api/src/mcp.rs:162-172 | Reading the cursor's text and number in two looks wants one event too many, the one just acknowledged, if and only if the acknowledgement fell between the looks. |
| LiveEvents.CollectLiveEvents | crates/ralph-api/src/mcp.rs:500-549 | The draining loop against its specification; it never exceeds its room. |
| LiveEvents.WaitForEvent | crates/ralph-api/src/mcp.rs:192-237 | The waiting loop against its specification; room minus what was found never underflows. |
| LiveEvents.StreamNext | crates/ralph-api/src/mcp.rs:120-237 | The refusals of each look at the tables, then a replay, then what is there, then the wait; the cursor's text and number are two looks. |
| LiveEvents.CollectIsExact | crates/ralph-api/src/mcp.rs:500-549 | Draining hands on exactly the pending events of the prefix it takes and stops only when full, interrupted or out of input. |
| LiveEvents.LiveAnswerIsExact | crates/ralph-api/src/mcp.rs:173-237 | No pending event taken from the receiver is lost; order is kept; at most `max_events`; the drop count is the saturating sum of the lags. |
| SubscriptionLaws.AnswersAreAskedFor | crates/ralph-api/src/mcp.rs:120-237 | Every event of an answer, replayed or live, was published, was asked for and is past the cursor. |
| SubscriptionLaws.ReplaysAreTold | crates/ralph-api/src/mcp.rs:155-160 | With something to replay the receiver is left alone; the answer is cut to the size asked for, says where it starts and how many were dropped, and never that the wait timed out. |
| SubscriptionLaws.SizesAre | crates/ralph-api/src/mcp.rs:28-29 | The history is the newest 2048 events; a batch has 1 to 200 events, 50 by default. |
| StreamDelivery.BatchIsStretch | crates/ralph-api/src/mcp.rs:120-237 | Whatever is published meanwhile and wherever the receiver stands, a batch is a gapless stretch of all pending events, right behind those evicted or over the replay limit. |
| StreamDelivery.NoGapExactly | crates/ralph-api/src/stream_domain/mod.rs:284-300 | A batch leaves nothing out in front if and only if nothing was evicted or dropped. |
| StreamDelivery.EveryEventIsAccountedFor | crates/ralph-api/src/mcp.rs:120-237 | Conservation for any consumer that acknowledges its batches: every pending event was delivered, lost or is still pending, the lost ones being those evicted or over the replay limit in front of a batch. |
| StreamDelivery.NothingIsLostExactly | crates/ralph-api/src/mcp.rs:120-237 | What a consumer got, followed by what is still pending, is all there was if and only if no batch left anything out in front of it. |
| StreamDelivery.NothingIsRepeated | crates/ralph-api/src/mcp.rs:120-237 | Even a consumer that falls behind gets events in strictly rising order, none twice, and only ones that were pending from the start. |
| StreamDelivery.FittingLosesNothing | crates/ralph-api/src/stream_domain/mod.rs:273-320 | A consumer that starts with nothing evicted and with all that is ever pending within its replay limit loses nothing, whatever calls it makes. |
| StreamDelivery.EverythingArrivesExactly | crates/ralph-api/src/mcp.rs:120-237 | Once publishing stops, as many calls as there are pending events deliver them all if and only if none had left the history and all fit into one replay at the start. |
| StreamDelivery.LossHappens | crates/ralph-api/src/stream_domain/mod.rs:295-300 | With a replay limit of one and two events pending, two calls do not deliver both. |
| CivilTime.MonthLengths | crates/ralph-bench/src/main.rs:724-728 | The twelve lengths are those of the Gregorian year. |
| CivilTime.CivilDate | crates/ralph-bench/src/main.rs:707-739 | The loops end with a valid date whose day number is the input. |
| CivilTime.CivilMoment | crates/ralph-bench/src/main.rs:692-739 | Date and time of day denote exactly the input seconds. |
| CivilTime.Timestamp | crates/ralph-bench/src/main.rs:692-745 | The text shows the moment that the seconds denote. |
| CivilTime.DayNumberIncreases | crates/ralph-bench/src/main.rs:707-739 | Day numbers order valid dates, so a day number has one date. |
| CivilTime.AgreesWithPosix | crates/ralph-bench/src/main.rs:699-739 | The count of seconds agrees with section 4.16 of IEEE Std 1003.1-2017 for every moment. |
| CivilTime.MomentIsUnique | crates/ralph-bench/src/main.rs:699-739 | Seconds order moments and determine them. |
| CivilTime.ShowIsFixed | crates/ralph-bench/src/main.rs:741-744 | Through the year 9999 the text is fixed-width fields, 15 characters in all. |
| CivilTime.TimestampsSort | crates/ralph-bench/src/main.rs:692-745 | Through the year 9999 later moments have lexicographically larger texts. |
| YamlMerge.MergeYamlValues | crates/ralph-cli/src/config_resolution.rs:58-73 | The loop over the overlay, in any order, builds the recursive merge. |
| YamlMerge.LookupOfMerge | crates/ralph-cli/src/config_resolution.rs:58-73 | The right-biased lookup law for every path. |
| YamlMerge.MergeIdempotent | crates/ralph-cli/src/config_resolution.rs:58-73 | Overlaying a value on itself changes nothing. |
| YamlMerge.EmptyMappingIsNeutral | crates/ralph-cli/src/config_resolution.rs:58-73 | The empty mapping is neutral as base, and as overlay if and only if the base is a mapping. |
| YamlMerge.CoveredIsReplaced | crates/ralph-cli/src/config_resolution.rs:58-73 | The overlay alone remains if and only if it covers the base at every shared mapping. |
| YamlMerge.MergeAssociativeExactly | crates/ralph-cli/src/config_resolution.rs:58-73 | Merging three layers is associative if and only if they are aligned: no middle scalar hides what a later mapping would extend. |
| YamlMerge.MiddleScalarBreaksAssociativity | crates/ralph-cli/src/config_resolution.rs:58-73 | A concrete configuration on which it is not. |
| CodexArgs.Retain | crates/ralph-adapters/src/cli_backend.rs:798 | `retain` removes one argument and keeps the order of the rest. |
| CodexArgs.CollapseYolo | crates/ralph-adapters/src/cli_backend.rs:811-820 | The retain with a flag keeps the first occurrence only and knows whether there was one. |
| CodexArgs.ReplaceBypass | crates/ralph-adapters/src/cli_backend.rs:793-806 | The legacy flag goes; `--yolo` takes its place behind `exec`, or at the end. |
| CodexArgs.ReconcileCodexArgs | crates/ralph-adapters/src/cli_backend.rs:792-828 | Both stages against their specification; the re-insertion branch is dead. |
| CodexArgs.ReconcileInClosedForm | crates/ralph-adapters/src/cli_backend.rs:792-828 | Nothing changes without the two flags; otherwise all three go and one `--yolo` stands at its anchor. |
| CodexArgs.ReconcileNormalises | crates/ralph-adapters/src/cli_backend.rs:792-828 | No bypass flag, at most one `--yolo` and no `--full-auto` beside it, all other arguments in order. |
| CodexArgs.ReconcileIdempotent | crates/ralph-adapters/src/cli_backend.rs:792-828 | Reconciling twice is reconciling once. |
| CodexArgs.CodexWithArgsIs | crates/ralph-adapters/src/cli_backend.rs:228-238 | Codex with extra arguments is `exec`, `--yolo` and the extra arguments without the three flags. |

## Left out

- The JSON, YAML, Markdown and ANSI libraries: functions the theorems quantify over (JSON sees the trimmed line).
- Costs are real numbers here, not floating point; counters that overflow wrap, as in a release build.
- Copilot `toolRequests`, parsed by the source and never read.
- PtyStream.Session.Run: failures to spawn the child, and I/O errors while terminating or waiting for it, which the source returns.
- Pseudo-terminals, processes, signals, interactive mode, `stripped_output`, the ACP executor: foreign calls.
- A closed interrupt channel, and `terminate_child` itself.
- The interleaving covers mutating requests only: parsing, authorisation and read-only requests do not touch the store.
- RpcRuntime.Runtime.InvokeMethod: takes a parsed request; parsing, JSON Schema validation and the domains behind `dispatch` are not modelled.
- Protocol.HttpReplayIsFaithful: takes two parsed and authorised requests; the errors before that are the same for a retry as for any request.
- Statuses and Codex arguments other than those the source compares with are one constructor that carries the text.
- Queue ids are kept as clock reading and counter; `QueueIds.PrintInjective` makes that the same as the printed text.
- The task snapshot's file format (what was written reads back as it was, or not at all), and the read-only calls `list`, `get` and `status`.
- Task time stamps are any strings, compared byte by byte as the source compares them.
- TaskTheorems.RunAllMovesTheReady: for at most 2^64 - 1 ready tasks, because beyond that the reported count saturates.
- YamlMerge.MergeYamlValues: the order of keys, and the error the source declares but never returns.
- CivilTime.CivilDate: the year is unbounded; the source's 32-bit year overflows after more than two thousand million years.
- StreamDelivery.NothingIsLostExactly: one consumer, which acknowledges between its calls and not during them.
- StreamDelivery.BatchIsStretch: the broadcast channel is modelled after its documentation, with the capacity of 256 it is created with.
- WebSocket delivery, the tool catalogue, `from_config` and the other backends' argument tables: one-branch logic.
- Of the terminal view, tool previews and the summary text are parameters; the mutex around shared lines is not modelled.
- CliExecutor.Execute: a failing writer and the termination of the child are not modelled; the time handling takes is a parameter.
