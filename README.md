# glow: the AI-feedback log pipeline, modelled in Dafny

Glow is a document editor that asks an AI agent, the Claude Code command-line tool, for feedback on a selection. The bridge server answers such a request in several steps:

1. It registers a *feedback session*.
2. It launches the agent as a subprocess.
3. It reads the agent's line-delimited JSON output through the `ClaudeLogProcessor`.
4. The processor frames the output into lines, decodes each line into a protocol record and normalises it into `NormalizedEntry` values in a per-session `MsgStore`.
5. Clients poll the session's status and content, or replay its history as stream messages.

This project models that pipeline and the small value and map cores around it, and proves what each operation does.

Layout, one module per source file:

| module | source |
|---|---|
| `LogProcessor` | `log_processor.rs` |
| `Logs` | `logs.rs` |
| `FeedbackApi` | `api/feedback.rs` |
| `BridgeState` | `state.rs` |
| `Types` | `types.rs` |
| `Env` | `env.rs` |
| `Claude` | `executors/claude/mod.rs` |
| `Executors` and `Agents` | `executors/mod.rs` |
| `Profile` | `profile.rs` |
| `Documents` | `document.rs` |
| `Approvals` | `approvals.rs` |
| `Protocol` | `executors/claude/protocol.rs` |

Shared helpers:
- `Strings` holds the `str` operations the code relies on: `trim`, `find`, `join` and containment.
- `Json` holds the part of `serde_json::Value` that is inspected.
- `Errors` holds `ExecutorError`.
- `Wrappers` holds `Option` and `Result`.

What changes state in the source is a class here:

- **`ClaudeLogProcessor` is a class** whose fields `buffer`, `currentContent`, `currentThinking`, `suggestedEdits` and `hasStreamedContent` are updated in place.
  - `ProcessChunk` peels lines off the buffer in a `while` loop.
  - Each method is proved against a pure step function on `ProcState` that says which state it reaches and which messages it pushes: `ChunkStep`, `LinesStep`, `LineStep`, `MessageStep`, `BlockStep`, `StreamEventStep`, `ResultStep` and `FlushStep`.
  - The properties the source promises are lemmas about those functions: framing, trimming, delta coalescing, non-duplication after streaming, edit extraction, `Ended` on every result, and idempotent flush.
- **`MsgStore` is a class** with the append-only `history`.
  - The broadcast channel is modelled as the sequence `sent` of every message sent.
  - Each subscriber is recorded by the position in `sent` at which it subscribed, so subscriber `k` receives `sent[subscribers[k]..]`.
  - `MsgStore.Extends` states that a run of operations appended exactly the given messages to both sequences.
- **`FeedbackSession` and `AppState` are classes.**
  - `state` is assigned without guards, exactly as the code does it.
  - A ghost `trace` records every state assigned, so the model can show that a failed launch passes through `Running` and that a cancellation is overwritten.
- `ExecutionEnv`, `ExecutorConfig`, `ExecutorConfigs`, `DocumentMetadata` and `Document` are classes whose maps and fields are updated in place.
- Pure code is pure here: the `NormalizedEntry` constructors, the `ClaudeCode` builders, `AppendPrompt::apply`, the status and stream-message mappings, and prompt formatting are functions.

Things the source takes from its environment are parameters:
- the clock is `now`;
- fresh UUIDs are the `id` or `sessionId` arguments;
- `std::env::temp_dir()` is `tempDir`;
- the operating system's answer to a spawn is `spawnError`;
- the process's standard output is `stdoutLines` and `stdoutAvailable`;
- the exit status is `exitSuccess`;
- the home directory (`dirs::home_dir()`) is `home`;
- the file and `npx` probes are booleans;
- the JSON library is a `Codec` whose `decode` turns a line into a record, or nothing.

## Behaviour worth noting

- **A failed launch passes through `Running`.** The code sets `Running` before it spawns (`api/feedback.rs:123-126`) and `Failed` afterwards (`api/feedback.rs:228-236`). `FeedbackApi.RunFeedbackSession` records both in the session's trace.
- **No state is final.** Every state assignment is unconditional (`api/feedback.rs:125`, `222`, `233` and `315`).
  - A cancellation before the run starts is overwritten by `Running` and then by the final state, as `FeedbackApi.CancelIsOverwritten` proves.
  - A cancellation while the process runs is overwritten by `Completed` or `Failed` once the process exits, as `FeedbackApi.CancelDuringRun` proves.
- **`flush` does not trim the leftover buffer.** `process_chunk` trims every line and skips empty ones. `flush` hands the unterminated leftover to `process_line` untrimmed. `LogProcessor.FlushStep` keeps that difference.
- **The launched command is not the session's executor.** `create_feedback` stores an executor with the feedback system prompt. `run_feedback_session` ignores it and launches a fixed argument vector with no `--model`, no `--resume=` and no `--system-prompt=`. `FeedbackApi.InlineArgvIgnoresExecutor` proves the two command lines differ.
- **A failed launch is reported as a message, not an entry.** The code pushes a `LogMsg::Error` message carrying the spawn error's text (`api/feedback.rs:236`), not a `NormalizedEntry` of type `ErrorMessage`.
- **Session ids are not required to be fresh.** `AppState.CreateSession` is modelled without assuming its random id is new. It replaces any entry under that id and provably leaves every other entry unchanged, which covers the fresh case.

## Model

| member | source | states |
|---|---|---|
| LogProcessor.InitialState | crates/glow-executors/src/executors/claude/log_processor.rs:176-185 | a new processor has empty accumulators, no edits and the streamed flag false |
| LogProcessor.ClaudeLogProcessor.constructor | crates/glow-executors/src/executors/claude/log_processor.rs:176-185 | the processor starts with an empty buffer in the initial state, attached to the given store |
| LogProcessor.ParseSuggestedEdit | crates/glow-executors/src/executors/claude/log_processor.rs:365-394 | succeeds exactly when `original_text` and `suggested_text` are present strings. Otherwise it fails with the message naming the first missing field. On success it carries the id and both texts, with `explanation` defaulting to "", the range (0, 0, "") and both flags false |
| LogProcessor.ParseSuggestedEditExample | crates/glow-executors/src/executors/claude/log_processor.rs:457-470 | the edit-tool input from the processor's test parses to an edit with exactly those three texts |
| LogProcessor.DrainThinking | crates/glow-executors/src/executors/claude/log_processor.rs:297-304 | the `mem::take` drain of the thinking accumulator. `BlockStopDrains` and `ResultEndsStream` state what it pushes; `TakeThinking` is proved equal to it |
| LogProcessor.DrainContent | crates/glow-executors/src/executors/claude/log_processor.rs:305-312 | the same drain for the text accumulator; `TakeContent` is proved equal to it |
| LogProcessor.BlockStep | crates/glow-executors/src/executors/claude/log_processor.rs:234-271 | one arm of the assistant case. `BlockStepState`, `BlockStepSuppressesOnlyText` and `ToolUseOutcome` state its effect; `HandleBlock` is proved equal to it |
| LogProcessor.BlocksStep | crates/glow-executors/src/executors/claude/log_processor.rs:230-273 | the blocks in order. `BlocksStateLemma` and `StreamingSuppressesOnlyText` state its effect; `HandleAssistantBlocks` is proved equal to it |
| LogProcessor.StreamEventStep | crates/glow-executors/src/executors/claude/log_processor.rs:275-319 | the stream-event case. `DeltaAccumulates`, `BlockStopDrains` and `DeltasCoalesce` state its effect; `HandleStreamEvent` is proved equal to it |
| LogProcessor.ResultStep | crates/glow-executors/src/executors/claude/log_processor.rs:321-355 | the result case. `ResultEndsStream` states its effect; `HandleResult` is proved equal to it |
| LogProcessor.FramedLineStep | crates/glow-executors/src/executors/claude/log_processor.rs:193-198 | a framed line, trimmed and skipped when empty. `TrimEmptyIffAllWhitespace` and `TerminatingChunkDecodesLine` state its effect; `ProcessFramedLine` is proved equal to it |
| LogProcessor.LinesStep | crates/glow-executors/src/executors/claude/log_processor.rs:192-199 | the framed lines in order. `LinesStepSnoc` and `LinesStepAppend` state how it composes; `ProcessBufferedLines` is proved equal to it |
| LogProcessor.ChunkStep | crates/glow-executors/src/executors/claude/log_processor.rs:188-200 | `process_chunk` on values. `ChunkBoundariesInvisible`, `UnterminatedChunkBuffered` and `TerminatingChunkDecodesLine` state its effect; `ProcessChunk` is proved equal to it |
| LogProcessor.DrainPendingStep | crates/glow-executors/src/executors/claude/log_processor.rs:409-421 | the drain in `flush`: thinking, then text, neither marked as streamed. `FlushStep` and `FlushIdempotent` state its effect; `DrainPending` is proved equal to it |
| LogProcessor.MessageStep | crates/glow-executors/src/executors/claude/log_processor.rs:215-362 | no record removes a collected edit or resets the streamed flag |
| LogProcessor.LineStep | crates/glow-executors/src/executors/claude/log_processor.rs:203-211 | an undecodable line pushes exactly one `Raw(line)` and changes nothing else; a decodable line is handled as its record |
| LogProcessor.Frame | crates/glow-executors/src/executors/claude/log_processor.rs:192-194 | what framing leaves in the buffer holds no newline and is a suffix of the buffer; a buffer without a newline is left whole |
| LogProcessor.FlushStep | crates/glow-executors/src/executors/claude/log_processor.rs:403-422 | after a flush both accumulators are empty; with nothing buffered or accumulated, a flush pushes nothing and changes nothing |
| LogProcessor.DropTextual | crates/glow-executors/src/executors/claude/log_processor.rs:233-249 | reference definition: the messages of a sequence, in order, without assistant and thinking entries |
| LogProcessor.BlocksStateLemma | crates/glow-executors/src/executors/claude/log_processor.rs:230-273 | an assistant message changes only the collected edits, appending exactly the edits that its `suggest_edit` calls parse to, in block order |
| LogProcessor.BlockStepState | crates/glow-executors/src/executors/claude/log_processor.rs:234-271 | one block changes only the collected edits, appending the edit it yields, if any |
| LogProcessor.StreamingSuppressesOnlyText | crates/glow-executors/src/executors/claude/log_processor.rs:233-249 | once content has been streamed, an assistant message pushes exactly what it would push otherwise, minus its text and thinking entries; tool calls and edits are unaffected |
| LogProcessor.BlockStepSuppressesOnlyText | crates/glow-executors/src/executors/claude/log_processor.rs:234-249 | the same for a single block |
| LogProcessor.NoDuplicateAfterStreaming | crates/glow-executors/src/executors/claude/log_processor.rs:236-249 | after streaming, an assistant message pushes no assistant or thinking entry |
| LogProcessor.DeltaAccumulates | crates/glow-executors/src/executors/claude/log_processor.rs:278-294 | every content-block delta, including a JSON delta, sets the streamed flag and pushes nothing. A text delta appends to the text accumulator and a thinking delta to the thinking accumulator; the edits are unchanged |
| LogProcessor.BlockStopDrains | crates/glow-executors/src/executors/claude/log_processor.rs:295-313 | a block stop pushes the thinking, then the text, each only if non-empty. It empties both accumulators, sets the streamed flag exactly when it pushed something, and leaves the collected edits unchanged; that is the whole new state |
| LogProcessor.DeltasCoalesce | crates/glow-executors/src/executors/claude/log_processor.rs:278-313 | the deltas "Hel" and "lo" followed by a block stop push exactly one assistant entry, "Hello" |
| LogProcessor.ResultEndsStream | crates/glow-executors/src/executors/claude/log_processor.rs:321-355 | a result record, whatever its error flag, pushes the pending thinking and then the pending text, each only if non-empty. It then pushes exactly one `Ended`, last, and both accumulators end empty. The streamed flag becomes set exactly when it was set or thinking was pending, since only the thinking drain marks it (`log_processor.rs:329`). The collected edits are unchanged; that is the whole new state |
| LogProcessor.ErrorRecordPushesOneError | crates/glow-executors/src/executors/claude/log_processor.rs:357-360 | an error record changes no state and pushes one error entry whose content is its message, else its error, else "Unknown error" |
| LogProcessor.ToolUseOutcome | crates/glow-executors/src/executors/claude/log_processor.rs:250-270 | a `suggest_edit` call that fails to parse pushes and collects nothing. One that parses appends its edit to the collected edits and changes nothing else. It pushes exactly one suggested-edit entry stamped `now`, whose content is the serialised edit and whose metadata is the raw input. Any other tool changes no state and pushes one tool-call entry named after the tool, with the input as metadata |
| LogProcessor.FrameAppend | crates/glow-executors/src/executors/claude/log_processor.rs:188-199 | framing `b + c` yields the lines of `b`, then the lines of `b`'s leftover followed by `c` |
| LogProcessor.FrameOneLine | crates/glow-executors/src/executors/claude/log_processor.rs:192-194 | a newline-free line followed by a newline frames to that one line, with nothing left |
| LogProcessor.FrameAtNewline | crates/glow-executors/src/executors/claude/log_processor.rs:192-194 | a buffer whose first newline is at `pos` yields the text before it, then the framing of the rest |
| LogProcessor.LinesStepSnoc | crates/glow-executors/src/executors/claude/log_processor.rs:192-199 | processing one more framed line extends the state and output of the lines before it |
| LogProcessor.LinesStepAppend | crates/glow-executors/src/executors/claude/log_processor.rs:192-199 | processing two runs of lines is processing the first run, then the second from the state reached |
| LogProcessor.FramingLoopStep | crates/glow-executors/src/executors/claude/log_processor.rs:192-198 | one turn of the framing loop keeps the framing of the original buffer and extends the processing of the lines taken |
| LogProcessor.ChunkBoundariesInvisible | crates/glow-executors/src/executors/claude/log_processor.rs:188-199 | feeding `c1` and then `c2` reaches the same state, pushes the same messages and leaves the same buffer as feeding `c1 + c2` at once |
| LogProcessor.UnterminatedChunkBuffered | crates/glow-executors/src/executors/claude/log_processor.rs:435-436 | a chunk without a newline, onto a buffer without one, pushes nothing, changes no state and only grows the buffer |
| LogProcessor.TerminatingChunkDecodesLine | crates/glow-executors/src/executors/claude/log_processor.rs:192-198 | the chunk that ends a buffered line handles the whole line once, trimmed (or not at all if it trims to nothing), and empties the buffer |
| LogProcessor.FlushIdempotent | crates/glow-executors/src/executors/claude/log_processor.rs:403-422 | a second flush with no new input pushes nothing and changes nothing |
| LogProcessor.ClaudeLogProcessor.SuggestedEdits | crates/glow-executors/src/executors/claude/log_processor.rs:398-400 | the edits collected so far |
| LogProcessor.ClaudeLogProcessor.ProcessChunk | crates/glow-executors/src/executors/claude/log_processor.rs:188-200 | appends the chunk and processes every complete line. The new buffer is what framing leaves, so it holds no newline. The new state and the messages pushed are those of `ChunkStep` |
| LogProcessor.ClaudeLogProcessor.ProcessBufferedLines | crates/glow-executors/src/executors/claude/log_processor.rs:192-199 | the `while` loop processes the framed lines of the buffer in order and leaves what framing leaves |
| LogProcessor.ClaudeLogProcessor.TakeNextLine | crates/glow-executors/src/executors/claude/log_processor.rs:192-198 | one turn of the loop cuts off the line before the first newline and keeps the loop invariant |
| LogProcessor.ClaudeLogProcessor.TakeLine | crates/glow-executors/src/executors/claude/log_processor.rs:193-197 | removes the line and its newline from the buffer, then processes the line as a framed line |
| LogProcessor.ClaudeLogProcessor.ProcessFramedLine | crates/glow-executors/src/executors/claude/log_processor.rs:193-198 | trims the line and processes it unless nothing is left; the buffer is unchanged |
| LogProcessor.ClaudeLogProcessor.ProcessLine | crates/glow-executors/src/executors/claude/log_processor.rs:203-211 | decodes the line and handles the record, or pushes the raw line; the state and pushes are those of `LineStep` |
| LogProcessor.ClaudeLogProcessor.HandleMessage | crates/glow-executors/src/executors/claude/log_processor.rs:215-362 | handles one record; the state and pushes are those of `MessageStep` |
| LogProcessor.ClaudeLogProcessor.HandleAssistantBlocks | crates/glow-executors/src/executors/claude/log_processor.rs:230-273 | the `for` loop handles the blocks in order; the state and pushes are those of `BlocksStep` |
| LogProcessor.ClaudeLogProcessor.HandleBlock | crates/glow-executors/src/executors/claude/log_processor.rs:234-271 | handles one block; the state and pushes are those of `BlockStep` |
| LogProcessor.ClaudeLogProcessor.HandleStreamEvent | crates/glow-executors/src/executors/claude/log_processor.rs:275-319 | accumulates deltas, drains on a block stop (marking) and ignores other events |
| LogProcessor.ClaudeLogProcessor.HandleResult | crates/glow-executors/src/executors/claude/log_processor.rs:321-355 | drains thinking (marking), then text (not marking), then pushes `Ended` |
| LogProcessor.ClaudeLogProcessor.Flush | crates/glow-executors/src/executors/claude/log_processor.rs:403-422 | processes a non-empty leftover buffer untrimmed, drains both accumulators and leaves the buffer empty |
| LogProcessor.ClaudeLogProcessor.DrainPending | crates/glow-executors/src/executors/claude/log_processor.rs:409-421 | pushes the pending thinking, then the pending text, without setting the streamed flag |
| LogProcessor.ClaudeLogProcessor.TakeThinking | crates/glow-executors/src/executors/claude/log_processor.rs:297-304 | pushes the thinking if non-empty, empties it and sets the streamed flag when asked |
| LogProcessor.ClaudeLogProcessor.TakeContent | crates/glow-executors/src/executors/claude/log_processor.rs:305-312 | pushes the text if non-empty, empties it and sets the streamed flag when asked |
| Logs.UserMessageEntry | crates/glow-executors/src/logs.rs:54-61 | a user-message entry with the given content, the given timestamp and no metadata |
| Logs.AssistantMessageEntry | crates/glow-executors/src/logs.rs:65-72 | an assistant-message entry with the given content, the given timestamp and no metadata |
| Logs.ThinkingEntry | crates/glow-executors/src/logs.rs:76-83 | a thinking entry with the given content, the given timestamp and no metadata |
| Logs.ToolCallEntry | crates/glow-executors/src/logs.rs:87-94 | a tool-call entry whose content is the tool name and whose metadata is the input |
| Logs.ErrorEntry | crates/glow-executors/src/logs.rs:98-105 | an error entry with the message as content and no metadata |
| Logs.WithMetadata | crates/glow-executors/src/logs.rs:109-112 | sets the metadata and keeps the type, content and timestamp |
| Logs.MsgStore.constructor | crates/glow-executors/src/logs.rs:142-145 | a new store with no history, nothing sent and no subscribers |
| Logs.MsgStore.Push | crates/glow-executors/src/logs.rs:148-155 | appends the message to the history and to what was sent, even with no subscribers. Every existing subscriber receives it after what it had received; nothing else changes |
| Logs.MsgStore.PushEntry | crates/glow-executors/src/logs.rs:158-160 | pushes the entry wrapped as `Entry` |
| Logs.MsgStore.PushError | crates/glow-executors/src/logs.rs:163-165 | pushes the message wrapped as `Error` |
| Logs.MsgStore.Subscribe | crates/glow-executors/src/logs.rs:169-171 | adds a subscriber that has received nothing yet and receives only later pushes; history and sent are unchanged |
| Logs.MsgStore.GetHistory | crates/glow-executors/src/logs.rs:174-176 | returns the history, every pushed message in push order |
| Logs.MsgStore.Clear | crates/glow-executors/src/logs.rs:179-181 | empties the history and leaves the broadcast side alone |
| Logs.PushThreeThenHistory | crates/glow-executors/src/logs.rs:207-216 | three pushes give exactly those three messages, in order |
| Logs.SubscribeThenPush | crates/glow-executors/src/logs.rs:219-227 | a subscriber made before a push receives exactly that message |
| FeedbackApi.IsClaudeName | crates/glow-bridge/src/api/feedback.rs:62-77 | the three lower-cased names the code treats as Claude: "claude", "claude_code" and "claudecode". `SelectExecutor` proves that the choice has no effect, since the fallback builds the same executor |
| FeedbackApi.FeedbackExecutor | crates/glow-bridge/src/api/feedback.rs:64-69 | Claude Code with its defaults, except that the system prompt is the feedback prompt |
| FeedbackApi.SelectExecutor | crates/glow-bridge/src/api/feedback.rs:62-77 | every executor name, Claude or not, selects the feedback executor |
| FeedbackApi.CreateFeedback | crates/glow-bridge/src/api/feedback.rs:80-112 | registers a pending session with the request's comment and document and the feedback executor. It builds the run's request with the range (0, 0, "") and replies `Processing` with `id == session_id` and no content |
| FeedbackApi.TitleOrUntitled | crates/glow-bridge/src/api/feedback.rs:257 | the document's title, or "Untitled" |
| FeedbackApi.BuildFeedbackPrompt | crates/glow-bridge/src/api/feedback.rs:244-262 | the prompt with the feedback wording. `PromptLayout` and `PromptWordingLayout` state its layout: the header first, every field right after its label, in order, and the closing request last |
| FeedbackApi.PromptLayout | crates/glow-bridge/src/api/feedback.rs:244-262 | the prompt holds the title (or "Untitled"), the document id, the selected text and the instruction, in this order, each right after its label; its length is the sum of its parts |
| FeedbackApi.PromptWordingLayout | crates/glow-bridge/src/api/feedback.rs:245-256 | the prompt starts with its header. Each label sits right after the field before it, and the closing request comes last |
| FeedbackApi.InlineArgv | crates/glow-bridge/src/api/feedback.rs:154-162 | the fixed argument vector the run launches under `npx`. `InlineArgvIgnoresExecutor` proves that it is `build_command`'s vector for a default configuration and no session, and not the selected executor's |
| FeedbackApi.InlineArgvIgnoresExecutor | crates/glow-bridge/src/api/feedback.rs:154-162 | the inline argument vector is `build_command`'s for a default configuration and no session. It is one argument shorter than, and different from, the command line of the selected feedback executor |
| FeedbackApi.FeedbackDocumentContext | crates/glow-bridge/src/api/feedback.rs:135-140 | the run's document context has the request's id, content and title, in the temporary directory |
| FeedbackApi.RunOutput | crates/glow-bridge/src/api/feedback.rs:173-237 | a failed launch pushes exactly one error message with the launch error. A started process with readable output pushes what its lines and the final flush push, and one without pushes nothing |
| FeedbackApi.FinalState | crates/glow-bridge/src/api/feedback.rs:220-233 | a run ends `Completed` exactly when the process started and exited successfully, and `Failed` exactly otherwise |
| FeedbackApi.FeedLine | crates/glow-bridge/src/api/feedback.rs:194-195 | feeding a line and then a newline processes the line as one framed line and leaves the buffer empty |
| FeedbackApi.FeedLineSteps | crates/glow-bridge/src/api/feedback.rs:194-195 | with an empty buffer, the line alone pushes nothing and is only buffered; the newline then handles it as one framed line |
| FeedbackApi.FeedStdout | crates/glow-bridge/src/api/feedback.rs:189-196 | the stdout loop processes every line, in order, as a framed line |
| FeedbackApi.ProcessStdout | crates/glow-bridge/src/api/feedback.rs:179-199 | a fresh processor reads the whole output, then flushes once |
| FeedbackApi.RunFeedbackSession | crates/glow-bridge/src/api/feedback.rs:116-241 | launches `npx` with the inline arguments and the built prompt, in the temporary directory, with `CI=true`. The session goes through `Running` to the final state, and the store gains exactly the run's output |
| FeedbackApi.StartFeedbackRun | crates/glow-bridge/src/api/feedback.rs:123-171 | the session becomes `Running` before the launch, and the launch is the inline command |
| FeedbackApi.FinishFeedbackRun | crates/glow-bridge/src/api/feedback.rs:173-237 | after the launch, the output is collected or the error pushed, and the final state is assigned without looking at the current one |
| FeedbackApi.FrameTerminated | crates/glow-bridge/src/api/feedback.rs:189-195 | newline-free lines, each followed by a newline, frame back to exactly those lines, with nothing left |
| FeedbackApi.StdoutAsOneChunk | crates/glow-bridge/src/api/feedback.rs:189-199 | feeding the output line by line and flushing pushes what feeding it as one chunk and flushing would push |
| FeedbackApi.StatusOf | crates/glow-bridge/src/api/feedback.rs:273-279 | Pending to Pending, Running to Processing, Completed to Completed, and both Failed and Cancelled to Failed, each in both directions |
| FeedbackApi.AssistantContents | crates/glow-bridge/src/api/feedback.rs:283-293 | reference definition: the contents of the assistant entries of a history, in history order |
| FeedbackApi.AssistantContentsOne | crates/glow-bridge/src/api/feedback.rs:285-292 | a single message contributes its content exactly when it is an assistant entry |
| FeedbackApi.AssistantContentsAppend | crates/glow-bridge/src/api/feedback.rs:283-293 | collecting the contents distributes over concatenation of histories |
| FeedbackApi.ContentOf | crates/glow-bridge/src/api/feedback.rs:281-299 | the content is the assistant contents joined by newlines, never empty. It is absent exactly when there is no assistant entry, or a single one with empty content |
| FeedbackApi.GetFeedback | crates/glow-bridge/src/api/feedback.rs:265-304 | answers not-found for an unknown id. Otherwise it reports the session's id, the status of its state and the content of its history, with no edits and no error |
| FeedbackApi.CancelFeedback | crates/glow-bridge/src/api/feedback.rs:307-321 | marks a registered session `Cancelled` whatever its state and answers true; an unknown id is not found |
| FeedbackApi.CancelIsOverwritten | crates/glow-bridge/src/api/feedback.rs:123-126 | a session cancelled before its run starts is set `Running` again and ends `Completed` or `Failed`, never `Cancelled`. Its trace is Cancelled, Running, final, and the reported status is `Completed` exactly when the run succeeded |
| FeedbackApi.CancelDuringRun | crates/glow-bridge/src/api/feedback.rs:221-226 | a session cancelled while its process runs ends `Completed` or `Failed`, never `Cancelled`: the assignment after the process exits replaces the cancellation. Its trace is Running, Cancelled, final, and the reported status is `Completed` exactly when the run succeeded |
| FeedbackApi.LogMsgToStreamMessage | crates/glow-bridge/src/api/feedback.rs:384-404 | each kind of log message maps to its stream message in both directions: assistant and other entries become chunks, thinking entries thinking, error entries and error messages errors, and the end marker completion. Raw lines and start markers become empty chunks; an entry's content is carried over |
| FeedbackApi.ReplayHistory | crates/glow-bridge/src/api/feedback.rs:344-352 | the replay is the whole history, converted message by message, in order |
| BridgeState.FeedbackSession.constructor | crates/glow-bridge/src/state.rs:66-73 | a pending session with the given fields and a fresh, empty store |
| BridgeState.FeedbackSession.SetState | crates/glow-bridge/src/state.rs:21 | an unguarded assignment of the state, recorded in the trace |
| BridgeState.AppState.constructor | crates/glow-bridge/src/state.rs:51-56 | no sessions, and empty executor configurations |
| BridgeState.AppState.CreateSession | crates/glow-bridge/src/state.rs:59-77 | inserts under the id a new pending session with the given comment, document and executor and an empty store; every other entry is unchanged |
| BridgeState.AppState.GetSession | crates/glow-bridge/src/state.rs:80-82 | present exactly when the id is registered, and then that entry |
| BridgeState.AppState.RemoveSession | crates/glow-bridge/src/state.rs:85-87 | returns the previous entry, if any, and removes only that key |
| Types.DefaultAppendPrompt | crates/glow-executors/src/types.rs:157-163 | the default wraps nothing |
| Types.Apply | crates/glow-executors/src/types.rs:168-180 | the result is the prepend text and a newline (if set), the prompt, then a newline and the append text (if set); its length is the sum of those parts |
| Types.DefaultApplyIsIdentity | crates/glow-executors/src/types.rs:168-180 | the default configuration leaves a prompt unchanged |
| Env.DefaultDocumentContext | crates/glow-executors/src/env.rs:9-19 | every field empty or absent |
| Env.NewDocumentContext | crates/glow-executors/src/env.rs:24-30 | sets the id and content, with no title and the default working directory |
| Env.WithTitle | crates/glow-executors/src/env.rs:34-37 | sets the title and nothing else |
| Env.WithWorkingDir | crates/glow-executors/src/env.rs:41-44 | sets the working directory and nothing else |
| Env.BuilderChain | crates/glow-executors/src/env.rs:118-127 | the crate's test: `new("doc-123", "Hello world")`, then the title "My Document" and the directory "/tmp/glow", gives exactly those four field values |
| Env.MergeVars | crates/glow-executors/src/env.rs:76-78 | a right-biased merge: the keys are the union, keys of the right map take its values, and the others keep theirs |
| Env.ExecutionEnv.constructor | crates/glow-executors/src/env.rs:59-61 | no variables and the default document context |
| Env.ExecutionEnv.FromDocument | crates/glow-executors/src/env.rs:65-67 | no variables, and the given context |
| Env.ExecutionEnv.Get | crates/glow-executors/src/env.rs:88-90 | present exactly when the key is set, and then its value |
| Env.ExecutionEnv.ContainsKey | crates/glow-executors/src/env.rs:82-84 | true exactly when `Get` finds the key |
| Env.ExecutionEnv.WorkingDir | crates/glow-executors/src/env.rs:108-110 | the context's working directory |
| Env.ExecutionEnv.Insert | crates/glow-executors/src/env.rs:70-72 | the key now maps to the value; every other key and the context are unchanged |
| Env.ExecutionEnv.Merge | crates/glow-executors/src/env.rs:76-78 | the variables become the right-biased merge with the other map |
| Env.ExecutionEnv.WithOverrides | crates/glow-executors/src/env.rs:101-104 | the same as `Merge`, returning the environment itself |
| Env.MergeExample | crates/glow-executors/src/env.rs:130-144 | the merge of the crate's test gives value1, overridden and value3 |
| Executors.Launch | crates/glow-executors/src/executors/claude/mod.rs:189-194 | fails with `SpawnFailed` carrying the operating system's message exactly when the launch fails. Otherwise the child records the command, directory and variables, with no exit signal and an interrupt sender |
| Executors.DefaultAvailabilityInfo | crates/glow-executors/src/executors/mod.rs:121-126 | `InstallationFound` exactly when the configuration is found, else `NotFound`, never `Available` |
| Executors.DefaultSetupHelperAction | crates/glow-executors/src/executors/mod.rs:114-116 | refuses with `SetupHelperNotSupported` |
| Agents.BaseAgent | crates/glow-executors/src/executors/mod.rs:159-163 | the kind of an agent. Claude Code is the only kind, so the type has one value and no contract can say more; `DefaultDocumentAgent` states the crate test's `base_agent` assertion (`executors/mod.rs:188`) |
| Agents.BaseAgentName | crates/glow-executors/src/executors/mod.rs:137-145 | the screaming-snake-case name strum gives the kind. `ParseBaseAgent` accepts exactly this name, and `ParseBaseAgentName` proves that parsing inverts naming |
| Agents.DisplayName | crates/glow-executors/src/executors/mod.rs:167-171 | "Claude Code" |
| Agents.ParseBaseAgent | crates/glow-executors/src/executors/mod.rs:137-145 | only the exact serialised name "CLAUDE_CODE" parses, and it names what it parses to |
| Agents.ParseBaseAgentName | crates/glow-executors/src/executors/mod.rs:192-195 | parsing inverts naming |
| Agents.DefaultDocumentAgent | crates/glow-executors/src/executors/mod.rs:174-178 | Claude Code with its default configuration |
| Agents.UseApprovals | crates/glow-executors/src/executors/claude/mod.rs:162-164 | dispatches to Claude Code's `use_approvals` override, which sets `approvals` and nothing else; the trait's no-op default at `executors/mod.rs:53` is never reached |
| Agents.Spawn | crates/glow-executors/src/executors/mod.rs:64-69 | dispatches to Claude Code's `spawn` |
| Agents.SpawnFollowUp | crates/glow-executors/src/executors/mod.rs:78-84 | dispatches to Claude Code's `spawn_follow_up` |
| Agents.SpawnReview | crates/glow-executors/src/executors/mod.rs:89-100 | a session id delegates to the follow-up with that id, none to a new spawn |
| Agents.SpawnReviewResumesIffSession | crates/glow-executors/src/executors/mod.rs:89-100 | a review's command line carries one `--resume=` option exactly when a session is given, and none otherwise; its last argument is the wrapped prompt |
| Agents.GetAvailabilityInfo | crates/glow-executors/src/executors/claude/mod.rs:246-261 | Claude Code's own availability probe |
| Agents.GetSetupHelperAction | crates/glow-executors/src/executors/claude/mod.rs:238-244 | Claude Code's own setup helper, which differs from the default refusal |
| Claude.NewClaudeCode | crates/glow-executors/src/executors/claude/mod.rs:70-72 | every option absent and the default prompt wrapping |
| Claude.WithModel | crates/glow-executors/src/executors/claude/mod.rs:76-79 | sets the model and nothing else |
| Claude.WithPlanMode | crates/glow-executors/src/executors/claude/mod.rs:83-86 | sets plan mode and nothing else |
| Claude.WithSystemPrompt | crates/glow-executors/src/executors/claude/mod.rs:90-93 | sets the system prompt and nothing else |
| Claude.UseApprovals | crates/glow-executors/src/executors/claude/mod.rs:162-164 | sets approvals to true and nothing else |
| Claude.BuilderExample | crates/glow-executors/src/executors/claude/mod.rs:269-274 | the builder chain of the crate's test sets the model and plan mode |
| Claude.OptionArgs | crates/glow-executors/src/executors/claude/mod.rs:111-124 | the option arguments of `build_command`. `ArgvOptionOrder` proves their order is model, resume, system prompt; `ResumeCount` proves there is one `--resume=` exactly when a session is given |
| Claude.Argv | crates/glow-executors/src/executors/claude/mod.rs:96-137 | the argument vector of `build_command`. `BuildCommand` returns it, `ArgvLayout` states its layout and length, and `ArgvIgnoresFlags` proves which fields it ignores |
| Claude.OptionArg | crates/glow-executors/src/executors/claude/mod.rs:111-124 | an option contributes `prefix + value` exactly when it is set |
| Claude.BuildCommand | crates/glow-executors/src/executors/claude/mod.rs:96-137 | `npx` with exactly the argument vector `Argv` |
| Claude.ArgvLayout | crates/glow-executors/src/executors/claude/mod.rs:96-137 | the six fixed arguments come first, then the set options, then `-p` and the prompt last; the length is six, plus the number of set options, plus two |
| Claude.ArgvOptionOrder | crates/glow-executors/src/executors/claude/mod.rs:111-124 | with every option set, they come in the order model, resume, system prompt |
| Claude.ResumeCount | crates/glow-executors/src/executors/claude/mod.rs:116-119 | among the options there is one `--resume=` exactly when a session is given, and none otherwise |
| Claude.ArgvIgnoresFlags | crates/glow-executors/src/executors/claude/mod.rs:96-137 | plan mode, approvals, the router, the permission flag and the API-key flag do not affect the command line |
| Claude.Spawn | crates/glow-executors/src/executors/claude/mod.rs:166-195 | launches the command for the wrapped prompt and no session in the given directory with the environment's variables; a launch failure is `SpawnFailed` |
| Claude.SpawnFollowUp | crates/glow-executors/src/executors/claude/mod.rs:197-226 | the same with the session to resume |
| Claude.SpawnStartsNewSession | crates/glow-executors/src/executors/claude/mod.rs:178-179 | a new conversation carries no `--resume=` and ends with the wrapped prompt |
| Claude.FollowUpResumesSession | crates/glow-executors/src/executors/claude/mod.rs:210-211 | a follow-up carries exactly one `--resume=`, naming the session, and ends with the wrapped prompt |
| Claude.SystemPromptMentionsTool | crates/glow-executors/src/executors/claude/mod.rs:277-281 | the feedback system prompt contains "document feedback assistant" and "suggest_edit" |
| Claude.JoinPath | crates/glow-executors/src/executors/claude/mod.rs:235 | `PathBuf::join` with a relative name: the name comes last, after the base and at most one added '/'. A non-empty base is always followed by a separator, and a base that already ends in '/' gets no second one |
| Claude.DefaultMcpConfigPath | crates/glow-executors/src/executors/claude/mod.rs:234-236 | `.claude.json` joined onto the home directory as a path, present exactly when there is a home directory |
| Claude.DefaultMcpConfigPathExamples | crates/glow-executors/src/executors/claude/mod.rs:234-236 | homes "/home/u" and "/home/u/" both give "/home/u/.claude.json", "/" gives "/.claude.json", and no home gives no path |
| Claude.GetAvailabilityInfo | crates/glow-executors/src/executors/claude/mod.rs:246-261 | `Available` exactly when the configuration file exists. Otherwise it is `InstallationFound` exactly when `npx --version` succeeds, else `NotFound` |
| Claude.SetupHelperAction | crates/glow-executors/src/executors/claude/mod.rs:238-244 | the install-and-authenticate instructions, with their command and documentation link |
| Profile.NewProfileId | crates/glow-executors/src/profile.rs:21-23 | the executor with no variant |
| Profile.ProfileIdWithVariant | crates/glow-executors/src/profile.rs:27-29 | the executor with the given variant |
| Profile.VariantName | crates/glow-executors/src/profile.rs:33-35 | the variant if present, else "DEFAULT" |
| Profile.VariantNameExample | crates/glow-executors/src/profile.rs:131-137 | the crate's test values: "DEFAULT" and "PLAN" |
| Profile.ExecutorConfig.constructor | crates/glow-executors/src/profile.rs:48-52 | exactly one key, "DEFAULT", mapped to the agent, so the default lookup finds it |
| Profile.ExecutorConfig.AddVariant | crates/glow-executors/src/profile.rs:55-57 | the name now maps to the agent, even "DEFAULT"; every other variant is unchanged |
| Profile.ExecutorConfig.Get | crates/glow-executors/src/profile.rs:61-63 | present exactly when the variant is configured, and then its agent |
| Profile.ExecutorConfig.GetDefault | crates/glow-executors/src/profile.rs:67-69 | the lookup of "DEFAULT" |
| Profile.ExecutorConfigs.constructor | crates/glow-executors/src/profile.rs:82-84 | no executors |
| Profile.ExecutorConfigs.Add | crates/glow-executors/src/profile.rs:109-111 | the executor now maps to the configuration |
| Profile.ExecutorConfigs.Get | crates/glow-executors/src/profile.rs:115-117 | present exactly when the executor is configured, and then its configuration |
| Profile.ExecutorConfigs.GetAgent | crates/glow-executors/src/profile.rs:121-123 | present exactly when the executor is configured and has the profile's variant name, and then that agent |
| Profile.DefaultProfileSelectsDefault | crates/glow-executors/src/profile.rs:121-123 | a profile without a variant selects the default agent, and one with "PLAN" the plan agent |
| Documents.DocumentMetadata.constructor | crates/glow-core/src/document.rs:62-65 | the given title, version 1, created and modified at the same time |
| Documents.DocumentMetadata.Default | crates/glow-core/src/document.rs:74-78 | the same with the title "Untitled" |
| Documents.DocumentMetadata.Touch | crates/glow-core/src/document.rs:68-71 | increments the version by exactly one and updates the modified time, keeping the title and creation time |
| Documents.Document.constructor | crates/glow-core/src/document.rs:100-107 | empty content, title "Untitled", version 1 and no CRDT state |
| Documents.Document.WithTitle | crates/glow-core/src/document.rs:111-118 | empty content, the given title, version 1 and no CRDT state |
| Documents.Document.SetContent | crates/glow-core/src/document.rs:121-124 | sets the content and increments the version by one, keeping the title and the CRDT state |
| Documents.Document.SetTitle | crates/glow-core/src/document.rs:127-130 | sets the title and increments the version by one |
| Documents.NewDocumentThenEdit | crates/glow-core/src/document.rs:158-164 | the crate's test: setting the content of a new document gives that content and version 2 |
| Approvals.IsApproved | crates/glow-executors/src/approvals.rs:24-26 | true exactly for `Approved`, so false for denied and timed-out requests |
| Approvals.NoopRequestApproval | crates/glow-executors/src/approvals.rs:71-78 | every request is approved |
| Approvals.NoopIgnoresRequest | crates/glow-executors/src/approvals.rs:71-78 | the answer does not depend on the request |
| Protocol.DefaultProtocolVersion | crates/glow-executors/src/executors/claude/protocol.rs:37-39 | "1.0" |
| Protocol.AllowResult | crates/glow-executors/src/executors/claude/protocol.rs:114-116 | allow, with neither updated input nor updated permissions |
| Protocol.DenyResult | crates/glow-executors/src/executors/claude/protocol.rs:120-122 | deny with the message and no interrupt |
| Protocol.DenyAndInterrupt | crates/glow-executors/src/executors/claude/protocol.rs:126-128 | deny with the message and interrupt set |
| Strings.IndexOf | crates/glow-executors/src/executors/claude/log_processor.rs:192 | the first position of the character, present exactly when the string contains it |
| Strings.Trim | crates/glow-executors/src/executors/claude/log_processor.rs:193 | the part of the string between its leading and trailing whitespace, starting and ending with a non-whitespace character |
| Strings.TrimEmptyIffAllWhitespace | crates/glow-executors/src/executors/claude/log_processor.rs:193-196 | a line trims to nothing, and is then skipped, exactly when it is all whitespace |
| Strings.TrimKeepsAbsentChar | crates/glow-executors/src/executors/claude/log_processor.rs:193 | trimming adds no character, so a framed line stays newline-free |
| Strings.Join | crates/glow-bridge/src/api/feedback.rs:294 | no parts join to nothing, one part to itself, and more parts to at least their separators |
| Strings.JoinEmptyIff | crates/glow-bridge/src/api/feedback.rs:294-299 | a one-character join is empty exactly for no parts or one empty part |
| Strings.ToLowerAscii | crates/glow-bridge/src/api/feedback.rs:62 | every ASCII capital lower-cased and every other character kept |
| Json.StrField | crates/glow-executors/src/executors/claude/log_processor.rs:370-372 | a field that is present and holds a string, and that string |

## Left out

- JSON decoding and serialisation are not modelled. The records are Dafny datatypes. The `Codec` parameter's `decode` stands for `serde_json::from_str`, and `encodeEdit` for the serialised edit stored as an entry's content.
- The clock, UUIDs and the temporary directory are not modelled: they are the parameters `now`, `id`/`sessionId` and `tempDir`. One `now` serves a whole call, so the entries of one run share a timestamp.
- Process I/O is not modelled: spawning, `kill_on_drop`, reading stdout and stderr, `wait`, `apply_to_command` and the file and `npx` probes. The spawn outcome, the stdout lines, their availability, the exit status and the probe answers are inputs. Draining stderr adds nothing to the store, so it is not modelled.
- The spawn error pushed by a run is the operating system's message, which the model takes as given. The production text of `SpawnFailed` is not modelled.
- Concurrency is not modelled: tokio tasks, the session and store locks, the broadcast channel's capacity, lag and drop behaviour, and the WebSocket `select!` loop. The broadcast is a sequential record of what was sent. Of the streaming endpoint only the history replay is modelled.
- The `total_cost_usd` field of a result record is floating point and only logged: left out.
- Protocol records that the processor never inspects are left out: the content of `message_start` and `message_delta` events and the initialisation requests. The line reader and writer of `ProtocolPeer` are I/O and left out too.
- `use_approvals` receives an approval service and only flips the `approvals` flag. The service itself is not kept, in the source or in the model.
- Not modelled, as I/O: the HTTP and WebSocket routing, server setup, the CRDT layer, SQLite storage, the desktop commands, `ExecutorConfigs::load_from_file`, `default_config_dir` and `user_profiles_path`.
- Strings.ToLowerAscii: lower-cases ASCII letters only, where the source uses Unicode `to_lowercase`. The choice of executor does not depend on the result, since every name selects the same executor.
- Documents.DocumentMetadata.Touch: the version is an unbounded integer, so the overflow of the source's `u64` after 2^64 - 1 edits is not modelled.
- Json.Value: numbers are integers, since floating point is not modelled.
