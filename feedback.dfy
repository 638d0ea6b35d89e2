/**
 * The feedback endpoints of the bridge: creating a session, running the agent
 * for it, reporting its status, cancelling it, and turning its log into
 * stream messages.
 */
module FeedbackApi {
  import opened Wrappers
  import opened Strings
  import opened Logs
  import opened LogProcessor
  import Types
  import Env
  import Claude
  import Agents
  import Executors
  import Errors
  import BridgeState

  /** The answer of an endpoint whose session id is not registered. */
  datatype HttpError = NotFound

  /** The body of a request to create feedback. */
  datatype CreateFeedbackRequest = CreateFeedbackRequest(
    documentId: string,
    documentContent: string,
    documentTitle: Option<string>,
    selectedText: string,
    instruction: string,
    executor: string,
    commentId: string,
    sessionId: Option<string>)

  // ---------------------------------------------------------------------------
  // Executor selection and session creation
  // ---------------------------------------------------------------------------

  /** The agent every feedback session runs: Claude Code's defaults plus the feedback system prompt. */
  function FeedbackExecutor(): (agent: Agents.DocumentAgent)
    ensures agent.config.systemPrompt == Some(Claude.DocumentFeedbackSystemPrompt)
    ensures agent.config.(systemPrompt := None) == Claude.NewClaudeCode()
  {
    Agents.ClaudeCode(Claude.NewClaudeCode().(systemPrompt := Some(Claude.DocumentFeedbackSystemPrompt)))
  }

  /** The names that select Claude Code explicitly, after lower-casing. */
  predicate IsClaudeName(name: string) {
    name == "claude" || name == "claude_code" || name == "claudecode"
  }

  /**
   * Executor selection: a Claude name selects Claude Code, and every other
   * name falls back to Claude Code too, so the requested name has no effect.
   */
  function SelectExecutor(executor: string): (agent: Agents.DocumentAgent)
    ensures agent == FeedbackExecutor()
  {
    if IsClaudeName(ToLowerAscii(executor)) then FeedbackExecutor() else FeedbackExecutor()
  }

  /**
   * `create_feedback`: registers a pending session under the freshly drawn
   * `sessionId`, builds the request its run will work on, and answers at once
   * that the feedback is being processed. Starting the run in the background
   * is the caller's next step (`RunFeedbackSession`).
   */
  method CreateFeedback(app: BridgeState.AppState, req: CreateFeedbackRequest, sessionId: string)
    returns (response: Types.FeedbackResponse, session: BridgeState.FeedbackSession, request: Types.FeedbackRequest)
    requires app.Valid()
    modifies app
    ensures app.Valid() && app.sessions == old(app.sessions)[sessionId := session]
    ensures fresh(session) && fresh(session.msgStore)
    ensures session.id == sessionId && session.commentId == req.commentId && session.documentId == req.documentId
    ensures session.executor == FeedbackExecutor()
    ensures session.state == BridgeState.Pending && session.trace == [BridgeState.Pending]
    ensures session.msgStore.Valid() && session.msgStore.history == []
    ensures response == Types.FeedbackResponse(sessionId, Types.Processing, None, [], sessionId, None)
    ensures request == Types.FeedbackRequest(req.documentId, req.documentContent, req.documentTitle,
      req.selectedText, Types.TextRange(0, 0, ""), req.instruction, req.executor, req.commentId, req.sessionId)
  {
    var executor := SelectExecutor(req.executor);
    session := app.CreateSession(req.commentId, req.documentId, executor, sessionId);
    request := Types.FeedbackRequest(req.documentId, req.documentContent, req.documentTitle,
      req.selectedText, Types.TextRange(0, 0, ""), req.instruction, req.executor, req.commentId, req.sessionId);
    response := Types.FeedbackResponse(session.id, Types.Processing, None, [], session.id, None);
  }

  // ---------------------------------------------------------------------------
  // The prompt
  // ---------------------------------------------------------------------------

  /** The fixed wording of the prompt around its four fields. */
  datatype PromptText = PromptText(head: string, idLabel: string, selectionLabel: string, instructionLabel: string, tail: string)

  const FeedbackPromptText := PromptText(
    "DOCUMENT CONTEXT:\nTitle: ",
    "\nDocument ID: ",
    "\n\nSELECTED TEXT:\n",
    "\n\nUSER INSTRUCTION:\n",
    "\n\nPlease analyze the selected text according to the user's instruction and provide helpful feedback. If you have specific text improvements to suggest, use the suggest_edit tool.")

  /** The title shown to the agent: the document's, or "Untitled". */
  function TitleOrUntitled(title: Option<string>): (t: string)
    ensures title.Some? ==> t == title.value
    ensures title.None? ==> t == "Untitled"
  {
    title.UnwrapOr("Untitled")
  }

  /** The pieces of a prompt: the labelled title, document id, selection and instruction, in this order. */
  function PromptParts(text: PromptText, request: Types.FeedbackRequest): seq<string> {
    [text.head, TitleOrUntitled(request.documentTitle), text.idLabel, request.documentId,
     text.selectionLabel, request.selectedText, text.instructionLabel, request.instruction, text.tail]
  }

  function Prompt(text: PromptText, request: Types.FeedbackRequest): string {
    Concat(PromptParts(text, request))
  }

  /** `build_feedback_prompt`. */
  function BuildFeedbackPrompt(request: Types.FeedbackRequest): string {
    Prompt(FeedbackPromptText, request)
  }

  /**
   * Whatever its fixed wording, a prompt holds the title, the document id,
   * the selected text and the instruction in this order, each right after
   * its label, and ends with the closing request.
   */
  lemma PromptLayout(text: PromptText, request: Types.FeedbackRequest)
    ensures var p := Prompt(text, request);
      var t := TitleOrUntitled(request.documentTitle);
      var atTitle := |text.head|;
      var atId := atTitle + |t| + |text.idLabel|;
      var atSelection := atId + |request.documentId| + |text.selectionLabel|;
      var atInstruction := atSelection + |request.selectedText| + |text.instructionLabel|;
      && ContainsAt(p, t, atTitle)
      && ContainsAt(p, request.documentId, atId)
      && ContainsAt(p, request.selectedText, atSelection)
      && ContainsAt(p, request.instruction, atInstruction)
      && |p| == atInstruction + |request.instruction| + |text.tail|
  {
    PromptOffsets(PromptParts(text, request));
    PartAt(text, request, 1);
    PartAt(text, request, 3);
    PartAt(text, request, 5);
    PartAt(text, request, 7);
  }

  /** The fixed wording of a prompt: the header first, each label right before its field, the closing request last. */
  lemma PromptWordingLayout(text: PromptText, request: Types.FeedbackRequest)
    ensures var p := Prompt(text, request);
      var t := TitleOrUntitled(request.documentTitle);
      var atId := |text.head| + |t| + |text.idLabel|;
      var atSelection := atId + |request.documentId| + |text.selectionLabel|;
      var atInstruction := atSelection + |request.selectedText| + |text.instructionLabel|;
      && ContainsAt(p, text.head, 0)
      && ContainsAt(p, text.idLabel, |text.head| + |t|)
      && ContainsAt(p, text.selectionLabel, atId + |request.documentId|)
      && ContainsAt(p, text.instructionLabel, atSelection + |request.selectedText|)
      && ContainsAt(p, text.tail, atInstruction + |request.instruction|)
  {
    PromptOffsets(PromptParts(text, request));
    PartAt(text, request, 0);
    PartAt(text, request, 2);
    PartAt(text, request, 4);
    PartAt(text, request, 6);
    PartAt(text, request, 8);
  }

  /** Where each of nine parts starts, and how long they are together. */
  lemma PromptOffsets(parts: seq<string>)
    requires |parts| == 9
    ensures |Concat(parts[..0])| == 0
    ensures |Concat(parts[..1])| == |parts[0]|
    ensures |Concat(parts[..2])| == |parts[0]| + |parts[1]|
    ensures |Concat(parts[..3])| == |parts[0]| + |parts[1]| + |parts[2]|
    ensures |Concat(parts[..4])| == |parts[0]| + |parts[1]| + |parts[2]| + |parts[3]|
    ensures |Concat(parts[..5])| == |parts[0]| + |parts[1]| + |parts[2]| + |parts[3]| + |parts[4]|
    ensures |Concat(parts[..6])| == |parts[0]| + |parts[1]| + |parts[2]| + |parts[3]| + |parts[4]| + |parts[5]|
    ensures |Concat(parts[..7])| == |parts[0]| + |parts[1]| + |parts[2]| + |parts[3]| + |parts[4]| + |parts[5]| + |parts[6]|
    ensures |Concat(parts[..8])| == |parts[0]| + |parts[1]| + |parts[2]| + |parts[3]| + |parts[4]| + |parts[5]| + |parts[6]| + |parts[7]|
    ensures |Concat(parts)| == |parts[0]| + |parts[1]| + |parts[2]| + |parts[3]| + |parts[4]| + |parts[5]| + |parts[6]| + |parts[7]| + |parts[8]|
  {
    assert parts[..0] == [];
    TakeAll(parts);
    ConcatPrefixLength(parts, 0);
    ConcatPrefixLength(parts, 1);
    ConcatPrefixLength(parts, 2);
    ConcatPrefixLength(parts, 3);
    ConcatPrefixLength(parts, 4);
    ConcatPrefixLength(parts, 5);
    ConcatPrefixLength(parts, 6);
    ConcatPrefixLength(parts, 7);
    ConcatPrefixLength(parts, 8);
  }

  /** The `k`-th piece of a prompt sits where the pieces before it end. */
  lemma PartAt(text: PromptText, request: Types.FeedbackRequest, k: nat)
    requires k < 9
    ensures ContainsAt(Prompt(text, request), PromptParts(text, request)[k], |Concat(PromptParts(text, request)[..k])|)
  {
    ConcatLayout(PromptParts(text, request), k);
  }

  // ---------------------------------------------------------------------------
  // Running a session
  // ---------------------------------------------------------------------------

  /** Lines as read from a stream: none contains a newline. */
  predicate NewlineFree(lines: seq<string>) {
    forall k :: 0 <= k < |lines| ==> '\n' !in lines[k]
  }

  /**
   * The command line `run_feedback_session` launches directly: the fixed
   * arguments, then `-p` and the prompt. It passes neither a model, nor a
   * session to resume, nor the system prompt of the session's executor.
   */
  function InlineArgv(prompt: string): seq<string> {
    [ "-y",
      "@anthropic-ai/claude-code@2.1.7",
      "--output-format=stream-json",
      "--verbose",
      "--include-partial-messages",
      "--permission-mode=bypassPermissions",
      "-p",
      prompt ]
  }

  /**
   * The inline command line is what `build_command` gives for a default
   * configuration and no session, so it differs from the command line of the
   * executor that `create_feedback` selected, which carries the system prompt.
   */
  lemma InlineArgvIgnoresExecutor(prompt: string)
    ensures InlineArgv(prompt) == Claude.Argv(Claude.NewClaudeCode(), prompt, None)
    ensures |Claude.Argv(FeedbackExecutor().config, prompt, None)| == |InlineArgv(prompt)| + 1
    ensures InlineArgv(prompt) != Claude.Argv(FeedbackExecutor().config, prompt, None)
  {
    assert Claude.BaseArgs[1] == "@anthropic-ai/claude-code@2.1.7";
    assert Claude.OptionArgs(Claude.NewClaudeCode(), None) == [];
    Claude.ArgvLayout(FeedbackExecutor().config, prompt, None);
  }

  /** The document context built for a run: the request's document, in `tempDir`. */
  function FeedbackDocumentContext(request: Types.FeedbackRequest, tempDir: string): (d: Env.DocumentContext)
    ensures d.documentId == request.documentId && d.documentContent == request.documentContent
    ensures d.documentTitle == request.documentTitle && d.workingDir == tempDir
  {
    var d := Env.WithWorkingDir(Env.NewDocumentContext(request.documentId, request.documentContent), tempDir);
    if request.documentTitle.Some? then d.(documentTitle := request.documentTitle) else d
  }

  /**
   * What a run pushes when its process started and its standard output could
   * be read: every line handled as a framed line, from a fresh processor, then
   * the final flush.
   */
  function StdoutOutput(lines: seq<string>, now: int, codec: Codec): seq<LogMsg> {
    var a := LinesStep(InitialState(), lines, now, codec);
    a.out + FlushStep(a.st, [], now, codec).out
  }

  /** What a run pushes to the session's store. */
  function RunOutput(spawnError: Option<string>, stdoutAvailable: bool, lines: seq<string>, now: int, codec: Codec): (out: seq<LogMsg>)
    ensures spawnError.Some? ==> out == [LogMsg.Error(spawnError.value)]
    ensures spawnError.None? && stdoutAvailable ==> out == StdoutOutput(lines, now, codec)
    ensures spawnError.None? && !stdoutAvailable ==> out == []
  {
    match spawnError
    case Some(e) => [LogMsg.Error(e)]
    case None => if stdoutAvailable then StdoutOutput(lines, now, codec) else []
  }

  /** The state a run ends in: completed exactly when the process started and exited successfully. */
  function FinalState(spawnError: Option<string>, exitSuccess: bool): (s: BridgeState.SessionState)
    ensures s == BridgeState.Completed <==> spawnError.None? && exitSuccess
    ensures s == BridgeState.Failed <==> spawnError.Some? || !exitSuccess
  {
    if spawnError.None? && exitSuccess then BridgeState.Completed else BridgeState.Failed
  }

  /** Feeds one stdout line as the line itself and then a newline. */
  method FeedLine(p: ClaudeLogProcessor, line: string, now: int)
    requires p.msgStore.Valid() && p.buffer == [] && '\n' !in line
    modifies p, p.msgStore
    ensures p.buffer == []
    ensures p.State() == FramedLineStep(old(p.State()), line, now, p.codec).st
    ensures p.msgStore.Extends(old(p.msgStore.history), old(p.msgStore.sent), old(p.msgStore.subscribers),
                               FramedLineStep(old(p.State()), line, now, p.codec).out)
  {
    FeedLineSteps(p.State(), line, now, p.codec);
    p.ProcessChunk(line, now);
    assert p.msgStore.history == old(p.msgStore.history) && p.msgStore.sent == old(p.msgStore.sent);
    p.ProcessChunk("\n", now);
  }

  /**
   * With an empty buffer, a newline-free line pushes nothing and is only
   * buffered; the newline after it then handles it as one framed line and
   * empties the buffer.
   */
  lemma FeedLineSteps(s: ProcState, line: string, now: int, codec: Codec)
    requires '\n' !in line
    ensures Frame([] + line) == Framed([], line)
    ensures ChunkStep(s, [], line, now, codec) == Step(s, [])
    ensures Frame(line + "\n") == Framed([line], [])
    ensures ChunkStep(s, line, "\n", now, codec) == FramedLineStep(s, line, now, codec)
  {
    assert [] + line == line;
    FrameOneLine(line);
    var b := FramedLineStep(s, line, now, codec);
    assert [line][..0] == [];
    assert LinesStep(s, [line], now, codec) == Step(b.st, [] + b.out);
    assert [] + b.out == b.out;
  }

  /** The stdout loop: every line fed in order through the processor. */
  method FeedStdout(p: ClaudeLogProcessor, lines: seq<string>, now: int)
    requires p.msgStore.Valid() && p.buffer == [] && NewlineFree(lines)
    modifies p, p.msgStore
    ensures p.buffer == []
    ensures p.State() == LinesStep(old(p.State()), lines, now, p.codec).st
    ensures p.msgStore.Extends(old(p.msgStore.history), old(p.msgStore.sent), old(p.msgStore.subscribers),
                               LinesStep(old(p.State()), lines, now, p.codec).out)
  {
    ghost var s0 := p.State();
    for i := 0 to |lines|
      invariant p.buffer == []
      invariant p.State() == LinesStep(s0, lines[..i], now, p.codec).st
      invariant p.msgStore.Extends(old(p.msgStore.history), old(p.msgStore.sent), old(p.msgStore.subscribers),
                                   LinesStep(s0, lines[..i], now, p.codec).out)
    {
      ghost var a := LinesStep(s0, lines[..i], now, p.codec);
      ghost var b := FramedLineStep(a.st, lines[i], now, p.codec);
      FeedLine(p, lines[i], now);
      TakeSnoc(lines, i);
      LinesStepSnoc(s0, lines[..i], lines[i], now, p.codec);
      ConcatAssoc(old(p.msgStore.history), a.out, b.out);
      ConcatAssoc(old(p.msgStore.sent), a.out, b.out);
    }
    TakeAll(lines);
  }

  /** Reads a whole standard output through a fresh processor, then flushes it. */
  method ProcessStdout(store: MsgStore, codec: Codec, lines: seq<string>, now: int)
    requires store.Valid() && NewlineFree(lines)
    modifies store
    ensures store.Extends(old(store.history), old(store.sent), old(store.subscribers), StdoutOutput(lines, now, codec))
  {
    var processor := new ClaudeLogProcessor(store, codec);
    FeedStdout(processor, lines, now);
    ghost var a := LinesStep(InitialState(), lines, now, codec);
    ghost var f := FlushStep(a.st, [], now, codec);
    processor.Flush(now);
    ConcatAssoc(old(store.history), a.out, f.out);
    ConcatAssoc(old(store.sent), a.out, f.out);
  }

  /**
   * `run_feedback_session`. The session becomes `Running`, the prompt and the
   * document context are built, and the inline command is launched in
   * `tempDir` with `CI=true`; `spawnError` is the launch outcome. When the
   * process started, its standard output (`stdoutLines`, if it could be
   * taken) is fed through a processor into the session's store, and the
   * session then becomes `Completed` if the process exited successfully
   * (`exitSuccess`) and `Failed` otherwise. When the launch failed, the
   * session becomes `Failed` and the error is pushed to the store. None of
   * the assignments looks at the state the session is in.
   */
  method RunFeedbackSession(session: BridgeState.FeedbackSession, request: Types.FeedbackRequest, tempDir: string,
                            spawnError: Option<string>, stdoutAvailable: bool, stdoutLines: seq<string>,
                            exitSuccess: bool, now: int, codec: Codec)
    returns (spawned: Result<Executors.SpawnedChild, Errors.ExecutorError>)
    requires session.msgStore.Valid() && NewlineFree(stdoutLines)
    modifies session, session.msgStore
    ensures spawned == Executors.Launch(Executors.Command("npx", InlineArgv(BuildFeedbackPrompt(request))),
                                        tempDir, map["CI" := "true"], spawnError)
    ensures session.state == FinalState(spawnError, exitSuccess)
    ensures session.trace == old(session.trace) + [BridgeState.Running, FinalState(spawnError, exitSuccess)]
    ensures session.msgStore.Extends(old(session.msgStore.history), old(session.msgStore.sent), old(session.msgStore.subscribers),
                                     RunOutput(spawnError, stdoutAvailable, stdoutLines, now, codec))
  {
    spawned := StartFeedbackRun(session, request, tempDir, spawnError);
    FinishFeedbackRun(session, spawned, spawnError, stdoutAvailable, stdoutLines, exitSuccess, now, codec);
  }

  /** The first half of a run: the session becomes `Running` and the inline command is launched. */
  method StartFeedbackRun(session: BridgeState.FeedbackSession, request: Types.FeedbackRequest, tempDir: string,
                          spawnError: Option<string>)
    returns (spawned: Result<Executors.SpawnedChild, Errors.ExecutorError>)
    modifies session
    ensures spawned == Executors.Launch(Executors.Command("npx", InlineArgv(BuildFeedbackPrompt(request))),
                                        tempDir, map["CI" := "true"], spawnError)
    ensures session.state == BridgeState.Running
    ensures session.trace == old(session.trace) + [BridgeState.Running]
  {
    session.SetState(BridgeState.Running);
    var prompt := BuildFeedbackPrompt(request);
    var context := FeedbackDocumentContext(request, tempDir);
    var env := new Env.ExecutionEnv.FromDocument(context);
    var command := Executors.Command("npx", InlineArgv(prompt));
    var vars := Env.MergeVars(map["CI" := "true"], env.vars);
    assert vars == map["CI" := "true"];
    spawned := Executors.Launch(command, tempDir, vars, spawnError);
  }

  /**
   * The second half of a run, after the launch that `spawnError` describes:
   * the output is collected or the error pushed, and the final state set.
   */
  method FinishFeedbackRun(session: BridgeState.FeedbackSession, spawned: Result<Executors.SpawnedChild, Errors.ExecutorError>,
                           spawnError: Option<string>, stdoutAvailable: bool, stdoutLines: seq<string>,
                           exitSuccess: bool, now: int, codec: Codec)
    requires spawned.Err? <==> spawnError.Some?
    requires spawned.Err? ==> spawned.error == Errors.SpawnFailed(spawnError.value)
    requires session.msgStore.Valid() && NewlineFree(stdoutLines)
    modifies session, session.msgStore
    ensures session.state == FinalState(spawnError, exitSuccess)
    ensures session.trace == old(session.trace) + [FinalState(spawnError, exitSuccess)]
    ensures session.msgStore.Extends(old(session.msgStore.history), old(session.msgStore.sent), old(session.msgStore.subscribers),
                                     RunOutput(spawnError, stdoutAvailable, stdoutLines, now, codec))
  {
    match spawned {
      case Ok(_) =>
        if stdoutAvailable {
          ProcessStdout(session.msgStore, codec, stdoutLines, now);
        } else {
          AppendEmpty(session.msgStore.history);
          AppendEmpty(session.msgStore.sent);
        }
        session.SetState(if exitSuccess then BridgeState.Completed else BridgeState.Failed);
      case Err(e) =>
        session.SetState(BridgeState.Failed);
        session.msgStore.PushError(e.message);
    }
  }

  /** The standard output as one text: every line followed by a newline. */
  function Terminated(lines: seq<string>): string {
    if lines == [] then [] else Terminated(lines[..|lines| - 1]) + (lines[|lines| - 1] + "\n")
  }

  /** Newline-terminated lines frame back to exactly those lines, with nothing left over. */
  lemma {:induction false} FrameTerminated(lines: seq<string>)
    requires NewlineFree(lines)
    ensures Frame(Terminated(lines)) == Framed(lines, [])
  {
    if lines == [] {
      assert '\n' !in Terminated(lines);
    } else {
      var init, last := lines[..|lines| - 1], lines[|lines| - 1];
      assert NewlineFree(init);
      FrameTerminated(init);
      FrameAppend(Terminated(init), last + "\n");
      AppendEmpty(last + "\n");
      FrameOneLine(last);
      SplitLast(lines);
    }
  }

  /**
   * Feeding the standard output line by line, each line and then a newline,
   * pushes what feeding the whole output as a single chunk and then flushing
   * would push.
   */
  lemma StdoutAsOneChunk(lines: seq<string>, now: int, codec: Codec)
    requires NewlineFree(lines)
    ensures var c := ChunkStep(InitialState(), [], Terminated(lines), now, codec);
      && Frame([] + Terminated(lines)).rest == []
      && StdoutOutput(lines, now, codec) == c.out + FlushStep(c.st, [], now, codec).out
  {
    AppendEmpty(Terminated(lines));
    FrameTerminated(lines);
  }

  // ---------------------------------------------------------------------------
  // Status, cancellation and streaming
  // ---------------------------------------------------------------------------

  /** The status reported for a session state; a cancelled session reports `Failed`. */
  function StatusOf(s: BridgeState.SessionState): (r: Types.FeedbackStatus)
    ensures r == Types.Pending <==> s == BridgeState.Pending
    ensures r == Types.Processing <==> s == BridgeState.Running
    ensures r == Types.Completed <==> s == BridgeState.Completed
    ensures r == Types.Failed <==> s == BridgeState.Failed || s == BridgeState.Cancelled
  {
    match s
    case Pending => Types.Pending
    case Running => Types.Processing
    case Completed => Types.Completed
    case Failed => Types.Failed
    case Cancelled => Types.Failed
  }

  predicate IsAssistantEntry(m: LogMsg) {
    m.Entry? && m.entry.entryType == AssistantMessage
  }

  /** The contents of the assistant entries of a history, in history order. */
  function AssistantContents(history: seq<LogMsg>): (r: seq<string>)
    ensures |r| <= |history|
  {
    if history == [] then []
    else
      var last := history[|history| - 1];
      AssistantContents(history[..|history| - 1]) + (if IsAssistantEntry(last) then [last.entry.content] else [])
  }

  /** A history of one message contributes its content exactly when it is an assistant entry. */
  lemma AssistantContentsOne(m: LogMsg)
    ensures AssistantContents([m]) == if IsAssistantEntry(m) then [m.entry.content] else []
  {
    assert [m][..0] == [];
  }

  /** Collecting contents distributes over concatenation of histories. */
  lemma {:induction false} AssistantContentsAppend(a: seq<LogMsg>, b: seq<LogMsg>)
    ensures AssistantContents(a + b) == AssistantContents(a) + AssistantContents(b)
    decreases |b|
  {
    if b == [] {
      assert a + b == a;
    } else {
      InitOfAppend(a, b);
      AssistantContentsAppend(a, b[..|b| - 1]);
      var tail := if IsAssistantEntry(b[|b| - 1]) then [b[|b| - 1].entry.content] else [];
      ConcatAssoc(AssistantContents(a), AssistantContents(b[..|b| - 1]), tail);
    }
  }

  /**
   * The content reported for a history: the assistant contents joined by
   * newlines, or none when that join is empty — which happens exactly when
   * there is no assistant entry or a single one with empty content.
   */
  function ContentOf(history: seq<LogMsg>): (r: Option<string>)
    ensures r.Some? ==> r.value == Join(AssistantContents(history), "\n") && r.value != []
    ensures r.None? <==> AssistantContents(history) == [] || AssistantContents(history) == [""]
  {
    JoinEmptyIff(AssistantContents(history), "\n");
    var content := Join(AssistantContents(history), "\n");
    if content == [] then None else Some(content)
  }

  /** `get_feedback`: the status and reply content of a registered session. */
  method GetFeedback(app: BridgeState.AppState, id: string) returns (r: Result<Types.FeedbackResponse, HttpError>)
    ensures id !in app.sessions ==> r == Err(NotFound)
    ensures id in app.sessions ==>
      var s := app.sessions[id];
      r == Ok(Types.FeedbackResponse(s.id, StatusOf(s.state), ContentOf(s.msgStore.history), [], s.id, None))
  {
    var found := app.GetSession(id);
    match found {
      case None =>
        r := Err(NotFound);
      case Some(s) =>
        var history := s.msgStore.GetHistory();
        r := Ok(Types.FeedbackResponse(s.id, StatusOf(s.state), ContentOf(history), [], s.id, None));
    }
  }

  /** `cancel_feedback`: marks a registered session `Cancelled`, whatever its state; the process is left running. */
  method CancelFeedback(app: BridgeState.AppState, id: string) returns (r: Result<bool, HttpError>)
    modifies if id in app.sessions then {app.sessions[id]} else {}
    ensures id !in app.sessions ==> r == Err(NotFound)
    ensures id in app.sessions ==> r == Ok(true) && app.sessions[id].state == BridgeState.Cancelled
    ensures id in app.sessions ==> app.sessions[id].trace == old(app.sessions[id].trace) + [BridgeState.Cancelled]
  {
    var found := app.GetSession(id);
    match found {
      case None =>
        r := Err(NotFound);
      case Some(s) =>
        s.SetState(BridgeState.Cancelled);
        r := Ok(true);
    }
  }

  /**
   * A cancellation does not stick: a session cancelled before its run
   * finishes ends `Completed` or `Failed` like any other, and the run went
   * through `Running` after the cancellation.
   */
  method CancelIsOverwritten(app: BridgeState.AppState, id: string, request: Types.FeedbackRequest, tempDir: string,
                             spawnError: Option<string>, stdoutAvailable: bool, stdoutLines: seq<string>,
                             exitSuccess: bool, now: int, codec: Codec)
    returns (status: Result<Types.FeedbackResponse, HttpError>)
    requires id in app.sessions && app.sessions[id].msgStore.Valid() && NewlineFree(stdoutLines)
    modifies app.sessions[id], app.sessions[id].msgStore
    ensures status.Ok? && status.value.status == StatusOf(FinalState(spawnError, exitSuccess))
    ensures status.value.status == Types.Completed <==> spawnError.None? && exitSuccess
    ensures app.sessions[id].state != BridgeState.Cancelled
    ensures app.sessions[id].trace ==
      old(app.sessions[id].trace) + [BridgeState.Cancelled, BridgeState.Running, FinalState(spawnError, exitSuccess)]
  {
    var _ := CancelFeedback(app, id);
    var session := app.sessions[id];
    var _ := RunFeedbackSession(session, request, tempDir, spawnError, stdoutAvailable, stdoutLines, exitSuccess, now, codec);
    status := GetFeedback(app, id);
  }

  /**
   * A cancellation while the process runs does not stick either: the final
   * assignment after the process exits replaces `Cancelled` with `Completed`
   * or `Failed`.
   */
  method CancelDuringRun(app: BridgeState.AppState, id: string, request: Types.FeedbackRequest, tempDir: string,
                         spawnError: Option<string>, stdoutAvailable: bool, stdoutLines: seq<string>,
                         exitSuccess: bool, now: int, codec: Codec)
    returns (status: Result<Types.FeedbackResponse, HttpError>)
    requires id in app.sessions && app.sessions[id].msgStore.Valid() && NewlineFree(stdoutLines)
    modifies app.sessions[id], app.sessions[id].msgStore
    ensures status.Ok? && status.value.status == StatusOf(FinalState(spawnError, exitSuccess))
    ensures status.value.status == Types.Completed <==> spawnError.None? && exitSuccess
    ensures app.sessions[id].state != BridgeState.Cancelled
    ensures app.sessions[id].trace ==
      old(app.sessions[id].trace) + [BridgeState.Running, BridgeState.Cancelled, FinalState(spawnError, exitSuccess)]
  {
    var session := app.sessions[id];
    var spawned := StartFeedbackRun(session, request, tempDir, spawnError);
    var _ := CancelFeedback(app, id);
    FinishFeedbackRun(session, spawned, spawnError, stdoutAvailable, stdoutLines, exitSuccess, now, codec);
    status := GetFeedback(app, id);
  }

  /** The text a stream message carries, if any. */
  function StreamText(m: Types.StreamMessage): string {
    match m
    case Chunk(c) => c
    case Thinking(c) => c
    case Error(e) => e
    case Edit(_) => []
    case Complete => []
  }

  /**
   * `log_msg_to_stream_message`: assistant entries and other entries become
   * chunks, thinking entries thinking, error entries and error messages
   * errors, the end marker completion; raw lines and start markers become
   * empty chunks. An entry's content is always carried over.
   */
  function LogMsgToStreamMessage(m: LogMsg): (r: Types.StreamMessage)
    ensures r.Complete? <==> m.Ended?
    ensures r.Thinking? <==> m.Entry? && m.entry.entryType == ThinkingMessage
    ensures r.Error? <==> m.Error? || (m.Entry? && m.entry.entryType == ErrorMessage)
    ensures r.Chunk? <==> m.Raw? || m.Started? || (m.Entry? && m.entry.entryType != ThinkingMessage && m.entry.entryType != ErrorMessage)
    ensures !r.Edit?
    ensures m.Entry? ==> StreamText(r) == m.entry.content
    ensures m.Error? ==> StreamText(r) == m.message
    ensures m.Raw? || m.Started? ==> StreamText(r) == []
  {
    match m
    case Entry(entry) =>
      (match entry.entryType
       case AssistantMessage => Types.Chunk(entry.content)
       case ThinkingMessage => Types.Thinking(entry.content)
       case ErrorMessage => Types.Error(entry.content)
       case _ => Types.Chunk(entry.content))
    case Ended => Types.Complete
    case Error(e) => Types.Error(e)
    case _ => Types.Chunk([])
  }

  /** The history replay a streaming client receives first: every stored message, converted, in order. */
  method ReplayHistory(store: MsgStore) returns (msgs: seq<Types.StreamMessage>)
    ensures |msgs| == |store.history|
    ensures forall i :: 0 <= i < |msgs| ==> msgs[i] == LogMsgToStreamMessage(store.history[i])
  {
    var history := store.GetHistory();
    msgs := [];
    for i := 0 to |history|
      invariant |msgs| == i
      invariant forall j :: 0 <= j < i ==> msgs[j] == LogMsgToStreamMessage(history[j])
    {
      msgs := msgs + [LogMsgToStreamMessage(history[i])];
    }
  }
}
