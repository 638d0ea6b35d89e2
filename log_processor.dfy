/**
 * The Claude Code log processor: frames raw stdout chunks into lines, decodes
 * each line into a protocol record and normalizes the records into the
 * message store, coalescing streamed deltas into whole entries.
 *
 * The pure functions `ChunkStep`, `LineStep`, `MessageStep` and `FlushStep`
 * say what each operation does to the processor's state (`ProcState`) and
 * which messages it pushes (`Step.out`); the class `ClaudeLogProcessor`
 * performs the same operations in place and is proved against them.
 */
module LogProcessor {
  import opened Wrappers
  import opened Strings
  import Json
  import opened Logs
  import Types

  // ---------------------------------------------------------------------------
  // Protocol records (the shapes of the agent's line-delimited JSON)
  // ---------------------------------------------------------------------------

  datatype UserMessageBody = UserMessageBody(content: Option<string>)

  datatype AssistantMessageBody = AssistantMessageBody(content: seq<ContentBlock>, stopReason: Option<string>)

  /** A block of a complete assistant message. */
  datatype ContentBlock =
    | Text(text: string)
    | ToolUse(id: string, name: string, input: Json.Value)
    | Thinking(thinking: string)

  /** The block announced by a content-block-start event. */
  datatype ContentBlockInfo =
    | TextInfo(text: string)
    | ThinkingInfo(thinking: string)
    | ToolUseInfo(id: string, name: string, input: Json.Value)

  datatype DeltaContent =
    | TextDelta(text: string)
    | ThinkingDelta(thinking: string)
    | InputJsonDelta(partialJson: string)

  datatype StreamEventData =
    | MessageStart(startMessage: Option<Json.Value>)
    | ContentBlockStart(index: nat, contentBlock: Option<ContentBlockInfo>)
    | ContentBlockDelta(index: nat, delta: DeltaContent)
    | ContentBlockStop(index: nat)
    | MessageDelta(messageDelta: Option<Json.Value>, usage: Option<Json.Value>)
    | MessageStop

  /** One decoded line of the agent's output (the cost field of `Result` is not modelled). */
  datatype ClaudeMessage =
    | System(subtype: Option<string>, sessionId: Option<string>)
    | User(userMessage: Option<UserMessageBody>)
    | Assistant(assistantMessage: AssistantMessageBody, sessionId: Option<string>)
    | StreamEvent(event: StreamEventData, sessionId: Option<string>)
    | Result(subtype: Option<string>, result: Option<string>, sessionId: Option<string>, isError: bool)
    | Error(errorMessage: Option<string>, error: Option<string>)

  /**
   * The JSON library as the processor uses it: `decode` parses one line into a
   * record (None when the line does not match the schema) and `encodeEdit`
   * serializes a suggested edit into the content of its entry.
   */
  datatype Codec = Codec(decode: string -> Option<ClaudeMessage>, encodeEdit: Types.SuggestedEdit -> string)

  // ---------------------------------------------------------------------------
  // The processor's state and the specification of each operation
  // ---------------------------------------------------------------------------

  /**
   * What the processor keeps besides its line buffer: the text and thinking
   * accumulated from deltas, the edits collected so far, and whether any
   * content has been streamed.
   */
  datatype ProcState = ProcState(
    currentContent: string,
    currentThinking: string,
    suggestedEdits: seq<Types.SuggestedEdit>,
    hasStreamedContent: bool)

  /** A new state and the messages pushed on the way to it, in push order. */
  datatype Step = Step(st: ProcState, out: seq<LogMsg>)

  const SuggestEditTool := "suggest_edit"
  const UnknownError := "Unknown error"

  function InitialState(): (s: ProcState)
    ensures s.currentContent == [] && s.currentThinking == []
    ensures s.suggestedEdits == [] && !s.hasStreamedContent
  {
    ProcState([], [], [], false)
  }

  /**
   * The input of a `suggest_edit` call as an edit. Fails closed: both
   * `original_text` and `suggested_text` must be present strings;
   * `explanation` defaults to empty, the range to (0, 0, "") and both flags
   * to false.
   */
  function ParseSuggestedEdit(id: string, input: Json.Value): (r: Result<Types.SuggestedEdit, string>)
    ensures r.Ok? <==> Json.StrField(input, "original_text").Some? && Json.StrField(input, "suggested_text").Some?
    ensures Json.StrField(input, "original_text").None? ==> r == Err("missing original_text")
    ensures Json.StrField(input, "original_text").Some? && Json.StrField(input, "suggested_text").None? ==>
      r == Err("missing suggested_text")
    ensures r.Ok? ==>
      && r.value.id == id
      && r.value.originalText == input.fields["original_text"].s
      && r.value.suggestedText == input.fields["suggested_text"].s
      && r.value.explanation == (if "explanation" in input.fields && input.fields["explanation"].String?
                                 then input.fields["explanation"].s else "")
      && r.value.range == Types.TextRange(0, 0, "")
      && !r.value.applied && !r.value.rejected
  {
    match Json.StrField(input, "original_text")
    case None => Err("missing original_text")
    case Some(originalText) =>
      (match Json.StrField(input, "suggested_text")
       case None => Err("missing suggested_text")
       case Some(suggestedText) =>
         var explanation := Json.StrField(input, "explanation").UnwrapOr("");
         Ok(Types.SuggestedEdit(id, originalText, suggestedText, explanation,
                                Types.TextRange(0, 0, ""), false, false)))
  }

  /** Pushes the accumulated thinking if there is any and empties it; `mark` says whether that sets the streamed flag. */
  function DrainThinking(s: ProcState, now: int, mark: bool): Step {
    if s.currentThinking == [] then Step(s, [])
    else Step(s.(currentThinking := [], hasStreamedContent := s.hasStreamedContent || mark),
              [Entry(ThinkingEntry(s.currentThinking, now))])
  }

  /** Pushes the accumulated text if there is any and empties it; `mark` says whether that sets the streamed flag. */
  function DrainContent(s: ProcState, now: int, mark: bool): Step {
    if s.currentContent == [] then Step(s, [])
    else Step(s.(currentContent := [], hasStreamedContent := s.hasStreamedContent || mark),
              [Entry(AssistantMessageEntry(s.currentContent, now))])
  }

  /** One block of a complete assistant message. */
  function BlockStep(s: ProcState, b: ContentBlock, now: int, encodeEdit: Types.SuggestedEdit -> string): Step {
    match b
    case Text(text) =>
      if s.hasStreamedContent then Step(s, []) else Step(s, [Entry(AssistantMessageEntry(text, now))])
    case Thinking(thinking) =>
      if s.hasStreamedContent then Step(s, []) else Step(s, [Entry(ThinkingEntry(thinking, now))])
    case ToolUse(id, name, input) =>
      if name == SuggestEditTool then
        match ParseSuggestedEdit(id, input)
        case Ok(edit) =>
          Step(s.(suggestedEdits := s.suggestedEdits + [edit]),
               [Entry(NormalizedEntry(Some(now), NormalizedEntryType.SuggestedEdit, encodeEdit(edit), Some(input)))])
        case Err(_) => Step(s, [])
      else Step(s, [Entry(ToolCallEntry(name, input, now))])
  }

  /** The blocks of an assistant message, in order. */
  function BlocksStep(s: ProcState, blocks: seq<ContentBlock>, now: int, encodeEdit: Types.SuggestedEdit -> string): Step
  {
    if blocks == [] then Step(s, [])
    else
      var a := BlocksStep(s, blocks[..|blocks| - 1], now, encodeEdit);
      var b := BlockStep(a.st, blocks[|blocks| - 1], now, encodeEdit);
      Step(b.st, a.out + b.out)
  }

  /** A streaming event: deltas accumulate, a block stop drains, the other events do nothing. */
  function StreamEventStep(s: ProcState, event: StreamEventData, now: int): Step {
    match event
    case ContentBlockDelta(_, delta) =>
      var s1 := s.(hasStreamedContent := true);
      (match delta
       case TextDelta(text) => Step(s1.(currentContent := s.currentContent + text), [])
       case ThinkingDelta(thinking) => Step(s1.(currentThinking := s.currentThinking + thinking), [])
       case InputJsonDelta(_) => Step(s1, []))
    case ContentBlockStop(_) =>
      var a := DrainThinking(s, now, true);
      var b := DrainContent(a.st, now, true);
      Step(b.st, a.out + b.out)
    case _ => Step(s, [])
  }

  /** The final result record: drain thinking (marking), then text (not marking), then end the stream. */
  function ResultStep(s: ProcState, now: int): Step {
    var a := DrainThinking(s, now, true);
    var b := DrainContent(a.st, now, false);
    Step(b.st, a.out + b.out + [Ended])
  }

  /**
   * `handle_message`: what one decoded record does. No record removes a
   * collected edit or resets the streamed flag.
   */
  function MessageStep(s: ProcState, msg: ClaudeMessage, now: int, encodeEdit: Types.SuggestedEdit -> string): (r: Step)
    ensures s.suggestedEdits <= r.st.suggestedEdits
    ensures s.hasStreamedContent ==> r.st.hasStreamedContent
  {
    match msg
    case System(_, _) => Step(s, [])
    case User(body) =>
      if body.Some? && body.value.content.Some? then
        Step(s, [Entry(UserMessageEntry(body.value.content.value, now))])
      else Step(s, [])
    case Assistant(body, _) =>
      BlocksStateLemma(s, body.content, now, encodeEdit);
      BlocksStep(s, body.content, now, encodeEdit)
    case StreamEvent(event, _) => StreamEventStep(s, event, now)
    case Result(_, _, _, _) => ResultStep(s, now)
    case Error(message, error) =>
      Step(s, [Entry(ErrorEntry(message.Or(error).UnwrapOr(UnknownError), now))])
  }

  /**
   * `process_line`: a line that decodes is handled as its record; a line that
   * does not is kept verbatim as exactly one `Raw` message and nothing else
   * changes.
   */
  function LineStep(s: ProcState, line: string, now: int, codec: Codec): (r: Step)
    ensures codec.decode(line).None? ==> r == Step(s, [Raw(line)])
    ensures codec.decode(line).Some? ==> r == MessageStep(s, codec.decode(line).value, now, codec.encodeEdit)
    ensures s.suggestedEdits <= r.st.suggestedEdits
    ensures s.hasStreamedContent ==> r.st.hasStreamedContent
  {
    match codec.decode(line)
    case Some(msg) => MessageStep(s, msg, now, codec.encodeEdit)
    case None => Step(s, [Raw(line)])
  }

  /** A framed line is trimmed; a line that is empty after trimming is skipped. */
  function FramedLineStep(s: ProcState, line: string, now: int, codec: Codec): Step {
    var trimmed := Trim(line);
    if trimmed == [] then Step(s, []) else LineStep(s, trimmed, now, codec)
  }

  /** The framed lines, in order. */
  function LinesStep(s: ProcState, lines: seq<string>, now: int, codec: Codec): Step {
    if lines == [] then Step(s, [])
    else
      var a := LinesStep(s, lines[..|lines| - 1], now, codec);
      var b := FramedLineStep(a.st, lines[|lines| - 1], now, codec);
      Step(b.st, a.out + b.out)
  }

  // ---------------------------------------------------------------------------
  // Line framing
  // ---------------------------------------------------------------------------

  /** The lines cut off a buffer, and the unterminated text left in it. */
  datatype Framed = Framed(lines: seq<string>, rest: string)

  /**
   * The framing loop of `process_chunk`: while the buffer holds a newline,
   * cut off the text before it as the next line. What is left holds
   * no newline and is a suffix of the buffer.
   */
  function Frame(buffer: string): (r: Framed)
    ensures '\n' !in r.rest
    ensures IsSuffixOf(r.rest, buffer)
    ensures '\n' !in buffer ==> r == Framed([], buffer)
    decreases |buffer|
  {
    match IndexOf(buffer, '\n')
    case None => Framed([], buffer)
    case Some(pos) =>
      var f := Frame(buffer[pos + 1..]);
      SuffixOfDrop(buffer, pos + 1, f.rest);
      Framed([buffer[..pos]] + f.lines, f.rest)
  }

  /** `process_chunk`: the chunk is appended to the buffer `buffer`, which is then framed. */
  function ChunkStep(s: ProcState, buffer: string, chunk: string, now: int, codec: Codec): Step {
    LinesStep(s, Frame(buffer + chunk).lines, now, codec)
  }

  /**
   * `flush`: a non-empty leftover buffer is processed once, untrimmed; then the
   * accumulated thinking and text are pushed. Both accumulators end empty.
   */
  function FlushStep(s: ProcState, buffer: string, now: int, codec: Codec): (r: Step)
    ensures r.st.currentContent == [] && r.st.currentThinking == []
    ensures buffer == [] && s.currentThinking == [] && s.currentContent == [] ==> r == Step(s, [])
  {
    var a := if buffer != [] then LineStep(s, buffer, now, codec) else Step(s, []);
    var b := DrainPendingStep(a.st, now);
    Step(b.st, a.out + b.out)
  }

  /** Push the pending thinking, then the pending text, without marking either as streamed. */
  function DrainPendingStep(s: ProcState, now: int): Step {
    var a := DrainThinking(s, now, false);
    var b := DrainContent(a.st, now, false);
    Step(b.st, a.out + b.out)
  }

  // ---------------------------------------------------------------------------
  // Reference definitions used to state what the operations mean
  // ---------------------------------------------------------------------------

  /** An assistant or thinking entry: the content that streaming may already have delivered. */
  predicate IsTextual(m: LogMsg) {
    m.Entry? && (m.entry.entryType == AssistantMessage || m.entry.entryType == ThinkingMessage)
  }

  /** The messages of `out` that are not textual, in order. */
  function DropTextual(out: seq<LogMsg>): (r: seq<LogMsg>)
    ensures forall k :: 0 <= k < |r| ==> !IsTextual(r[k])
    ensures |r| <= |out|
  {
    if out == [] then []
    else DropTextual(out[..|out| - 1]) + (if IsTextual(out[|out| - 1]) then [] else [out[|out| - 1]])
  }

  /** The edits that the `suggest_edit` calls among `blocks` yield, in order. */
  function ParsedEdits(blocks: seq<ContentBlock>): seq<Types.SuggestedEdit> {
    if blocks == [] then [] else ParsedEdits(blocks[..|blocks| - 1]) + BlockEdits(blocks[|blocks| - 1])
  }

  /** The edit a block yields: one when it is a `suggest_edit` call whose input parses, none otherwise. */
  function BlockEdits(b: ContentBlock): seq<Types.SuggestedEdit> {
    if b.ToolUse? && b.name == SuggestEditTool && ParseSuggestedEdit(b.id, b.input).Ok?
    then [ParseSuggestedEdit(b.id, b.input).value] else []
  }

  // ---------------------------------------------------------------------------
  // Lemmas
  // ---------------------------------------------------------------------------

  /**
   * An assistant message changes nothing but the collected edits, to which it
   * appends exactly the edits its `suggest_edit` calls parse to; in particular
   * it never resets the streamed flag.
   */
  lemma {:induction false} BlocksStateLemma(s: ProcState, blocks: seq<ContentBlock>, now: int,
                                            encodeEdit: Types.SuggestedEdit -> string)
    ensures BlocksStep(s, blocks, now, encodeEdit).st == s.(suggestedEdits := s.suggestedEdits + ParsedEdits(blocks))
    decreases |blocks|
  {
    if blocks != [] {
      var init := blocks[..|blocks| - 1];
      BlocksStateLemma(s, init, now, encodeEdit);
      var a := BlocksStep(s, init, now, encodeEdit);
      BlockStepState(a.st, blocks[|blocks| - 1], now, encodeEdit);
      ConcatAssoc(s.suggestedEdits, ParsedEdits(init), BlockEdits(blocks[|blocks| - 1]));
    }
  }

  /** The blocks up to and including block `i`. */
  lemma BlocksStepSnoc(s: ProcState, blocks: seq<ContentBlock>, i: nat, now: int, encodeEdit: Types.SuggestedEdit -> string)
    requires i < |blocks|
    ensures var a := BlocksStep(s, blocks[..i], now, encodeEdit);
      var b := BlockStep(a.st, blocks[i], now, encodeEdit);
      BlocksStep(s, blocks[..i + 1], now, encodeEdit) == Step(b.st, a.out + b.out)
  {
    assert blocks[..i + 1][..i] == blocks[..i];
  }

  /** One block changes nothing but the collected edits, to which it appends the edit it yields. */
  lemma BlockStepState(s: ProcState, b: ContentBlock, now: int, encodeEdit: Types.SuggestedEdit -> string)
    ensures BlockStep(s, b, now, encodeEdit).st == s.(suggestedEdits := s.suggestedEdits + BlockEdits(b))
  {
  }

  lemma {:induction false} DropTextualAppend(a: seq<LogMsg>, b: seq<LogMsg>)
    ensures DropTextual(a + b) == DropTextual(a) + DropTextual(b)
    decreases |b|
  {
    if b != [] {
      assert (a + b)[..|a + b| - 1] == a + b[..|b| - 1];
      assert (a + b)[|a + b| - 1] == b[|b| - 1];
      DropTextualAppend(a, b[..|b| - 1]);
    } else {
      assert a + b == a;
    }
  }

  /**
   * Non-duplication: once content has been streamed, an assistant message
   * pushes exactly what it would have pushed without streaming, minus its
   * text and thinking entries; tool calls and edits are processed regardless.
   */
  lemma {:induction false} StreamingSuppressesOnlyText(s: ProcState, blocks: seq<ContentBlock>, now: int,
                                                      encodeEdit: Types.SuggestedEdit -> string)
    ensures BlocksStep(s.(hasStreamedContent := true), blocks, now, encodeEdit).out
         == DropTextual(BlocksStep(s.(hasStreamedContent := false), blocks, now, encodeEdit).out)
    decreases |blocks|
  {
    if blocks != [] {
      var init := blocks[..|blocks| - 1];
      var last := blocks[|blocks| - 1];
      var on, off := s.(hasStreamedContent := true), s.(hasStreamedContent := false);
      StreamingSuppressesOnlyText(s, init, now, encodeEdit);
      BlocksStateLemma(on, init, now, encodeEdit);
      BlocksStateLemma(off, init, now, encodeEdit);
      var aOn, aOff := BlocksStep(on, init, now, encodeEdit), BlocksStep(off, init, now, encodeEdit);
      var bOn, bOff := BlockStep(aOn.st, last, now, encodeEdit), BlockStep(aOff.st, last, now, encodeEdit);
      DropTextualAppend(aOff.out, bOff.out);
      BlockStepSuppressesOnlyText(aOff.st, last, now, encodeEdit);
    }
  }

  /** The same for a single block. */
  lemma BlockStepSuppressesOnlyText(s: ProcState, b: ContentBlock, now: int, encodeEdit: Types.SuggestedEdit -> string)
    ensures BlockStep(s.(hasStreamedContent := true), b, now, encodeEdit).out
         == DropTextual(BlockStep(s.(hasStreamedContent := false), b, now, encodeEdit).out)
  {
    var out := BlockStep(s.(hasStreamedContent := false), b, now, encodeEdit).out;
    if out != [] {
      assert out[..0] == [];
    }
  }

  /** Once content has been streamed, an assistant message pushes no assistant or thinking entry. */
  lemma NoDuplicateAfterStreaming(s: ProcState, blocks: seq<ContentBlock>, now: int,
                                  encodeEdit: Types.SuggestedEdit -> string)
    requires s.hasStreamedContent
    ensures forall k :: 0 <= k < |BlocksStep(s, blocks, now, encodeEdit).out| ==>
      !IsTextual(BlocksStep(s, blocks, now, encodeEdit).out[k])
  {
    StreamingSuppressesOnlyText(s, blocks, now, encodeEdit);
    assert s.(hasStreamedContent := true) == s;
  }

  /** A text or thinking delta appends to its accumulator and sets the streamed flag; nothing is pushed. */
  lemma DeltaAccumulates(s: ProcState, index: nat, delta: DeltaContent, sessionId: Option<string>,
                         now: int, encodeEdit: Types.SuggestedEdit -> string)
    ensures var r := MessageStep(s, StreamEvent(ContentBlockDelta(index, delta), sessionId), now, encodeEdit);
      && r.out == []
      && r.st.hasStreamedContent
      && r.st.currentContent == s.currentContent + (if delta.TextDelta? then delta.text else "")
      && r.st.currentThinking == s.currentThinking + (if delta.ThinkingDelta? then delta.thinking else "")
      && r.st.suggestedEdits == s.suggestedEdits
  {
  }

  /**
   * A block stop pushes the thinking, then the text, each only if non-empty,
   * and leaves both accumulators empty; the collected edits are untouched.
   */
  lemma BlockStopDrains(s: ProcState, index: nat, sessionId: Option<string>,
                        now: int, encodeEdit: Types.SuggestedEdit -> string)
    ensures var r := MessageStep(s, StreamEvent(ContentBlockStop(index), sessionId), now, encodeEdit);
      && r.out == (if s.currentThinking != [] then [Entry(ThinkingEntry(s.currentThinking, now))] else [])
                + (if s.currentContent != [] then [Entry(AssistantMessageEntry(s.currentContent, now))] else [])
      && r.st.currentContent == [] && r.st.currentThinking == []
      && r.st.hasStreamedContent == (s.hasStreamedContent || r.out != [])
      && r.st.suggestedEdits == s.suggestedEdits
      && r.st == s.(currentContent := [], currentThinking := [], hasStreamedContent := s.hasStreamedContent || r.out != [])
  {
  }

  /** Deltas "Hel" and "lo" followed by a block stop push exactly one assistant message, "Hello". */
  lemma DeltasCoalesce(s: ProcState, now: int, encodeEdit: Types.SuggestedEdit -> string)
    requires s.currentContent == [] && s.currentThinking == []
    ensures var r1 := MessageStep(s, StreamEvent(ContentBlockDelta(0, TextDelta("Hel")), None), now, encodeEdit);
      var r2 := MessageStep(r1.st, StreamEvent(ContentBlockDelta(0, TextDelta("lo")), None), now, encodeEdit);
      var r3 := MessageStep(r2.st, StreamEvent(ContentBlockStop(0), None), now, encodeEdit);
      r1.out + r2.out + r3.out == [Entry(AssistantMessageEntry("Hello", now))]
  {
    var r1 := MessageStep(s, StreamEvent(ContentBlockDelta(0, TextDelta("Hel")), None), now, encodeEdit);
    var r2 := MessageStep(r1.st, StreamEvent(ContentBlockDelta(0, TextDelta("lo")), None), now, encodeEdit);
    assert r2.st.currentContent == "Hello";
  }

  /**
   * A result record, whatever its error flag, pushes the pending thinking,
   * then the pending text, each only if non-empty, and then exactly one
   * `Ended`, last; both accumulators end empty. Only the thinking drain
   * marks the content as streamed, and the collected edits are untouched.
   */
  lemma ResultEndsStream(s: ProcState, subtype: Option<string>, result: Option<string>,
                         sessionId: Option<string>, isError: bool,
                         now: int, encodeEdit: Types.SuggestedEdit -> string)
    ensures var r := MessageStep(s, Result(subtype, result, sessionId, isError), now, encodeEdit);
      && r.out == (if s.currentThinking != [] then [Entry(ThinkingEntry(s.currentThinking, now))] else [])
                + (if s.currentContent != [] then [Entry(AssistantMessageEntry(s.currentContent, now))] else [])
                + [Ended]
      && (forall k :: 0 <= k < |r.out| - 1 ==> r.out[k].Entry?)
      && r.st.currentContent == [] && r.st.currentThinking == []
      && r.st.suggestedEdits == s.suggestedEdits
      && r.st.hasStreamedContent == (s.hasStreamedContent || s.currentThinking != [])
      && r.st == s.(currentContent := [], currentThinking := [],
                    hasStreamedContent := s.hasStreamedContent || s.currentThinking != [])
  {
  }

  /** An error record pushes one error entry: its message, else its error, else "Unknown error". */
  lemma ErrorRecordPushesOneError(s: ProcState, message: Option<string>, error: Option<string>,
                                  now: int, encodeEdit: Types.SuggestedEdit -> string)
    ensures var r := MessageStep(s, ClaudeMessage.Error(message, error), now, encodeEdit);
      && r.st == s
      && r.out == [Entry(ErrorEntry(if message.Some? then message.value
                                    else if error.Some? then error.value
                                    else "Unknown error", now))]
  {
  }

  /**
   * A `suggest_edit` call that fails to parse pushes nothing and collects
   * nothing; one that parses pushes exactly one suggested-edit entry, stamped
   * `now`, whose content is the serialised edit and whose metadata is the raw
   * input, and collects the edit. Any other tool pushes a tool
   * call named after the tool, with the input as metadata.
   */
  lemma ToolUseOutcome(s: ProcState, id: string, name: string, input: Json.Value,
                       now: int, encodeEdit: Types.SuggestedEdit -> string)
    ensures var r := BlockStep(s, ToolUse(id, name, input), now, encodeEdit);
      && (name != SuggestEditTool ==>
            r.st == s && r.out == [Entry(ToolCallEntry(name, input, now))])
      && (name == SuggestEditTool && ParseSuggestedEdit(id, input).Err? ==>
            r.st == s && r.out == [])
      && (name == SuggestEditTool && ParseSuggestedEdit(id, input).Ok? ==>
            && r.st == s.(suggestedEdits := s.suggestedEdits + [ParseSuggestedEdit(id, input).value])
            && r.out == [Entry(NormalizedEntry(Some(now), NormalizedEntryType.SuggestedEdit,
                                               encodeEdit(ParseSuggestedEdit(id, input).value), Some(input)))])
  {
  }

  /** The edit tool's input from the processor's own test parses to an edit with the same texts. */
  lemma ParseSuggestedEditExample()
    ensures var input := Json.Object(map["original_text" := Json.String("Hello world"),
                                         "suggested_text" := Json.String("Hello, world!"),
                                         "explanation" := Json.String("Added comma and exclamation")]);
      var r := ParseSuggestedEdit("edit-1", input);
      && r.Ok?
      && r.value.originalText == "Hello world"
      && r.value.suggestedText == "Hello, world!"
      && r.value.explanation == "Added comma and exclamation"
  {
  }

  /**
   * Framing commutes with appending: framing `b + c` cuts the lines of `b`
   * and then the lines of what `b` left over followed by `c`.
   */
  lemma {:induction false} FrameAppend(b: string, c: string)
    ensures Frame(b + c) == Framed(Frame(b).lines + Frame(Frame(b).rest + c).lines, Frame(Frame(b).rest + c).rest)
    decreases |b|, 1
  {
    if IndexOf(b, '\n').None? {
      assert Frame(b) == Framed([], b);
      AppendEmpty(Frame(b + c).lines);
    } else {
      FrameAppendAtNewline(b, c, IndexOf(b, '\n').value);
    }
  }

  lemma {:induction false} FrameAppendAtNewline(b: string, c: string, pos: nat)
    requires IndexOf(b, '\n') == Some(pos)
    ensures Frame(b + c) == Framed(Frame(b).lines + Frame(Frame(b).rest + c).lines, Frame(Frame(b).rest + c).rest)
    decreases |b|, 0
  {
    var tail := b[pos + 1..];
    assert Frame(b + c) == Framed([b[..pos]] + Frame(tail + c).lines, Frame(tail + c).rest) by {
      IndexOfAppend(b, c, '\n');
      assert (b + c)[..pos] == b[..pos];
      assert (b + c)[pos + 1..] == tail + c;
    }
    FrameAppend(tail, c);
    var ft := Frame(tail);
    var fr := Frame(ft.rest + c);
    assert Frame(b) == Framed([b[..pos]] + ft.lines, ft.rest);
    ConcatAssoc([b[..pos]], ft.lines, fr.lines);
  }

  /** A whole line of text followed by a newline frames to that line, with nothing left. */
  lemma FrameOneLine(line: string)
    requires '\n' !in line
    ensures Frame(line + "\n") == Framed([line], "")
  {
    IndexOfAppend(line + "\n", [], '\n');
    assert (line + "\n")[..|line|] == line;
    assert (line + "\n")[|line| + 1..] == [];
  }

  /** The framing of a buffer whose first newline is at `pos`. */
  lemma FrameAtNewline(buffer: string, pos: nat)
    requires IndexOf(buffer, '\n') == Some(pos)
    ensures Frame(buffer) == Framed([buffer[..pos]] + Frame(buffer[pos + 1..]).lines, Frame(buffer[pos + 1..]).rest)
  {
  }

  /** Processing one more framed line. */
  lemma LinesStepSnoc(s: ProcState, lines: seq<string>, line: string, now: int, codec: Codec)
    ensures var a := LinesStep(s, lines, now, codec);
      var b := FramedLineStep(a.st, line, now, codec);
      LinesStep(s, lines + [line], now, codec) == Step(b.st, a.out + b.out)
  {
    InitOfAppend(lines, [line]);
  }

  /**
   * One turn of the framing loop: taking the line before the first newline
   * of what is left keeps the framing of the original buffer, and processing
   * it extends the processing of the lines taken so far.
   */
  lemma FramingLoopStep(orig: string, buffer: string, pos: nat, done: seq<string>, s0: ProcState, acc: Step, now: int, codec: Codec)
    requires IndexOf(buffer, '\n') == Some(pos)
    requires Frame(orig) == Framed(done + Frame(buffer).lines, Frame(buffer).rest)
    requires acc == LinesStep(s0, done, now, codec)
    ensures var line := buffer[..pos];
      var step := FramedLineStep(acc.st, line, now, codec);
      && Frame(orig) == Framed((done + [line]) + Frame(buffer[pos + 1..]).lines, Frame(buffer[pos + 1..]).rest)
      && LinesStep(s0, done + [line], now, codec) == Step(step.st, acc.out + step.out)
  {
    FrameAtNewline(buffer, pos);
    ConcatAssoc(done, [buffer[..pos]], Frame(buffer[pos + 1..]).lines);
    LinesStepSnoc(s0, done, buffer[..pos], now, codec);
  }

  lemma ConcatAssoc<T>(a: seq<T>, b: seq<T>, c: seq<T>)
    ensures a + (b + c) == (a + b) + c
  {
  }

  lemma {:induction false} LinesStepAppend(s: ProcState, l1: seq<string>, l2: seq<string>, now: int, codec: Codec)
    ensures var a := LinesStep(s, l1, now, codec);
      var b := LinesStep(a.st, l2, now, codec);
      LinesStep(s, l1 + l2, now, codec) == Step(b.st, a.out + b.out)
    decreases |l2|
  {
    if l2 == [] {
      assert l1 + l2 == l1;
    } else {
      var init, last := l2[..|l2| - 1], l2[|l2| - 1];
      InitOfAppend(l1, l2);
      LinesStepAppend(s, l1, init, now, codec);
      var a := LinesStep(s, l1, now, codec);
      var m := LinesStep(a.st, init, now, codec);
      var z := FramedLineStep(m.st, last, now, codec);
      assert LinesStep(s, l1 + l2, now, codec) == Step(z.st, (a.out + m.out) + z.out);
      assert LinesStep(a.st, l2, now, codec) == Step(z.st, m.out + z.out);
      ConcatAssoc(a.out, m.out, z.out);
    }
  }

  lemma AppendEmpty<T>(a: seq<T>)
    ensures [] + a == a && a + [] == a
  {
  }

  lemma TakeSnoc<T>(s: seq<T>, i: nat)
    requires i < |s|
    ensures s[..i + 1] == s[..i] + [s[i]]
  {
  }

  lemma TakeAll<T>(s: seq<T>)
    ensures s[..|s|] == s
  {
  }

  lemma SplitLast<T>(s: seq<T>)
    requires s != []
    ensures s[..|s| - 1] + [s[|s| - 1]] == s
  {
  }

  lemma InitOfAppend<T>(a: seq<T>, b: seq<T>)
    requires b != []
    ensures (a + b)[..|a + b| - 1] == a + b[..|b| - 1]
    ensures (a + b)[|a + b| - 1] == b[|b| - 1]
  {
  }

  /**
   * Chunk boundaries are invisible: feeding `c1` and then `c2` pushes the same
   * messages and reaches the same state and buffer as feeding `c1 + c2` at once.
   */
  lemma ChunkBoundariesInvisible(s: ProcState, buffer: string, c1: string, c2: string, now: int, codec: Codec)
    ensures var r1 := ChunkStep(s, buffer, c1, now, codec);
      var b1 := Frame(buffer + c1).rest;
      var r2 := ChunkStep(r1.st, b1, c2, now, codec);
      var whole := ChunkStep(s, buffer, c1 + c2, now, codec);
      && r2.st == whole.st
      && r1.out + r2.out == whole.out
      && Frame(b1 + c2).rest == Frame(buffer + (c1 + c2)).rest
  {
    assert buffer + (c1 + c2) == (buffer + c1) + c2;
    FrameAppend(buffer + c1, c2);
    LinesStepAppend(s, Frame(buffer + c1).lines, Frame(Frame(buffer + c1).rest + c2).lines, now, codec);
  }

  /**
   * A record split across chunks is decoded exactly once, when its newline
   * arrives. First half: the chunk without a newline pushes nothing and only
   * extends the buffer.
   */
  lemma UnterminatedChunkBuffered(s: ProcState, buffer: string, a: string, now: int, codec: Codec)
    requires '\n' !in buffer && '\n' !in a
    ensures ChunkStep(s, buffer, a, now, codec) == Step(s, [])
    ensures Frame(buffer + a).rest == buffer + a
  {
    assert '\n' !in buffer + a;
  }

  /**
   * Second half: the chunk that ends the line handles the whole buffered line,
   * trimmed (or nothing, if it trims to nothing), and empties the buffer.
   */
  lemma TerminatingChunkDecodesLine(s: ProcState, buffer: string, b: string, now: int, codec: Codec)
    requires '\n' !in buffer && '\n' !in b
    ensures ChunkStep(s, buffer, b + "\n", now, codec) == FramedLineStep(s, buffer + b, now, codec)
    ensures Frame(buffer + (b + "\n")).rest == []
  {
    assert buffer + (b + "\n") == (buffer + b) + "\n";
    assert '\n' !in buffer + b;
    FrameOneLine(buffer + b);
    LinesStepOne(s, buffer + b, now, codec);
  }

  lemma LinesStepOne(s: ProcState, line: string, now: int, codec: Codec)
    ensures LinesStep(s, [line], now, codec) == FramedLineStep(s, line, now, codec)
  {
    assert [line][..0] == [];
  }

  /** After a flush there is nothing left to flush: a second flush pushes nothing and changes nothing. */
  lemma FlushIdempotent(s: ProcState, buffer: string, now: int, codec: Codec)
    ensures var f := FlushStep(s, buffer, now, codec);
      FlushStep(f.st, [], now, codec) == Step(f.st, [])
  {
  }

  // ---------------------------------------------------------------------------
  // The processor object
  // ---------------------------------------------------------------------------

  class ClaudeLogProcessor {
    const msgStore: MsgStore
    const codec: Codec
    /** Text received but not yet terminated by a newline. */
    var buffer: string
    var currentContent: string
    var currentThinking: string
    var suggestedEdits: seq<Types.SuggestedEdit>
    /** Set by the first streamed delta or drained accumulator; never reset. */
    var hasStreamedContent: bool

    function State(): ProcState
      reads this`currentContent, this`currentThinking, this`suggestedEdits, this`hasStreamedContent
    {
      ProcState(currentContent, currentThinking, suggestedEdits, hasStreamedContent)
    }

    constructor (msgStore: MsgStore, codec: Codec)
      ensures this.msgStore == msgStore && this.codec == codec
      ensures buffer == [] && State() == InitialState()
    {
      this.msgStore := msgStore;
      this.codec := codec;
      buffer, currentContent, currentThinking := [], [], [];
      suggestedEdits, hasStreamedContent := [], false;
    }

    /** The edits collected so far, in the order their tool calls were seen. */
    function SuggestedEdits(): (r: seq<Types.SuggestedEdit>)
      reads this
      ensures r == State().suggestedEdits
    {
      suggestedEdits
    }

    method ProcessChunk(chunk: string, now: int)
      requires msgStore.Valid()
      modifies this, msgStore
      ensures buffer == Frame(old(buffer) + chunk).rest
      ensures State() == ChunkStep(old(State()), old(buffer), chunk, now, codec).st
      ensures msgStore.Extends(old(msgStore.history), old(msgStore.sent), old(msgStore.subscribers),
                               ChunkStep(old(State()), old(buffer), chunk, now, codec).out)
    {
      buffer := buffer + chunk;
      ProcessBufferedLines(now);
    }

    /**
     * The framing loop so far: the lines `done` have been cut off the
     * original buffer `orig`, whose framing continues with what is left, and
     * processing them from the state `s0` gave the present state and pushed
     * what the store gained since it held `h0` and `sent0`.
     */
    ghost predicate FramedSoFar(orig: string, s0: ProcState, h0: seq<LogMsg>, sent0: seq<LogMsg>, u0: seq<nat>,
                                done: seq<string>, now: int)
      reads this, msgStore
    {
      && Frame(orig) == Framed(done + Frame(buffer).lines, Frame(buffer).rest)
      && State() == LinesStep(s0, done, now, codec).st
      && msgStore.Extends(h0, sent0, u0, LinesStep(s0, done, now, codec).out)
    }

    /** The framing loop of `process_chunk`: every complete line in the buffer, in order. */
    method ProcessBufferedLines(now: int)
      requires msgStore.Valid()
      modifies this, msgStore
      ensures buffer == Frame(old(buffer)).rest
      ensures State() == LinesStep(old(State()), Frame(old(buffer)).lines, now, codec).st
      ensures msgStore.Extends(old(msgStore.history), old(msgStore.sent), old(msgStore.subscribers),
                               LinesStep(old(State()), Frame(old(buffer)).lines, now, codec).out)
    {
      ghost var done: seq<string> := [];
      AppendEmpty(old(msgStore.history));
      AppendEmpty(old(msgStore.sent));
      AppendEmpty(Frame(buffer).lines);
      var pos := IndexOf(buffer, '\n');
      while pos.Some?
        invariant pos == IndexOf(buffer, '\n')
        invariant FramedSoFar(old(buffer), old(State()), old(msgStore.history), old(msgStore.sent), old(msgStore.subscribers), done, now)
        decreases |buffer|
      {
        done := TakeNextLine(pos.value, now, old(buffer), old(State()), old(msgStore.history), old(msgStore.sent),
                             old(msgStore.subscribers), done);
        pos := IndexOf(buffer, '\n');
      }
      AppendEmpty(done);
    }

    /** One turn of the framing loop: the line before the first newline is cut off and processed. */
    method TakeNextLine(pos: nat, now: int, ghost orig: string, ghost s0: ProcState, ghost h0: seq<LogMsg>,
                        ghost sent0: seq<LogMsg>, ghost u0: seq<nat>, ghost done: seq<string>)
      returns (ghost done': seq<string>)
      requires IndexOf(buffer, '\n') == Some(pos)
      requires FramedSoFar(orig, s0, h0, sent0, u0, done, now)
      modifies this, msgStore
      ensures FramedSoFar(orig, s0, h0, sent0, u0, done', now)
      ensures done' == done + [old(buffer)[..pos]] && buffer == old(buffer)[pos + 1..]
    {
      ghost var acc := LinesStep(s0, done, now, codec);
      ghost var step := FramedLineStep(acc.st, buffer[..pos], now, codec);
      FramingLoopStep(orig, buffer, pos, done, s0, acc, now, codec);
      ConcatAssoc(h0, acc.out, step.out);
      ConcatAssoc(sent0, acc.out, step.out);
      done' := done + [buffer[..pos]];
      TakeLine(pos, now);
    }

    /** One turn of the framing loop: cut the line ending at `pos` off the buffer and process it. */
    method TakeLine(pos: nat, now: int)
      requires msgStore.Valid()
      requires pos < |buffer| && buffer[pos] == '\n'
      modifies this, msgStore
      ensures buffer == old(buffer)[pos + 1..]
      ensures State() == FramedLineStep(old(State()), old(buffer)[..pos], now, codec).st
      ensures msgStore.Extends(old(msgStore.history), old(msgStore.sent), old(msgStore.subscribers),
                               FramedLineStep(old(State()), old(buffer)[..pos], now, codec).out)
    {
      var line := buffer[..pos];
      buffer := buffer[pos + 1..];
      ProcessFramedLine(line, now);
    }

    /** A line cut off the buffer: trimmed, and processed unless that leaves nothing. */
    method ProcessFramedLine(line: string, now: int)
      requires msgStore.Valid()
      modifies this, msgStore
      ensures buffer == old(buffer)
      ensures State() == FramedLineStep(old(State()), line, now, codec).st
      ensures msgStore.Extends(old(msgStore.history), old(msgStore.sent), old(msgStore.subscribers),
                               FramedLineStep(old(State()), line, now, codec).out)
    {
      var trimmed := Trim(line);
      if trimmed != [] {
        ProcessLine(trimmed, now);
      } else {
        assert msgStore.history == msgStore.history + [];
        assert msgStore.sent == msgStore.sent + [];
      }
    }

    method ProcessLine(line: string, now: int)
      requires msgStore.Valid()
      modifies this, msgStore
      ensures buffer == old(buffer)
      ensures State() == LineStep(old(State()), line, now, codec).st
      ensures msgStore.Extends(old(msgStore.history), old(msgStore.sent), old(msgStore.subscribers),
                               LineStep(old(State()), line, now, codec).out)
    {
      match codec.decode(line)
      case Some(msg) =>
        HandleMessage(msg, now);
      case None =>
        msgStore.Push(Raw(line));
    }

    method HandleMessage(msg: ClaudeMessage, now: int)
      requires msgStore.Valid()
      modifies this, msgStore
      ensures buffer == old(buffer)
      ensures State() == MessageStep(old(State()), msg, now, codec.encodeEdit).st
      ensures msgStore.Extends(old(msgStore.history), old(msgStore.sent), old(msgStore.subscribers),
                               MessageStep(old(State()), msg, now, codec.encodeEdit).out)
    {
      match msg
      case System(_, _) =>
      case User(body) =>
        if body.Some? && body.value.content.Some? {
          msgStore.PushEntry(UserMessageEntry(body.value.content.value, now));
        }
      case Assistant(body, _) =>
        HandleAssistantBlocks(body.content, now);
      case StreamEvent(event, _) =>
        HandleStreamEvent(event, now);
      case Result(_, _, _, _) =>
        HandleResult(now);
      case Error(message, error) =>
        var errMsg := message.Or(error).UnwrapOr(UnknownError);
        msgStore.PushEntry(ErrorEntry(errMsg, now));
    }

    /** The blocks of a complete assistant message, in order. */
    method HandleAssistantBlocks(blocks: seq<ContentBlock>, now: int)
      requires msgStore.Valid()
      modifies this, msgStore
      ensures buffer == old(buffer)
      ensures State() == BlocksStep(old(State()), blocks, now, codec.encodeEdit).st
      ensures msgStore.Extends(old(msgStore.history), old(msgStore.sent), old(msgStore.subscribers),
                               BlocksStep(old(State()), blocks, now, codec.encodeEdit).out)
    {
      for i := 0 to |blocks|
        invariant buffer == old(buffer)
        invariant State() == BlocksStep(old(State()), blocks[..i], now, codec.encodeEdit).st
        invariant msgStore.Extends(old(msgStore.history), old(msgStore.sent), old(msgStore.subscribers),
                                   BlocksStep(old(State()), blocks[..i], now, codec.encodeEdit).out)
      {
        ghost var a := BlocksStep(old(State()), blocks[..i], now, codec.encodeEdit);
        ghost var b := BlockStep(a.st, blocks[i], now, codec.encodeEdit);
        BlocksStepSnoc(old(State()), blocks, i, now, codec.encodeEdit);
        HandleBlock(blocks[i], now);
        ConcatAssoc(old(msgStore.history), a.out, b.out);
        ConcatAssoc(old(msgStore.sent), a.out, b.out);
      }
      TakeAll(blocks);
    }

    /** One block of a complete assistant message. */
    method HandleBlock(block: ContentBlock, now: int)
      requires msgStore.Valid()
      modifies this, msgStore
      ensures buffer == old(buffer)
      ensures State() == BlockStep(old(State()), block, now, codec.encodeEdit).st
      ensures msgStore.Extends(old(msgStore.history), old(msgStore.sent), old(msgStore.subscribers),
                               BlockStep(old(State()), block, now, codec.encodeEdit).out)
    {
      match block
      case Text(text) =>
        if !hasStreamedContent {
          msgStore.PushEntry(AssistantMessageEntry(text, now));
        }
      case Thinking(thinking) =>
        if !hasStreamedContent {
          msgStore.PushEntry(ThinkingEntry(thinking, now));
        }
      case ToolUse(id, name, input) =>
        if name == SuggestEditTool {
          var parsed := ParseSuggestedEdit(id, input);
          if parsed.Ok? {
            var edit := parsed.value;
            suggestedEdits := suggestedEdits + [edit];
            msgStore.PushEntry(NormalizedEntry(Some(now), NormalizedEntryType.SuggestedEdit,
                                               codec.encodeEdit(edit), Some(input)));
          }
        } else {
          msgStore.PushEntry(ToolCallEntry(name, input, now));
        }
    }

    method HandleStreamEvent(event: StreamEventData, now: int)
      requires msgStore.Valid()
      modifies this, msgStore
      ensures buffer == old(buffer)
      ensures State() == StreamEventStep(old(State()), event, now).st
      ensures msgStore.Extends(old(msgStore.history), old(msgStore.sent), old(msgStore.subscribers),
                               StreamEventStep(old(State()), event, now).out)
    {
      match event
      case ContentBlockDelta(_, delta) =>
        hasStreamedContent := true;
        match delta {
          case TextDelta(text) =>
            currentContent := currentContent + text;
          case ThinkingDelta(thinking) =>
            currentThinking := currentThinking + thinking;
          case InputJsonDelta(_) =>
        }
      case ContentBlockStop(_) =>
        ghost var a := DrainThinking(State(), now, true);
        ghost var b := DrainContent(a.st, now, true);
        TakeThinking(now, true);
        TakeContent(now, true);
        ConcatAssoc(old(msgStore.history), a.out, b.out);
        ConcatAssoc(old(msgStore.sent), a.out, b.out);
      case _ =>
    }

    method HandleResult(now: int)
      requires msgStore.Valid()
      modifies this, msgStore
      ensures buffer == old(buffer)
      ensures State() == ResultStep(old(State()), now).st
      ensures msgStore.Extends(old(msgStore.history), old(msgStore.sent), old(msgStore.subscribers),
                               ResultStep(old(State()), now).out)
    {
      ghost var a := DrainThinking(State(), now, true);
      ghost var b := DrainContent(a.st, now, false);
      TakeThinking(now, true);
      TakeContent(now, false);
      ConcatAssoc(old(msgStore.history), a.out, b.out);
      ConcatAssoc(old(msgStore.sent), a.out, b.out);
      msgStore.Push(Ended);
      ConcatAssoc(old(msgStore.history), a.out + b.out, [Ended]);
      ConcatAssoc(old(msgStore.sent), a.out + b.out, [Ended]);
    }

    method Flush(now: int)
      requires msgStore.Valid()
      modifies this, msgStore
      ensures buffer == []
      ensures State() == FlushStep(old(State()), old(buffer), now, codec).st
      ensures msgStore.Extends(old(msgStore.history), old(msgStore.sent), old(msgStore.subscribers),
                               FlushStep(old(State()), old(buffer), now, codec).out)
    {
      if buffer != [] {
        var remaining := buffer;
        buffer := [];
        ProcessLine(remaining, now);
      } else {
        assert msgStore.history == msgStore.history + [];
        assert msgStore.sent == msgStore.sent + [];
      }
      ghost var a := if old(buffer) != [] then LineStep(old(State()), old(buffer), now, codec) else Step(old(State()), []);
      ghost var b := DrainPendingStep(a.st, now);
      DrainPending(now);
      ConcatAssoc(old(msgStore.history), a.out, b.out);
      ConcatAssoc(old(msgStore.sent), a.out, b.out);
    }

    /** The tail of `flush`: the pending thinking, then the pending text. */
    method DrainPending(now: int)
      requires msgStore.Valid()
      modifies this, msgStore
      ensures buffer == old(buffer)
      ensures State() == DrainPendingStep(old(State()), now).st
      ensures msgStore.Extends(old(msgStore.history), old(msgStore.sent), old(msgStore.subscribers),
                               DrainPendingStep(old(State()), now).out)
    {
      ghost var a := DrainThinking(State(), now, false);
      ghost var b := DrainContent(a.st, now, false);
      TakeThinking(now, false);
      TakeContent(now, false);
      ConcatAssoc(old(msgStore.history), a.out, b.out);
      ConcatAssoc(old(msgStore.sent), a.out, b.out);
    }

    /** Pushes the accumulated thinking, if any, and empties it; `mark` says whether that sets the streamed flag. */
    method TakeThinking(now: int, mark: bool)
      requires msgStore.Valid()
      modifies this, msgStore
      ensures buffer == old(buffer)
      ensures State() == DrainThinking(old(State()), now, mark).st
      ensures msgStore.Extends(old(msgStore.history), old(msgStore.sent), old(msgStore.subscribers),
                               DrainThinking(old(State()), now, mark).out)
    {
      if currentThinking != [] {
        var thinking := currentThinking;
        currentThinking := [];
        msgStore.PushEntry(ThinkingEntry(thinking, now));
        if mark {
          hasStreamedContent := true;
        }
      } else {
        AppendEmpty(msgStore.history);
        AppendEmpty(msgStore.sent);
      }
    }

    /** Pushes the accumulated text, if any, and empties it; `mark` says whether that sets the streamed flag. */
    method TakeContent(now: int, mark: bool)
      requires msgStore.Valid()
      modifies this, msgStore
      ensures buffer == old(buffer)
      ensures State() == DrainContent(old(State()), now, mark).st
      ensures msgStore.Extends(old(msgStore.history), old(msgStore.sent), old(msgStore.subscribers),
                               DrainContent(old(State()), now, mark).out)
    {
      if currentContent != [] {
        var content := currentContent;
        currentContent := [];
        msgStore.PushEntry(AssistantMessageEntry(content, now));
        if mark {
          hasStreamedContent := true;
        }
      } else {
        AppendEmpty(msgStore.history);
        AppendEmpty(msgStore.sent);
      }
    }
  }
}
