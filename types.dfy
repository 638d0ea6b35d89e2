/** Core value types shared by the executors and the bridge. */
module Types {
  import opened Wrappers

  /** A range of document positions with the text quoted at it. */
  datatype TextRange = TextRange(from: nat, to: nat, quotedText: string)

  /** An edit proposed by the agent; `applied` and `rejected` are set later by the client. */
  datatype SuggestedEdit = SuggestedEdit(
    id: string,
    originalText: string,
    suggestedText: string,
    explanation: string,
    range: TextRange,
    applied: bool,
    rejected: bool)

  /** A request for feedback on a selection of a document. */
  datatype FeedbackRequest = FeedbackRequest(
    documentId: string,
    documentContent: string,
    documentTitle: Option<string>,
    selectedText: string,
    selectedRange: TextRange,
    instruction: string,
    executor: string,
    commentId: string,
    sessionId: Option<string>)

  datatype FeedbackStatus = Pending | Processing | Completed | Failed

  /** The reply to a create or status request. */
  datatype FeedbackResponse = FeedbackResponse(
    id: string,
    status: FeedbackStatus,
    content: Option<string>,
    suggestedEdits: seq<SuggestedEdit>,
    sessionId: string,
    error: Option<string>)

  /** A message sent to a streaming client. */
  datatype StreamMessage =
    | Chunk(content: string)
    | Edit(edit: SuggestedEdit)
    | Thinking(content: string)
    | Complete
    | Error(message: string)

  /** A control message from a streaming client. */
  datatype StreamControl =
    | Interrupt
    | Approve(toolUseId: string)
    | Deny(toolUseId: string, message: string)

  datatype AvailabilityInfo =
    | Available
    | InstallationFound
    | NotFound
    | Unavailable(reason: string)

  datatype SetupAction = SetupAction(description: string, command: Option<string>, url: Option<string>)

  /** Text wrapped around every prompt; the default has neither part. */
  datatype AppendPrompt = AppendPrompt(prepend: Option<string>, append: Option<string>)

  function DefaultAppendPrompt(): (ap: AppendPrompt)
    ensures ap.prepend == None && ap.append == None
  {
    AppendPrompt(None, None)
  }

  /** Number of characters `Apply` puts before the prompt. */
  function PrependLength(ap: AppendPrompt): nat {
    if ap.prepend.Some? then |ap.prepend.value| + 1 else 0
  }

  /** Number of characters `Apply` puts after the prompt. */
  function AppendLength(ap: AppendPrompt): nat {
    if ap.append.Some? then |ap.append.value| + 1 else 0
  }

  /**
   * `AppendPrompt::apply`: the prepended text and a newline, then the prompt
   * unchanged, then a newline and the appended text.
   */
  function Apply(ap: AppendPrompt, prompt: string): (r: string)
    ensures |r| == PrependLength(ap) + |prompt| + AppendLength(ap)
    ensures ap.prepend.Some? ==>
      r[..|ap.prepend.value|] == ap.prepend.value && r[|ap.prepend.value|] == '\n'
    ensures r[PrependLength(ap)..PrependLength(ap) + |prompt|] == prompt
    ensures ap.append.Some? ==>
      r[PrependLength(ap) + |prompt|] == '\n' && r[|r| - |ap.append.value|..] == ap.append.value
  {
    var head := if ap.prepend.Some? then ap.prepend.value + "\n" else "";
    var tail := if ap.append.Some? then "\n" + ap.append.value else "";
    assert (head + prompt + tail)[..|head|] == head;
    assert (head + prompt + tail)[|head|..|head| + |prompt|] == prompt;
    assert (head + prompt + tail)[|head| + |prompt|..] == tail;
    head + prompt + tail
  }

  /** With the default configuration the prompt passes through unchanged. */
  lemma DefaultApplyIsIdentity(prompt: string)
    ensures Apply(DefaultAppendPrompt(), prompt) == prompt
  {
    var r := Apply(DefaultAppendPrompt(), prompt);
    assert r == r[0..|prompt|];
  }
}
