/** The Claude Code executor: its configuration, the command line it launches, and its probes. */
module Claude {
  import opened Wrappers
  import opened Types
  import opened Errors
  import opened Strings
  import opened Executors

  /** The pinned version of the Claude Code command-line tool. */
  const ClaudeCodeVersion := "2.1.7"

  /** The executor's configuration; every option is absent by default. */
  datatype ClaudeCode = ClaudeCode(
    appendPrompt: AppendPrompt,
    claudeCodeRouter: Option<bool>,
    plan: Option<bool>,
    approvals: Option<bool>,
    model: Option<string>,
    dangerouslySkipPermissions: Option<bool>,
    disableApiKey: Option<bool>,
    systemPrompt: Option<string>)

  /** `ClaudeCode::new`, the same as `ClaudeCode::default`. */
  function NewClaudeCode(): (c: ClaudeCode)
    ensures c.appendPrompt == DefaultAppendPrompt()
    ensures c.claudeCodeRouter == None && c.plan == None && c.approvals == None && c.model == None
    ensures c.dangerouslySkipPermissions == None && c.disableApiKey == None && c.systemPrompt == None
  {
    ClaudeCode(DefaultAppendPrompt(), None, None, None, None, None, None, None)
  }

  function WithModel(c: ClaudeCode, model: string): (r: ClaudeCode)
    ensures r.model == Some(model)
    ensures r.(model := c.model) == c
  {
    c.(model := Some(model))
  }

  function WithPlanMode(c: ClaudeCode): (r: ClaudeCode)
    ensures r.plan == Some(true)
    ensures r.(plan := c.plan) == c
  {
    c.(plan := Some(true))
  }

  function WithSystemPrompt(c: ClaudeCode, prompt: string): (r: ClaudeCode)
    ensures r.systemPrompt == Some(prompt)
    ensures r.(systemPrompt := c.systemPrompt) == c
  {
    c.(systemPrompt := Some(prompt))
  }

  /**
   * `use_approvals`: injecting an approval service only switches approvals on;
   * the service itself is not kept. The in-place update of the configuration
   * is modelled as returning the updated value.
   */
  function UseApprovals(c: ClaudeCode): (r: ClaudeCode)
    ensures r.approvals == Some(true)
    ensures r.(approvals := c.approvals) == c
  {
    c.(approvals := Some(true))
  }

  /** The builder chain of the crate's own example. */
  lemma BuilderExample()
    ensures var c := WithPlanMode(WithModel(NewClaudeCode(), "claude-sonnet-4-20250514"));
      c.model == Some("claude-sonnet-4-20250514") && c.plan == Some(true)
  {
  }

  /** The arguments every launch starts with, in this order. */
  const BaseArgs: seq<string> := [
    "-y",
    "@anthropic-ai/claude-code@" + ClaudeCodeVersion,
    "--output-format=stream-json",
    "--verbose",
    "--include-partial-messages",
    "--permission-mode=bypassPermissions"
  ]

  /** A `prefix=value` argument when the option is set, nothing otherwise. */
  function OptionArg(prefix: string, option: Option<string>): (args: seq<string>)
    ensures option.None? ==> args == []
    ensures option.Some? ==> args == [prefix + option.value]
  {
    match option
    case None => []
    case Some(v) => [prefix + v]
  }

  /** The optional arguments, between the base arguments and the prompt. */
  function OptionArgs(c: ClaudeCode, sessionId: Option<string>): seq<string> {
    OptionArg("--model=", c.model) + OptionArg("--resume=", sessionId) + OptionArg("--system-prompt=", c.systemPrompt)
  }

  /** The argument vector of `build_command`. */
  function Argv(c: ClaudeCode, prompt: string, sessionId: Option<string>): seq<string> {
    BaseArgs + OptionArgs(c, sessionId) + ["-p", prompt]
  }

  /** `build_command`: `npx` with the arguments appended one by one. */
  method BuildCommand(c: ClaudeCode, prompt: string, sessionId: Option<string>) returns (cmd: Command)
    ensures cmd.program == "npx"
    ensures cmd.args == Argv(c, prompt, sessionId)
  {
    var args: seq<string> := [];
    args := args + ["-y"];
    args := args + ["@anthropic-ai/claude-code@" + ClaudeCodeVersion];
    args := args + ["--output-format=stream-json"];
    args := args + ["--verbose"];
    args := args + ["--include-partial-messages"];
    args := args + ["--permission-mode=bypassPermissions"];
    assert args == BaseArgs;
    if c.model.Some? {
      args := args + ["--model=" + c.model.value];
    }
    if sessionId.Some? {
      args := args + ["--resume=" + sessionId.value];
    }
    if c.systemPrompt.Some? {
      args := args + ["--system-prompt=" + c.systemPrompt.value];
    }
    assert args == BaseArgs + OptionArgs(c, sessionId);
    args := args + ["-p"];
    args := args + [prompt];
    cmd := Command("npx", args);
  }

  /** Number of options that are set. */
  function SetCount(c: ClaudeCode, sessionId: Option<string>): nat {
    (if c.model.Some? then 1 else 0) + (if sessionId.Some? then 1 else 0) + (if c.systemPrompt.Some? then 1 else 0)
  }

  /** `s` starts with `p`. */
  predicate StartsWith(s: string, p: string) {
    |p| <= |s| && s[..|p|] == p
  }

  /** How many of `args` start with `p`. */
  function CountStartingWith(args: seq<string>, p: string): (n: nat)
    ensures n <= |args|
  {
    if args == [] then 0
    else CountStartingWith(args[..|args| - 1], p) + (if StartsWith(args[|args| - 1], p) then 1 else 0)
  }

  lemma {:induction false} CountStartingWithAppend(a: seq<string>, b: seq<string>, p: string)
    ensures CountStartingWith(a + b, p) == CountStartingWith(a, p) + CountStartingWith(b, p)
    decreases |b|
  {
    if b == [] {
      assert a + b == a;
    } else {
      assert (a + b)[..|a + b| - 1] == a + b[..|b| - 1];
      CountStartingWithAppend(a, b[..|b| - 1], p);
    }
  }

  /**
   * The fixed arguments come first, then the options in the order model,
   * resume, system prompt, each exactly when it is set, and the last two
   * arguments are `-p` and the prompt.
   */
  lemma ArgvLayout(c: ClaudeCode, prompt: string, sessionId: Option<string>)
    ensures var argv := Argv(c, prompt, sessionId);
      && |argv| == |BaseArgs| + SetCount(c, sessionId) + 2
      && argv[..|BaseArgs|] == BaseArgs
      && argv[|BaseArgs|..|argv| - 2] == OptionArgs(c, sessionId)
      && argv[|argv| - 2] == "-p" && argv[|argv| - 1] == prompt
  {
    var argv := Argv(c, prompt, sessionId);
    assert argv[..|BaseArgs|] == BaseArgs;
    assert argv[|BaseArgs|..|argv| - 2] == OptionArgs(c, sessionId);
  }

  /** With every option set, they appear in the order model, resume, system prompt. */
  lemma ArgvOptionOrder(c: ClaudeCode, prompt: string, id: string)
    requires c.model.Some? && c.systemPrompt.Some?
    ensures Argv(c, prompt, Some(id))[|BaseArgs|..|BaseArgs| + 3] ==
      ["--model=" + c.model.value, "--resume=" + id, "--system-prompt=" + c.systemPrompt.value]
  {
    ArgvLayout(c, prompt, Some(id));
  }

  lemma StartsWithPrefix(p: string, v: string)
    ensures StartsWith(p + v, p)
  {
    assert (p + v)[..|p|] == p;
  }

  lemma DiffersAt(s: string, p: string, k: nat)
    requires k < |s| && k < |p| && s[k] != p[k]
    ensures !StartsWith(s, p)
  {
    if |p| <= |s| {
      assert s[..|p|][k] == s[k];
    }
  }

  /** An option contributes one argument starting with `p` when it is set to such a value, and none otherwise. */
  lemma OptionArgCount(prefix: string, option: Option<string>, p: string)
    ensures CountStartingWith(OptionArg(prefix, option), p) == if option.Some? && StartsWith(prefix + option.value, p) then 1 else 0
  {
    var args := OptionArg(prefix, option);
    if option.Some? {
      assert args[..0] == [];
    }
  }

  /** Among the option arguments there is a `--resume=` exactly once when a session is given, and never otherwise. */
  lemma ResumeCount(c: ClaudeCode, sessionId: Option<string>)
    ensures CountStartingWith(OptionArgs(c, sessionId), "--resume=") == if sessionId.Some? then 1 else 0
  {
    var p := "--resume=";
    var m := OptionArg("--model=", c.model);
    var r := OptionArg(p, sessionId);
    var s := OptionArg("--system-prompt=", c.systemPrompt);
    CountStartingWithAppend(m + r, s, p);
    CountStartingWithAppend(m, r, p);
    OptionArgCount("--model=", c.model, p);
    OptionArgCount(p, sessionId, p);
    OptionArgCount("--system-prompt=", c.systemPrompt, p);
    if c.model.Some? {
      DiffersAt("--model=" + c.model.value, p, 2);
    }
    if sessionId.Some? {
      StartsWithPrefix(p, sessionId.value);
    }
    if c.systemPrompt.Some? {
      DiffersAt("--system-prompt=" + c.systemPrompt.value, p, 2);
    }
  }

  /** Plan mode, approvals, the router, the permission flag and the API-key flag do not reach the command line. */
  lemma ArgvIgnoresFlags(c: ClaudeCode, d: ClaudeCode, prompt: string, sessionId: Option<string>)
    requires c.model == d.model && c.systemPrompt == d.systemPrompt
    ensures Argv(c, prompt, sessionId) == Argv(d, prompt, sessionId)
  {
  }

  /** The prompt the executor actually sends: the configured text wrapped around the caller's prompt. */
  function FinalPrompt(c: ClaudeCode, prompt: string): string {
    Apply(c.appendPrompt, prompt)
  }

  /**
   * `spawn`: a new conversation. The command is built from the wrapped prompt
   * with no session, and launched in `currentDir` with the environment's
   * variables; `osError` is the launch outcome.
   */
  function Spawn(c: ClaudeCode, currentDir: string, prompt: string, vars: map<string, string>, osError: Option<string>): (r: Result<SpawnedChild, ExecutorError>)
    ensures r.Err? <==> osError.Some?
    ensures r.Err? ==> r.error == SpawnFailed(osError.value)
    ensures r.Ok? ==> r.value.command == Command("npx", Argv(c, FinalPrompt(c, prompt), None))
    ensures r.Ok? ==> r.value.currentDir == currentDir && r.value.vars == vars
  {
    Launch(Command("npx", Argv(c, FinalPrompt(c, prompt), None)), currentDir, vars, osError)
  }

  /** `spawn_follow_up`: the same, resuming the session `sessionId`. */
  function SpawnFollowUp(c: ClaudeCode, currentDir: string, prompt: string, sessionId: string, vars: map<string, string>, osError: Option<string>): (r: Result<SpawnedChild, ExecutorError>)
    ensures r.Err? <==> osError.Some?
    ensures r.Err? ==> r.error == SpawnFailed(osError.value)
    ensures r.Ok? ==> r.value.command == Command("npx", Argv(c, FinalPrompt(c, prompt), Some(sessionId)))
    ensures r.Ok? ==> r.value.currentDir == currentDir && r.value.vars == vars
  {
    Launch(Command("npx", Argv(c, FinalPrompt(c, prompt), Some(sessionId))), currentDir, vars, osError)
  }

  /** A new conversation carries no `--resume=` option and ends with the wrapped prompt. */
  lemma SpawnStartsNewSession(c: ClaudeCode, currentDir: string, prompt: string, vars: map<string, string>)
    ensures var args := Spawn(c, currentDir, prompt, vars, None).value.command.args;
      && CountStartingWith(args[|BaseArgs|..|args| - 2], "--resume=") == 0
      && args[|args| - 1] == Apply(c.appendPrompt, prompt)
  {
    ArgvLayout(c, FinalPrompt(c, prompt), None);
    ResumeCount(c, None);
  }

  /** A follow-up carries exactly one `--resume=` option, naming the session, and ends with the wrapped prompt. */
  lemma FollowUpResumesSession(c: ClaudeCode, currentDir: string, prompt: string, sessionId: string, vars: map<string, string>)
    ensures var args := SpawnFollowUp(c, currentDir, prompt, sessionId, vars, None).value.command.args;
      && CountStartingWith(args[|BaseArgs|..|args| - 2], "--resume=") == 1
      && "--resume=" + sessionId in args[|BaseArgs|..|args| - 2]
      && args[|args| - 1] == Apply(c.appendPrompt, prompt)
  {
    ArgvLayout(c, FinalPrompt(c, prompt), Some(sessionId));
    ResumeCount(c, Some(sessionId));
  }

  /** The opening line of the feedback system prompt. */
  const FeedbackPromptIntro: string :=
    "You are a " + AssistantRole + " integrated into Glow, a document editor.\n"

  const AssistantRole := "document feedback assistant"

  const FeedbackPromptGuidance: string :=
    "Your role is to help users improve their writing based on their instructions.\n"
    + "\n"
    + "When providing feedback:\n"
    + "1. Be concise and actionable\n"
    + "2. Focus on the specific instruction given\n"
    + "3. Respect the user's writing voice while improving clarity\n"
    + "\n"

  /** The line that names the edit tool. */
  const FeedbackPromptToolLine: string := "When suggesting edits, use the " + SuggestEditToolName + " tool with:\n"

  const SuggestEditToolName := "suggest_edit"

  const FeedbackPromptFields: string :=
    "- original_text: The exact text to replace (must match document)\n"
    + "- suggested_text: The improved replacement text\n"
    + "- explanation: Brief explanation of why this improves the text\n"
    + "\n"
    + "If the instruction is unclear, ask for clarification rather than guessing."

  /** The system prompt used for document feedback. */
  const DocumentFeedbackSystemPrompt: string :=
    FeedbackPromptIntro + FeedbackPromptGuidance + FeedbackPromptToolLine + FeedbackPromptFields

  lemma IntroNamesAssistant()
    ensures ContainsAt(FeedbackPromptIntro, AssistantRole, 10)
  {
    ContainsInMiddle("You are a ", AssistantRole, " integrated into Glow, a document editor.\n");
  }

  lemma ToolLineNamesTool()
    ensures ContainsAt(FeedbackPromptToolLine, SuggestEditToolName, 31)
  {
    ContainsInMiddle("When suggesting edits, use the ", SuggestEditToolName, " tool with:\n");
  }

  /** The feedback prompt introduces the assistant and names the `suggest_edit` tool. */
  lemma SystemPromptMentionsTool()
    ensures Contains(DocumentFeedbackSystemPrompt, "document feedback assistant")
    ensures Contains(DocumentFeedbackSystemPrompt, "suggest_edit")
  {
    IntroNamesAssistant();
    ToolLineNamesTool();
    MentionsInFourParts(FeedbackPromptIntro, FeedbackPromptGuidance, FeedbackPromptToolLine, FeedbackPromptFields,
      AssistantRole, 10, SuggestEditToolName, 31);
  }

  /** Text found in the first and in the third of four parts is found in all four together. */
  lemma MentionsInFourParts(a: string, b: string, c: string, d: string, x: string, i: nat, y: string, j: nat)
    requires ContainsAt(a, x, i) && ContainsAt(c, y, j)
    ensures Contains(a + b + c + d, x) && Contains(a + b + c + d, y)
  {
    ContainsAtAppendRight(a, b, x, i);
    ContainsAtAppendRight(a + b, c, x, i);
    ContainsAtAppendRight(a + b + c, d, x, i);
    ContainsAtAppendLeft(a + b, c, y, j);
    ContainsAtAppendRight(a + b + c, d, y, |a + b| + j);
  }

  /**
   * `PathBuf::join` with a relative name on Unix: a '/' goes between the two
   * only when the base is non-empty and does not already end in one.
   */
  function JoinPath(base: string, name: string): (p: string)
    ensures |p| >= |name| && p[|p| - |name|..] == name
    ensures var dir := p[..|p| - |name|];
      && (dir == base || dir == base + "/")
      && (base != [] ==> dir[|dir| - 1] == '/')
      && (base != [] && base[|base| - 1] == '/' ==> dir == base)
  {
    if base == [] || base[|base| - 1] == '/' then base + name else base + "/" + name
  }

  /** The configuration file of the command-line tool, under the home directory when there is one. */
  function DefaultMcpConfigPath(home: Option<string>): (p: Option<string>)
    ensures p.Some? <==> home.Some?
    ensures p.Some? ==> p.value == JoinPath(home.value, ".claude.json")
  {
    match home
    case None => None
    case Some(h) => Some(JoinPath(h, ".claude.json"))
  }

  /** A home with or without a trailing '/' gives the same one-separator path. */
  lemma DefaultMcpConfigPathExamples()
    ensures DefaultMcpConfigPath(Some("/home/u")) == Some("/home/u/.claude.json")
    ensures DefaultMcpConfigPath(Some("/home/u/")) == Some("/home/u/.claude.json")
    ensures DefaultMcpConfigPath(Some("/")) == Some("/.claude.json")
    ensures DefaultMcpConfigPath(None) == None
  {
    var h1: string, h2: string, h3: string := "/home/u", "/home/u/", "/";
    assert h1[|h1| - 1] == 'u' && h2[|h2| - 1] == '/' && h3[|h3| - 1] == '/';
    assert h1 + "/" + ".claude.json" == "/home/u/.claude.json";
    assert h2 + ".claude.json" == "/home/u/.claude.json";
    assert h3 + ".claude.json" == "/.claude.json";
  }

  /**
   * The availability probe, given whether the configuration file exists and
   * whether `npx --version` succeeds.
   */
  function GetAvailabilityInfo(configExists: bool, npxSucceeds: bool): (a: AvailabilityInfo)
    ensures a == Available <==> configExists
    ensures a == InstallationFound <==> !configExists && npxSucceeds
    ensures a == NotFound <==> !configExists && !npxSucceeds
  {
    if configExists then Available
    else if npxSucceeds then InstallationFound
    else NotFound
  }

  /** Claude Code's setup helper: instructions to install and authenticate the tool. */
  function SetupHelperAction(): (r: Result<SetupAction, ExecutorError>)
    ensures r.Ok? && r.value.description == "Install and authenticate Claude Code CLI"
    ensures r.value.command == Some("npx -y @anthropic-ai/claude-code --help")
    ensures r.value.url == Some("https://docs.anthropic.com/en/docs/claude-code")
  {
    Ok(SetupAction(
      "Install and authenticate Claude Code CLI",
      Some("npx -y @anthropic-ai/claude-code --help"),
      Some("https://docs.anthropic.com/en/docs/claude-code")))
  }
}
