/** The supported document agents and the dispatch of the executor interface over them. */
module Agents {
  import opened Wrappers
  import opened Types
  import opened Errors
  import opened Executors
  import Claude

  /** Every supported agent together with its configuration; Claude Code is the only one. */
  datatype DocumentAgent = ClaudeCode(config: Claude.ClaudeCode)

  /** The kind of an agent, without its configuration. */
  datatype BaseDocumentAgent = ClaudeCodeKind

  function BaseAgent(agent: DocumentAgent): BaseDocumentAgent {
    match agent
    case ClaudeCode(_) => ClaudeCodeKind
  }

  function DisplayName(agent: DocumentAgent): (name: string)
    ensures agent.ClaudeCode? ==> name == "Claude Code"
  {
    match agent
    case ClaudeCode(_) => "Claude Code"
  }

  /** The serialised name of an agent kind: its variant name in screaming snake case. */
  function BaseAgentName(b: BaseDocumentAgent): string {
    match b
    case ClaudeCodeKind => "CLAUDE_CODE"
  }

  /** Parsing an agent kind from its name; only the exact serialised name is accepted. */
  function ParseBaseAgent(s: string): (r: Option<BaseDocumentAgent>)
    ensures r.Some? <==> s == "CLAUDE_CODE"
    ensures r.Some? ==> BaseAgentName(r.value) == s
  {
    if s == "CLAUDE_CODE" then Some(ClaudeCodeKind) else None
  }

  /** Parsing inverts naming. */
  lemma ParseBaseAgentName(b: BaseDocumentAgent)
    ensures ParseBaseAgent(BaseAgentName(b)) == Some(b)
  {
  }

  /** The default agent is Claude Code with its default configuration. */
  function DefaultDocumentAgent(): (agent: DocumentAgent)
    ensures agent == ClaudeCode(Claude.NewClaudeCode())
    ensures BaseAgent(agent) == ClaudeCodeKind && DisplayName(agent) == "Claude Code"
  {
    ClaudeCode(Claude.NewClaudeCode())
  }

  function UseApprovals(agent: DocumentAgent): (r: DocumentAgent)
    ensures r.config == Claude.UseApprovals(agent.config)
  {
    match agent
    case ClaudeCode(c) => ClaudeCode(Claude.UseApprovals(c))
  }

  function Spawn(agent: DocumentAgent, currentDir: string, prompt: string, vars: map<string, string>, osError: Option<string>): (r: Result<SpawnedChild, ExecutorError>)
    ensures r == Claude.Spawn(agent.config, currentDir, prompt, vars, osError)
  {
    match agent
    case ClaudeCode(c) => Claude.Spawn(c, currentDir, prompt, vars, osError)
  }

  function SpawnFollowUp(agent: DocumentAgent, currentDir: string, prompt: string, sessionId: string, vars: map<string, string>, osError: Option<string>): (r: Result<SpawnedChild, ExecutorError>)
    ensures r == Claude.SpawnFollowUp(agent.config, currentDir, prompt, sessionId, vars, osError)
  {
    match agent
    case ClaudeCode(c) => Claude.SpawnFollowUp(c, currentDir, prompt, sessionId, vars, osError)
  }

  /** `spawn_review`: resume the given session, or start a new one when there is none. */
  function SpawnReview(agent: DocumentAgent, currentDir: string, prompt: string, sessionId: Option<string>, vars: map<string, string>, osError: Option<string>): (r: Result<SpawnedChild, ExecutorError>)
    ensures sessionId.Some? ==> r == SpawnFollowUp(agent, currentDir, prompt, sessionId.value, vars, osError)
    ensures sessionId.None? ==> r == Spawn(agent, currentDir, prompt, vars, osError)
  {
    match sessionId
    case Some(id) => SpawnFollowUp(agent, currentDir, prompt, id, vars, osError)
    case None => Spawn(agent, currentDir, prompt, vars, osError)
  }

  /**
   * A review launches a command line that resumes a session exactly when one
   * is given; either way the last argument is the wrapped prompt.
   */
  lemma SpawnReviewResumesIffSession(agent: DocumentAgent, currentDir: string, prompt: string, sessionId: Option<string>, vars: map<string, string>)
    ensures var args := SpawnReview(agent, currentDir, prompt, sessionId, vars, None).value.command.args;
      && |args| >= |Claude.BaseArgs| + 2
      && Claude.CountStartingWith(args[|Claude.BaseArgs|..|args| - 2], "--resume=") == (if sessionId.Some? then 1 else 0)
      && args[|args| - 1] == Apply(agent.config.appendPrompt, prompt)
  {
    match sessionId
    case Some(id) => Claude.FollowUpResumesSession(agent.config, currentDir, prompt, id, vars);
    case None => Claude.SpawnStartsNewSession(agent.config, currentDir, prompt, vars);
  }

  /** Claude Code overrides the default probe: configuration present makes it `Available`. */
  function GetAvailabilityInfo(agent: DocumentAgent, configExists: bool, npxSucceeds: bool): (a: AvailabilityInfo)
    ensures a == Claude.GetAvailabilityInfo(configExists, npxSucceeds)
  {
    match agent
    case ClaudeCode(_) => Claude.GetAvailabilityInfo(configExists, npxSucceeds)
  }

  /** Claude Code overrides the default setup helper with its own instructions. */
  function GetSetupHelperAction(agent: DocumentAgent): (r: Result<SetupAction, ExecutorError>)
    ensures r == Claude.SetupHelperAction() && r != DefaultSetupHelperAction()
  {
    match agent
    case ClaudeCode(_) => Claude.SetupHelperAction()
  }
}
