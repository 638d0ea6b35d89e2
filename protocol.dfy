/** The control protocol spoken with Claude Code over its standard streams. */
module Protocol {
  import opened Wrappers
  import Json

  /** The protocol version a client announces when it gives none. */
  function DefaultProtocolVersion(): (v: string)
    ensures v == "1.0"
  {
    "1.0"
  }

  datatype ClientInfo = ClientInfo(name: string, version: string)

  /** A change to a permission suggested or granted by the agent. */
  datatype PermissionUpdate = PermissionUpdate(permission: string, value: Json.Value)

  /** The answer to a request to use a tool. */
  datatype PermissionResult =
    | Allow(updatedInput: Option<Json.Value>, updatedPermissions: Option<seq<PermissionUpdate>>)
    | Deny(message: string, interrupt: Option<bool>)

  /** Requests a client sends to Claude Code. */
  datatype ClaudeRequest =
    | Initialize(protocolVersion: string, clientInfo: Option<ClientInfo>)
    | UserMessage(content: string)
    | PermissionResponse(toolUseId: string, response: PermissionResult)
    | Interrupt

  /** Requests from Claude Code that need an answer. */
  datatype ControlRequest =
    | CanUseTool(toolName: string, input: Json.Value, permissionSuggestions: Option<seq<PermissionUpdate>>, toolUseId: Option<string>)
    | HookCallback(hookName: string, hookToolName: Option<string>, toolInput: Option<Json.Value>)

  /** Permission granted, with the input and the permissions unchanged. */
  function AllowResult(): (r: PermissionResult)
    ensures r.Allow? && r.updatedInput == None && r.updatedPermissions == None
  {
    Allow(None, None)
  }

  /** Permission refused, without interrupting the session. */
  function DenyResult(message: string): (r: PermissionResult)
    ensures r.Deny? && r.message == message && r.interrupt == None
  {
    Deny(message, None)
  }

  /** Permission refused, and the session is to be interrupted. */
  function DenyAndInterrupt(message: string): (r: PermissionResult)
    ensures r.Deny? && r.message == message && r.interrupt == Some(true)
  {
    Deny(message, Some(true))
  }
}
