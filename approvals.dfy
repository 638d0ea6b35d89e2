/** Approval of tool use by the agent. */
module Approvals {
  import opened Wrappers
  import opened Errors
  import Json

  /** The outcome of an approval request. */
  datatype ApprovalStatus =
    | Approved
    | Denied(message: string)
    | TimedOut

  function IsApproved(s: ApprovalStatus): (b: bool)
    ensures b <==> s == Approved
    ensures s.Denied? || s.TimedOut? ==> !b
  {
    s.Approved?
  }

  /** The approval service that approves every request without asking anyone. */
  function NoopRequestApproval(toolName: string, toolInput: Json.Value, toolUseId: Option<string>): (r: Result<ApprovalStatus, ExecutorError>)
    ensures r.Ok? && IsApproved(r.value)
  {
    Ok(Approved)
  }

  /** The no-op service gives the same answer whatever it is asked. */
  lemma NoopIgnoresRequest(n1: string, i1: Json.Value, u1: Option<string>, n2: string, i2: Json.Value, u2: Option<string>)
    ensures NoopRequestApproval(n1, i1, u1) == NoopRequestApproval(n2, i2, u2)
  {
  }
}
