/**
 * What every document executor shares: the command it launches, the child it
 * hands back, and the default answers of the executor interface for
 * executors that do not provide their own.
 */
module Executors {
  import opened Wrappers
  import opened Types
  import opened Errors

  /** A program with its argument vector, in order. */
  datatype Command = Command(program: string, args: seq<string>)

  /**
   * A launched executor process. The operating-system handle is not modelled;
   * what remains is what was launched, where, and which channels came with it.
   */
  datatype SpawnedChild = SpawnedChild(
    command: Command,
    currentDir: string,
    vars: map<string, string>,
    hasExitSignal: bool,
    hasInterruptSender: bool)

  /**
   * Launching `command` in `currentDir` with the variables `vars`. The
   * operating system's answer is the parameter `osError`: `None` when the
   * process started, `Some(e)` with its message otherwise.
   */
  function Launch(command: Command, currentDir: string, vars: map<string, string>, osError: Option<string>): (r: Result<SpawnedChild, ExecutorError>)
    ensures r.Err? <==> osError.Some?
    ensures r.Err? ==> r.error == SpawnFailed(osError.value)
    ensures r.Ok? ==> r.value.command == command && r.value.currentDir == currentDir && r.value.vars == vars
    ensures r.Ok? ==> !r.value.hasExitSignal && r.value.hasInterruptSender
  {
    match osError
    case Some(e) => Err(SpawnFailed(e))
    case None => Ok(SpawnedChild(command, currentDir, vars, false, true))
  }

  /**
   * The default availability probe: configuration present means the
   * installation was found; it never reports `Available`.
   */
  function DefaultAvailabilityInfo(configFound: bool): (a: AvailabilityInfo)
    ensures a == InstallationFound <==> configFound
    ensures a == NotFound <==> !configFound
    ensures a != Available
  {
    if configFound then InstallationFound else NotFound
  }

  /** The default setup helper: executors without one refuse. */
  function DefaultSetupHelperAction(): (r: Result<SetupAction, ExecutorError>)
    ensures r == Err(SetupHelperNotSupported)
  {
    Err(SetupHelperNotSupported)
  }
}
