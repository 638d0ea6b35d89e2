/** The executor error type; foreign error payloads (I/O, JSON) are kept as their message text. */
module Errors {

  datatype ExecutorError =
    | SpawnFailed(message: string)
    | ProcessFailed(message: string)
    | IoError(message: string)
    | JsonError(message: string)
    | NotAvailable(message: string)
    | SetupRequired(message: string)
    | SessionNotFound(message: string)
    | SetupHelperNotSupported
    | ApprovalDenied(message: string)
    | Timeout
    | Interrupted
    | ProtocolError(message: string)
    | ConfigError(message: string)
    | Other(message: string)
}
