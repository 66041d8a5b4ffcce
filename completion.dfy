/** The completion codes every XFS4IoT completion payload carries. */
module Completion {
  import opened Wrappers

  datatype CompletionCode =
    | Success
    | CommandErrorCode
    | Canceled
    | DeviceNotReady
    | HardwareError
    | InternalError
    | InvalidCommand
    | InvalidRequestID
    | TimeOut
    | UnsupportedCommand
    | InvalidData
    | UserError
    | UnsupportedData
    | FraudAttempt
    | SequenceError
    | AuthorisationRequired
    | NoCommandNonce
    | InvalidToken
    | InvalidTokenNonce
    | InvalidTokenHMAC
    | InvalidTokenFormat
    | InvalidTokenKeyNoValue
    | NotEnoughSpace

  /** The payload of a completion that only reports its outcome. */
  datatype Outcome = Outcome(completionCode: CompletionCode, errorDescription: Option<string>)
}
