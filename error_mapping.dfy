/**
 * The exception-to-completion-code choice made by the generated command
 * handlers' HandleError: each is a first-match switch over the exception that
 * ended the command, and the handlers differ in which exceptions they know.
 */
module ErrorMapping {
  import opened Wrappers
  import C = Completion

  /** The exception classes the switches test for; any other class is OtherException. */
  datatype ExceptionKind =
    | InvalidDataException
    | InternalErrorException
    | UnsupportedDataException
    | SequenceErrorException
    | AuthorisationRequiredException
    | HardwareErrorException
    | UserErrorException
    | FraudAttemptException
    | DeviceNotReadyException
    | InvalidCommandException
    | NotEnoughSpaceException
    | NotImplementedException
    | NotSupportedException
    | TimeoutCanceledException(isCancelRequested: bool)
    | OtherException(typeName: string)

  datatype CommandException = CommandException(kind: ExceptionKind, message: string)

  /** The completion sent in place of the normal one. */
  datatype ErrorCompletion = ErrorCompletion(requestId: int, completionCode: C.CompletionCode, errorDescription: string)

  /**
   * Reference definition: the eleven framework exceptions that are named after a
   * completion code, and that code.
   */
  function SameNamedCode(k: ExceptionKind): (r: Option<C.CompletionCode>)
  {
    match k
    case InvalidDataException => Some(C.InvalidData)
    case InternalErrorException => Some(C.InternalError)
    case UnsupportedDataException => Some(C.UnsupportedData)
    case SequenceErrorException => Some(C.SequenceError)
    case AuthorisationRequiredException => Some(C.AuthorisationRequired)
    case HardwareErrorException => Some(C.HardwareError)
    case UserErrorException => Some(C.UserError)
    case FraudAttemptException => Some(C.FraudAttempt)
    case DeviceNotReadyException => Some(C.DeviceNotReady)
    case InvalidCommandException => Some(C.InvalidCommand)
    case NotEnoughSpaceException => Some(C.NotEnoughSpace)
    case _ => None
  }

  /** Exceptions meaning the command is not available: UnsupportedCommand for most handlers. */
  predicate IsUnsupported(k: ExceptionKind)
  {
    k.NotImplementedException? || k.NotSupportedException?
  }

  /** Check.ReadImage: every framework exception keeps its own code. */
  function ReadImageErrorCode(k: ExceptionKind): (c: C.CompletionCode)
    ensures SameNamedCode(k).Some? ==> c == SameNamedCode(k).value
    ensures IsUnsupported(k) ==> c == C.UnsupportedCommand
    ensures k.TimeoutCanceledException? ==> c == (if k.isCancelRequested then C.Canceled else C.TimeOut)
    ensures k.OtherException? ==> c == C.InternalError
  {
    match k
    case InvalidDataException => C.InvalidData
    case InternalErrorException => C.InternalError
    case UnsupportedDataException => C.UnsupportedData
    case SequenceErrorException => C.SequenceError
    case AuthorisationRequiredException => C.AuthorisationRequired
    case HardwareErrorException => C.HardwareError
    case UserErrorException => C.UserError
    case FraudAttemptException => C.FraudAttempt
    case DeviceNotReadyException => C.DeviceNotReady
    case InvalidCommandException => C.InvalidCommand
    case NotEnoughSpaceException => C.NotEnoughSpace
    case NotImplementedException => C.UnsupportedCommand
    case NotSupportedException => C.UnsupportedCommand
    case TimeoutCanceledException(cancelled) => if cancelled then C.Canceled else C.TimeOut
    case OtherException(_) => C.InternalError
  }

  /** CardReader.EMVClessPerformTransaction: only InvalidData keeps its own code. */
  function EmvClessErrorCode(k: ExceptionKind): (c: C.CompletionCode)
    ensures k.InvalidDataException? ==> c == C.InvalidData
    ensures IsUnsupported(k) ==> c == C.UnsupportedCommand
    ensures k.TimeoutCanceledException? ==> c == (if k.isCancelRequested then C.Canceled else C.TimeOut)
    ensures !k.InvalidDataException? && !IsUnsupported(k) && !k.TimeoutCanceledException? ==> c == C.InternalError
  {
    match k
    case InvalidDataException => C.InvalidData
    case NotImplementedException => C.UnsupportedCommand
    case NotSupportedException => C.UnsupportedCommand
    case TimeoutCanceledException(cancelled) => if cancelled then C.Canceled else C.TimeOut
    case _ => C.InternalError
  }

  /** CardReader.SetKey: the same four arms as EMVClessPerformTransaction. */
  function SetKeyErrorCode(k: ExceptionKind): (c: C.CompletionCode)
    ensures k.InvalidDataException? ==> c == C.InvalidData
    ensures IsUnsupported(k) ==> c == C.UnsupportedCommand
    ensures k.TimeoutCanceledException? ==> c == (if k.isCancelRequested then C.Canceled else C.TimeOut)
    ensures !k.InvalidDataException? && !IsUnsupported(k) && !k.TimeoutCanceledException? ==> c == C.InternalError
  {
    match k
    case InvalidDataException => C.InvalidData
    case NotImplementedException => C.UnsupportedCommand
    case NotSupportedException => C.UnsupportedCommand
    case TimeoutCanceledException(cancelled) => if cancelled then C.Canceled else C.TimeOut
    case _ => C.InternalError
  }

  /** CardReader.ResetCount: only InvalidData and NotImplemented are recognised. */
  function ResetCountErrorCode(k: ExceptionKind): (c: C.CompletionCode)
    ensures k.InvalidDataException? ==> c == C.InvalidData
    ensures k.NotImplementedException? ==> c == C.UnsupportedCommand
    ensures !k.InvalidDataException? && !k.NotImplementedException? ==> c == C.InternalError
  {
    match k
    case InvalidDataException => C.InvalidData
    case NotImplementedException => C.UnsupportedCommand
    case _ => C.InternalError
  }

  /** No exception is ever reported as a success, by any of the four handlers. */
  lemma NeverSuccess(k: ExceptionKind)
    ensures ReadImageErrorCode(k) != C.Success && EmvClessErrorCode(k) != C.Success
    ensures SetKeyErrorCode(k) != C.Success && ResetCountErrorCode(k) != C.Success
  {
  }

  /**
   * The card-reader mapping agrees with the check-scanner one exactly on the
   * exceptions it recognises and on unlisted ones; the ten other named
   * framework exceptions all collapse to InternalError.
   */
  lemma EmvClessCollapsesNamedExceptions(k: ExceptionKind)
    ensures EmvClessErrorCode(k) == ReadImageErrorCode(k)
            <==> (SameNamedCode(k).None? || k.InvalidDataException? || k.InternalErrorException?)
    ensures SameNamedCode(k).Some? && !k.InvalidDataException? ==> EmvClessErrorCode(k) == C.InternalError
  {
  }

  /** SetKey and EMVClessPerformTransaction choose the same code for every exception. */
  lemma SetKeyMatchesEmvCless(k: ExceptionKind)
    ensures SetKeyErrorCode(k) == EmvClessErrorCode(k)
  {
  }

  /**
   * ResetCount differs from the other card-reader handlers exactly on
   * NotSupported and on timeouts, which it reports as InternalError.
   */
  lemma ResetCountDiffersFromEmvCless(k: ExceptionKind)
    ensures ResetCountErrorCode(k) != EmvClessErrorCode(k)
            <==> (k.NotSupportedException? || k.TimeoutCanceledException?)
    ensures ResetCountErrorCode(k) != EmvClessErrorCode(k) ==> ResetCountErrorCode(k) == C.InternalError
  {
  }

  /** The error completion goes out under the command's own request id; a missing id fails IsTrue(). */
  function ErrorReply(requestId: Option<int>, code: C.CompletionCode, e: CommandException): (r: Result<ErrorCompletion>)
    ensures r.Success? <==> requestId.Some?
    ensures r.Failure? ==> r.error.AssertionFault?
    ensures r.Success? ==> r.value.requestId == requestId.value && r.value.completionCode == code
                           && r.value.errorDescription == e.message
  {
    match requestId
    case None => Failure(AssertionFault("RequestId.HasValue"))
    case Some(id) => Success(ErrorCompletion(id, code, e.message))
  }

  function ReadImageHandleError(requestId: Option<int>, e: CommandException): (r: Result<ErrorCompletion>)
    ensures r.Success? <==> requestId.Some?
    ensures r.Success? ==> r.value == ErrorCompletion(requestId.value, ReadImageErrorCode(e.kind), e.message)
  {
    ErrorReply(requestId, ReadImageErrorCode(e.kind), e)
  }

  function EmvClessHandleError(requestId: Option<int>, e: CommandException): (r: Result<ErrorCompletion>)
    ensures r.Success? <==> requestId.Some?
    ensures r.Success? ==> r.value == ErrorCompletion(requestId.value, EmvClessErrorCode(e.kind), e.message)
  {
    ErrorReply(requestId, EmvClessErrorCode(e.kind), e)
  }

  function SetKeyHandleError(requestId: Option<int>, e: CommandException): (r: Result<ErrorCompletion>)
    ensures r.Success? <==> requestId.Some?
    ensures r.Success? ==> r.value == ErrorCompletion(requestId.value, SetKeyErrorCode(e.kind), e.message)
  {
    ErrorReply(requestId, SetKeyErrorCode(e.kind), e)
  }

  /** ResetCount's header id is not nullable and is not checked. */
  function ResetCountHandleError(requestId: int, e: CommandException): (r: ErrorCompletion)
    ensures r.requestId == requestId && r.errorDescription == e.message
    ensures r.completionCode == ResetCountErrorCode(e.kind)
  {
    ErrorCompletion(requestId, ResetCountErrorCode(e.kind), e.message)
  }
}
