/** The contract's error enumeration and its conversion to the framework's
    `SCError`, whose `Custom(code)` form is what a failed call reports. */
module Errors {
  import opened Host

  datatype PingPongError =
    | AlreadyPinged
    | NoPingFound
    | InvalidPaymentToken
    | IncorrectPingAmount
    | CannotPongBeforeDeadline
    | DurationCannotBeZero
    | PingAmountCannotBeZero
    | OnlyOwnerCanPerformThisAction

  /** `SCError`, reduced to the `Custom(code)` form that this contract raises. */
  datatype SCError = Custom(code: nat)

  /** Raised by `ping`, `pong` and `extend_ping_duration` while the contract is paused. */
  const ContractPaused: SCError := Custom(8)

  /** Raised by `extend_ping_duration` when asked to extend by zero seconds. */
  const ZeroExtension: SCError := Custom(9)

  /** `From<PingPongError> for SCError`: each variant gets its own code below 8. */
  function FromError(e: PingPongError): (r: SCError)
    ensures r.code < 8
    ensures r != ContractPaused && r != ZeroExtension
  {
    match e
    case AlreadyPinged => Custom(0)
    case NoPingFound => Custom(1)
    case InvalidPaymentToken => Custom(2)
    case IncorrectPingAmount => Custom(3)
    case CannotPongBeforeDeadline => Custom(4)
    case DurationCannotBeZero => Custom(5)
    case PingAmountCannotBeZero => Custom(6)
    case OnlyOwnerCanPerformThisAction => Custom(7)
  }

  /** How a client reads a reported code back: the variant numbered `code` in
      declaration order, if any. */
  function ErrorOfCode(code: nat): (r: Option<PingPongError>)
    ensures r.Some? <==> code < 8
  {
    if code == 0 then Some(AlreadyPinged)
    else if code == 1 then Some(NoPingFound)
    else if code == 2 then Some(InvalidPaymentToken)
    else if code == 3 then Some(IncorrectPingAmount)
    else if code == 4 then Some(CannotPongBeforeDeadline)
    else if code == 5 then Some(DurationCannotBeZero)
    else if code == 6 then Some(PingAmountCannotBeZero)
    else if code == 7 then Some(OnlyOwnerCanPerformThisAction)
    else None
  }

  /** Decoding the code of an error gives the error back. */
  lemma DecodeFromError(e: PingPongError)
    ensures ErrorOfCode(FromError(e).code) == Some(e)
  {
  }

  /** Every code below 8 is the code of exactly the error it decodes to. */
  lemma EncodeErrorOfCode(code: nat)
    requires code < 8
    ensures FromError(ErrorOfCode(code).value).code == code
  {
  }

  /** The mapping is injective: distinct errors are reported under distinct codes. */
  lemma FromErrorInjective(e1: PingPongError, e2: PingPongError)
    ensures FromError(e1) == FromError(e2) ==> e1 == e2
  {
  }
}
