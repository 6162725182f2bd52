/**
 * The controller's error codes and the last-error register that every
 * subsystem reports into.
 *
 * The codes form one flat enumeration whose numeric values are grouped by
 * subsystem.  The register keeps the last error that was set and a flag that
 * `IsError` reports exactly once.
 */
module ErrorState {
  import opened Wrappers

  /** The error codes of the controller, one constructor per enumerator. */
  datatype ErrorCode =
    | NoError
    // communication between host and cortex
    | ChecksumExpected | ChecksumWrong | ParamWrong | ParamNumberWrong | UnrecognizedCmd
    | CortexPowerOnWithoutSetup | CortexSetupMissing
    // encoders
    | EncoderConnectionFailed | EncoderCallFailed | EncoderCheckFailed
    // configuration
    | MisconfigTooManyServos | MisconfigTooManyEncoders | MisconfigTooManySteppers
    | MisconfigServoWithStepper | MisconfigServoWithEncoder | MisconfigEncoderStepperMismatch
    | MisconfigNoSteppers | MisconfigNoEncoders | MisconfigEncoderWithNoStepper
    | MisconfigStepper | MisconfigServo
    // herkulex servos
    | HerkulexCommunicationFailed | HerkulexStatusFailed
    // cortex
    | CortexConnectionFailed | CortexComFailed | CortexLogComFailed | CortexNoResponse
    // webserver
    | WebserverTimeout
    // anything else
    | UnknownError

  /** The numeric value of each enumerator. */
  function Code(e: ErrorCode): nat
  {
    match e
    case NoError => 0
    case ChecksumExpected => 1
    case ChecksumWrong => 2
    case ParamWrong => 3
    case ParamNumberWrong => 4
    case UnrecognizedCmd => 5
    case CortexPowerOnWithoutSetup => 6
    case CortexSetupMissing => 7
    case EncoderConnectionFailed => 10
    case EncoderCallFailed => 11
    case EncoderCheckFailed => 12
    case MisconfigTooManyServos => 20
    case MisconfigTooManyEncoders => 21
    case MisconfigTooManySteppers => 22
    case MisconfigServoWithStepper => 23
    case MisconfigServoWithEncoder => 24
    case MisconfigEncoderStepperMismatch => 25
    case MisconfigNoSteppers => 26
    case MisconfigNoEncoders => 27
    case MisconfigEncoderWithNoStepper => 28
    case MisconfigStepper => 29
    case MisconfigServo => 30
    case HerkulexCommunicationFailed => 40
    case HerkulexStatusFailed => 41
    case CortexConnectionFailed => 50
    case CortexComFailed => 51
    case CortexLogComFailed => 52
    case CortexNoResponse => 53
    case WebserverTimeout => 60
    case UnknownError => 99
  }

  /** Reads a numeric value back as an error code; values no enumerator has give None. */
  function FromCode(n: int): (r: Option<ErrorCode>)
    ensures r.Some? ==> Code(r.value) == n
  {
    match n
    case 0 => Some(NoError)
    case 1 => Some(ChecksumExpected)
    case 2 => Some(ChecksumWrong)
    case 3 => Some(ParamWrong)
    case 4 => Some(ParamNumberWrong)
    case 5 => Some(UnrecognizedCmd)
    case 6 => Some(CortexPowerOnWithoutSetup)
    case 7 => Some(CortexSetupMissing)
    case 10 => Some(EncoderConnectionFailed)
    case 11 => Some(EncoderCallFailed)
    case 12 => Some(EncoderCheckFailed)
    case 20 => Some(MisconfigTooManyServos)
    case 21 => Some(MisconfigTooManyEncoders)
    case 22 => Some(MisconfigTooManySteppers)
    case 23 => Some(MisconfigServoWithStepper)
    case 24 => Some(MisconfigServoWithEncoder)
    case 25 => Some(MisconfigEncoderStepperMismatch)
    case 26 => Some(MisconfigNoSteppers)
    case 27 => Some(MisconfigNoEncoders)
    case 28 => Some(MisconfigEncoderWithNoStepper)
    case 29 => Some(MisconfigStepper)
    case 30 => Some(MisconfigServo)
    case 40 => Some(HerkulexCommunicationFailed)
    case 41 => Some(HerkulexStatusFailed)
    case 50 => Some(CortexConnectionFailed)
    case 51 => Some(CortexComFailed)
    case 52 => Some(CortexLogComFailed)
    case 53 => Some(CortexNoResponse)
    case 60 => Some(WebserverTimeout)
    case 99 => Some(UnknownError)
    case _ => None
  }

  /** Reading a code back gives the enumerator it came from. */
  lemma FromCodeOfCode(e: ErrorCode)
    ensures FromCode(Code(e)) == Some(e)
  {
    match e
    case NoError =>
    case ChecksumExpected =>
    case ChecksumWrong =>
    case ParamWrong =>
    case ParamNumberWrong =>
    case UnrecognizedCmd =>
    case CortexPowerOnWithoutSetup =>
    case CortexSetupMissing =>
    case EncoderConnectionFailed =>
    case EncoderCallFailed =>
    case EncoderCheckFailed =>
    case MisconfigTooManyServos =>
    case MisconfigTooManyEncoders =>
    case MisconfigTooManySteppers =>
    case MisconfigServoWithStepper =>
    case MisconfigServoWithEncoder =>
    case MisconfigEncoderStepperMismatch =>
    case MisconfigNoSteppers =>
    case MisconfigNoEncoders =>
    case MisconfigEncoderWithNoStepper =>
    case MisconfigStepper =>
    case MisconfigServo =>
    case HerkulexCommunicationFailed =>
    case HerkulexStatusFailed =>
    case CortexConnectionFailed =>
    case CortexComFailed =>
    case CortexLogComFailed =>
    case CortexNoResponse =>
    case WebserverTimeout =>
    case UnknownError =>
  }

  /** NO_ERROR is 0, no other enumerator is, and all enumerators are distinct. */
  lemma CodesDistinct(e1: ErrorCode, e2: ErrorCode)
    ensures Code(e1) == Code(e2) <==> e1 == e2
    ensures Code(e1) == 0 <==> e1 == NoError
  {
    FromCodeOfCode(e1);
    FromCodeOfCode(e2);
  }

  /** The subsystems the enumeration groups its codes by. */
  datatype Subsystem = NoSubsystem | Communication | Encoder | Configuration | Herkulex | Cortex | Webserver | Unknown

  /** The subsystem each enumerator is declared under. */
  function SubsystemOf(e: ErrorCode): Subsystem
  {
    match e
    case NoError => NoSubsystem
    case ChecksumExpected | ChecksumWrong | ParamWrong | ParamNumberWrong | UnrecognizedCmd
      | CortexPowerOnWithoutSetup | CortexSetupMissing => Communication
    case EncoderConnectionFailed | EncoderCallFailed | EncoderCheckFailed => Encoder
    case MisconfigTooManyServos | MisconfigTooManyEncoders | MisconfigTooManySteppers
      | MisconfigServoWithStepper | MisconfigServoWithEncoder | MisconfigEncoderStepperMismatch
      | MisconfigNoSteppers | MisconfigNoEncoders | MisconfigEncoderWithNoStepper
      | MisconfigStepper | MisconfigServo => Configuration
    case HerkulexCommunicationFailed | HerkulexStatusFailed => Herkulex
    case CortexConnectionFailed | CortexComFailed | CortexLogComFailed | CortexNoResponse => Cortex
    case WebserverTimeout => Webserver
    case UnknownError => Unknown
  }

  /** The numeric range reserved for each subsystem. */
  function CodeRange(s: Subsystem): (r: (nat, nat))
    ensures r.0 <= r.1
  {
    match s
    case NoSubsystem => (0, 0)
    case Communication => (1, 7)
    case Encoder => (10, 12)
    case Configuration => (20, 30)
    case Herkulex => (40, 41)
    case Cortex => (50, 53)
    case Webserver => (60, 60)
    case Unknown => (99, 99)
  }

  /** Every code lies in the range of its own subsystem and in no other range. */
  lemma CodeInOwnRangeOnly(e: ErrorCode, s: Subsystem)
    ensures CodeRange(s).0 <= Code(e) <= CodeRange(s).1 <==> s == SubsystemOf(e)
  {
  }

  /** The subsystem ranges do not overlap. */
  lemma RangesDisjoint(s1: Subsystem, s2: Subsystem, n: int)
    requires CodeRange(s1).0 <= n <= CodeRange(s1).1
    requires CodeRange(s2).0 <= n <= CodeRange(s2).1
    ensures s1 == s2
  {
  }

  /** The register's value: the last error set and whether an error is pending for `IsError`. */
  datatype Register = Register(lastError: ErrorCode, pending: bool)

  /** One call on the register. */
  datatype Call = SetError(err: ErrorCode) | ResetError | IsError

  /** The register after `call`. */
  function Apply(r: Register, call: Call): (r': Register)
    ensures call.SetError? ==> r'.lastError == call.err && r'.pending
    ensures call.ResetError? ==> r'.lastError == NoError && !r'.pending
    ensures call.IsError? ==> r'.lastError == r.lastError && !r'.pending
  {
    match call
    case SetError(e) => Register(e, true)
    case ResetError => Register(NoError, false)
    case IsError => Register(r.lastError, false)
  }

  /** The register after a sequence of calls, applied in order. */
  function Run(r: Register, calls: seq<Call>): Register
    decreases |calls|
  {
    if calls == [] then r else Apply(Run(r, calls[..|calls| - 1]), calls[|calls| - 1])
  }

  /** The register's state at start-up. */
  const Initial := Register(NoError, false)

  /**
   * True iff some call of `calls` set an error and no later call queried or
   * reset the register.
   */
  ghost predicate SetSinceLastQuery(calls: seq<Call>)
  {
    exists i :: 0 <= i < |calls| && calls[i].SetError? &&
      forall j :: i < j < |calls| ==> calls[j].SetError?
  }

  /**
   * `isError()` answers true exactly when an error was set after the last
   * reset or query: one query reports an error once, and the next reports it
   * no more unless a new error was set in between.
   */
  lemma IsErrorReportsOnce(calls: seq<Call>)
    ensures Run(Initial, calls).pending <==> SetSinceLastQuery(calls)
  {
    if calls != [] {
      var n := |calls| - 1;
      if calls[n].SetError? {
        assert calls[n].SetError? && forall j :: n < j < |calls| ==> calls[j].SetError?;
      } else {
        forall i | 0 <= i < |calls| && calls[i].SetError?
          ensures exists j :: i < j < |calls| && !calls[j].SetError?
        {
          assert i < n && !calls[n].SetError?;
        }
      }
    }
  }

  /** A query right after a query answers false, whatever came before. */
  lemma SecondQueryAnswersFalse(r: Register, calls: seq<Call>)
    ensures !Run(r, calls + [IsError]).pending
    ensures Run(r, calls + [IsError]).lastError == Run(r, calls).lastError
  {
    assert (calls + [IsError])[..|calls|] == calls;
  }

  /** The last error is the one most recently set, or NO_ERROR after a reset or at start-up. */
  lemma {:induction false} LastErrorIsMostRecent(r: Register, calls: seq<Call>, k: int, e: ErrorCode)
    requires 0 <= k < |calls| && calls[k] == SetError(e)
    requires forall j :: k < j < |calls| ==> calls[j].IsError?
    ensures Run(r, calls).lastError == e
    decreases |calls|
  {
    if k < |calls| - 1 {
      LastErrorIsMostRecent(r, calls[..|calls| - 1], k, e);
    } else {
      assert calls[|calls| - 1] == SetError(e);
    }
  }

  /** The process-wide register of the controller, held as an object. */
  class ErrorRegister {
    var lastError: ErrorCode
    var pending: bool

    /** The register's value, for stating what each call does to it. */
    function Value(): Register
      reads this
    {
      Register(lastError, pending)
    }

    constructor ()
      ensures Value() == Initial
    {
      lastError := NoError;
      pending := false;
    }

    /** setError: records `err` as the last error and marks it pending. */
    method SetError(err: ErrorCode)
      modifies this
      ensures Value() == Apply(old(Value()), Call.SetError(err))
      ensures GetLastError() == err
    {
      lastError := err;
      pending := true;
    }

    /** resetError: sets the last error back to NO_ERROR. */
    method ResetError()
      modifies this
      ensures Value() == Apply(old(Value()), Call.ResetError)
      ensures GetLastError() == NoError
    {
      lastError := NoError;
      pending := false;
    }

    /** getLastError: the last error set by setError. */
    function GetLastError(): ErrorCode
      reads this
    {
      lastError
    }

    /** isError: true if an error has been set; a second call without a new error answers false. */
    method IsError() returns (r: bool)
      modifies this
      ensures r == old(pending)
      ensures Value() == Apply(old(Value()), Call.IsError)
    {
      r := pending;
      pending := false;
    }
  }
}
