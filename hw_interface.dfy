/**
 * The deterministic bookkeeping of the robot's hardware interface
 * (frcrobot_hw_interface.cpp): the mappings from the controllers' own enums
 * to the motor-controller vendor's enums, the unit-conversion table, the
 * vendor error classifier, the joystick direction-pad decoding with edge
 * detection, the alliance-station mapping, the robot-code-ready latch, the
 * write-on-change output caches, and the enabled-to-disabled edge that
 * disables the motor controllers.
 *
 * Hardware calls are not performed: each output loop returns the list of
 * hardware writes it would make, in order. The vendor's own enums are
 * modelled by the values the mappers name (constructor names starting
 * with Ctre); a value of the internal enums outside the ones a mapper lists
 * is an Other... constructor.
 */
module FrcRobotHwInterface {
  import opened Wrappers

  const Pi: real := 3.14159265358979323846

  // =============================================================== mappers

  datatype TalonMode =
    | PercentOutput | Position | Velocity | Current | Follower
    | MotionProfile | MotionMagic | Disabled | OtherTalonMode(code: int)

  datatype CtreControlMode =
    | CtrePercentOutput | CtrePosition | CtreVelocity | CtreCurrent | CtreFollower
    | CtreMotionProfile | CtreMotionMagic | CtreDisabled

  function TalonModeOf(m: CtreControlMode): TalonMode {
    match m
    case CtrePercentOutput => PercentOutput
    case CtrePosition => Position
    case CtreVelocity => Velocity
    case CtreCurrent => Current
    case CtreFollower => Follower
    case CtreMotionProfile => MotionProfile
    case CtreMotionMagic => MotionMagic
    case CtreDisabled => Disabled
  }

  /** convertControlMode: a listed mode maps to the same-named vendor mode;
      any other value fails and selects Disabled. */
  function ConvertControlMode(m: TalonMode): (r: (bool, CtreControlMode))
    ensures r.0 <==> !m.OtherTalonMode?
    ensures r.0 ==> TalonModeOf(r.1) == m
    ensures !r.0 ==> r.1 == CtreDisabled
  {
    match m
    case PercentOutput => (true, CtrePercentOutput)
    case Position => (true, CtrePosition)
    case Velocity => (true, CtreVelocity)
    case Current => (true, CtreCurrent)
    case Follower => (true, CtreFollower)
    case MotionProfile => (true, CtreMotionProfile)
    case MotionMagic => (true, CtreMotionMagic)
    case Disabled => (true, CtreDisabled)
    case OtherTalonMode(_) => (false, CtreDisabled)
  }

  datatype DemandType = DemandNeutral | DemandAuxPID | DemandArbitraryFeedForward | OtherDemandType(code: int)
  datatype CtreDemandType = CtreDemandNeutral | CtreDemandAuxPID | CtreDemandArbitraryFeedForward

  function DemandTypeOf(d: CtreDemandType): DemandType {
    match d
    case CtreDemandNeutral => DemandNeutral
    case CtreDemandAuxPID => DemandAuxPID
    case CtreDemandArbitraryFeedForward => DemandArbitraryFeedForward
  }

  /** What a bool-returning function hands back: a value, or nothing when
      control flows off its end (undefined in C++). */
  datatype ReturnValue = Returned(value: bool) | NoReturnValue

  /** convertDemand1Type: the success path has no return statement, so only
      the failure result is defined. */
  function ConvertDemand1Type(d: DemandType): (r: (ReturnValue, CtreDemandType))
    ensures r.0 != Returned(true)
    ensures r.0 == Returned(false) <==> d.OtherDemandType?
    ensures !d.OtherDemandType? ==> r.0 == NoReturnValue && DemandTypeOf(r.1) == d
    ensures d.OtherDemandType? ==> r.1 == CtreDemandNeutral
  {
    match d
    case DemandNeutral => (NoReturnValue, CtreDemandNeutral)
    case DemandAuxPID => (NoReturnValue, CtreDemandAuxPID)
    case DemandArbitraryFeedForward => (NoReturnValue, CtreDemandArbitraryFeedForward)
    case OtherDemandType(_) => (Returned(false), CtreDemandNeutral)
  }

  datatype NeutralMode = NeutralEEPROMSetting | NeutralCoast | NeutralBrake | OtherNeutralMode(code: int)
  datatype CtreNeutralMode = CtreEEPROMSetting | CtreCoast | CtreBrake

  function NeutralModeOf(n: CtreNeutralMode): NeutralMode {
    match n
    case CtreEEPROMSetting => NeutralEEPROMSetting
    case CtreCoast => NeutralCoast
    case CtreBrake => NeutralBrake
  }

  /** convertNeutralMode: failure selects the EEPROM setting. */
  function ConvertNeutralMode(n: NeutralMode): (r: (bool, CtreNeutralMode))
    ensures r.0 <==> !n.OtherNeutralMode?
    ensures r.0 ==> NeutralModeOf(r.1) == n
    ensures !r.0 ==> r.1 == CtreEEPROMSetting
  {
    match n
    case NeutralEEPROMSetting => (true, CtreEEPROMSetting)
    case NeutralCoast => (true, CtreCoast)
    case NeutralBrake => (true, CtreBrake)
    case OtherNeutralMode(_) => (false, CtreEEPROMSetting)
  }

  datatype FeedbackDevice =
    | FeedbackUninitialized | QuadEncoder | Analog | Tachometer | PulseWidthEncodedPosition
    | SensorSum | SensorDifference | RemoteSensor0 | RemoteSensor1 | SoftwareEmulatedSensor
    | OtherFeedbackDevice(code: int)

  datatype CtreFeedbackDevice =
    | CtreQuadEncoder | CtreAnalog | CtreTachometer | CtrePulseWidthEncodedPosition
    | CtreSensorSum | CtreSensorDifference | CtreRemoteSensor0 | CtreRemoteSensor1 | CtreSoftwareEmulatedSensor

  function FeedbackDeviceOf(f: CtreFeedbackDevice): FeedbackDevice {
    match f
    case CtreQuadEncoder => QuadEncoder
    case CtreAnalog => Analog
    case CtreTachometer => Tachometer
    case CtrePulseWidthEncodedPosition => PulseWidthEncodedPosition
    case CtreSensorSum => SensorSum
    case CtreSensorDifference => SensorDifference
    case CtreRemoteSensor0 => RemoteSensor0
    case CtreRemoteSensor1 => RemoteSensor1
    case CtreSoftwareEmulatedSensor => SoftwareEmulatedSensor
  }

  /** convertFeedbackDevice: Uninitialized is not listed; failure leaves the
      output as it was. */
  function ConvertFeedbackDevice(f: FeedbackDevice, prior: CtreFeedbackDevice): (r: (bool, CtreFeedbackDevice))
    ensures r.0 <==> !(f.FeedbackUninitialized? || f.OtherFeedbackDevice?)
    ensures r.0 ==> FeedbackDeviceOf(r.1) == f
    ensures !r.0 ==> r.1 == prior
  {
    match f
    case QuadEncoder => (true, CtreQuadEncoder)
    case Analog => (true, CtreAnalog)
    case Tachometer => (true, CtreTachometer)
    case PulseWidthEncodedPosition => (true, CtrePulseWidthEncodedPosition)
    case SensorSum => (true, CtreSensorSum)
    case SensorDifference => (true, CtreSensorDifference)
    case RemoteSensor0 => (true, CtreRemoteSensor0)
    case RemoteSensor1 => (true, CtreRemoteSensor1)
    case SoftwareEmulatedSensor => (true, CtreSoftwareEmulatedSensor)
    case _ => (false, prior)
  }

  datatype LimitSwitchSource =
    | FeedbackConnector | RemoteTalonSRX | RemoteCANifier | Deactivated | OtherLimitSwitchSource(code: int)
  datatype CtreLimitSwitchSource =
    | CtreFeedbackConnector | CtreRemoteTalonSRX | CtreRemoteCANifier | CtreDeactivated

  function LimitSwitchSourceOf(s: CtreLimitSwitchSource): LimitSwitchSource {
    match s
    case CtreFeedbackConnector => FeedbackConnector
    case CtreRemoteTalonSRX => RemoteTalonSRX
    case CtreRemoteCANifier => RemoteCANifier
    case CtreDeactivated => Deactivated
  }

  function ConvertLimitSwitchSource(s: LimitSwitchSource, prior: CtreLimitSwitchSource): (r: (bool, CtreLimitSwitchSource))
    ensures r.0 <==> !s.OtherLimitSwitchSource?
    ensures r.0 ==> LimitSwitchSourceOf(r.1) == s
    ensures !r.0 ==> r.1 == prior
  {
    match s
    case FeedbackConnector => (true, CtreFeedbackConnector)
    case RemoteTalonSRX => (true, CtreRemoteTalonSRX)
    case RemoteCANifier => (true, CtreRemoteCANifier)
    case Deactivated => (true, CtreDeactivated)
    case OtherLimitSwitchSource(_) => (false, prior)
  }

  datatype LimitSwitchNormal = NormallyOpen | NormallyClosed | NormalDisabled | OtherLimitSwitchNormal(code: int)
  datatype CtreLimitSwitchNormal = CtreNormallyOpen | CtreNormallyClosed | CtreNormalDisabled

  function LimitSwitchNormalOf(n: CtreLimitSwitchNormal): LimitSwitchNormal {
    match n
    case CtreNormallyOpen => NormallyOpen
    case CtreNormallyClosed => NormallyClosed
    case CtreNormalDisabled => NormalDisabled
  }

  function ConvertLimitSwitchNormal(n: LimitSwitchNormal, prior: CtreLimitSwitchNormal): (r: (bool, CtreLimitSwitchNormal))
    ensures r.0 <==> !n.OtherLimitSwitchNormal?
    ensures r.0 ==> LimitSwitchNormalOf(r.1) == n
    ensures !r.0 ==> r.1 == prior
  {
    match n
    case NormallyOpen => (true, CtreNormallyOpen)
    case NormallyClosed => (true, CtreNormallyClosed)
    case NormalDisabled => (true, CtreNormalDisabled)
    case OtherLimitSwitchNormal(_) => (false, prior)
  }

  datatype VelocityMeasurementPeriod =
    | Period1Ms | Period2Ms | Period5Ms | Period10Ms | Period20Ms | Period25Ms | Period50Ms | Period100Ms
    | OtherPeriod(code: int)
  datatype CtreVelocityMeasPeriod =
    | CtrePeriod1Ms | CtrePeriod2Ms | CtrePeriod5Ms | CtrePeriod10Ms
    | CtrePeriod20Ms | CtrePeriod25Ms | CtrePeriod50Ms | CtrePeriod100Ms

  function VelocityMeasurementPeriodOf(p: CtreVelocityMeasPeriod): VelocityMeasurementPeriod {
    match p
    case CtrePeriod1Ms => Period1Ms
    case CtrePeriod2Ms => Period2Ms
    case CtrePeriod5Ms => Period5Ms
    case CtrePeriod10Ms => Period10Ms
    case CtrePeriod20Ms => Period20Ms
    case CtrePeriod25Ms => Period25Ms
    case CtrePeriod50Ms => Period50Ms
    case CtrePeriod100Ms => Period100Ms
  }

  function ConvertVelocityMeasurementPeriod(p: VelocityMeasurementPeriod, prior: CtreVelocityMeasPeriod)
    : (r: (bool, CtreVelocityMeasPeriod))
    ensures r.0 <==> !p.OtherPeriod?
    ensures r.0 ==> VelocityMeasurementPeriodOf(r.1) == p
    ensures !r.0 ==> r.1 == prior
  {
    match p
    case Period1Ms => (true, CtrePeriod1Ms)
    case Period2Ms => (true, CtrePeriod2Ms)
    case Period5Ms => (true, CtrePeriod5Ms)
    case Period10Ms => (true, CtrePeriod10Ms)
    case Period20Ms => (true, CtrePeriod20Ms)
    case Period25Ms => (true, CtrePeriod25Ms)
    case Period50Ms => (true, CtrePeriod50Ms)
    case Period100Ms => (true, CtrePeriod100Ms)
    case OtherPeriod(_) => (false, prior)
  }

  datatype StatusFrame =
    | Status1General | Status2Feedback0 | Status3Quadrature | Status4AinTempVbat | Status6Misc
    | Status7CommStatus | Status8PulseWidth | Status9MotProfBuffer | Status10MotionMagic
    | Status11UartGadgeteer | Status12Feedback1 | Status13BasePIDF0 | Status14TurnPIDF1
    | Status15FirmwareApiStatus | OtherStatusFrame(code: int)
  datatype CtreStatusFrame =
    | CtreStatus1General | CtreStatus2Feedback0 | CtreStatus3Quadrature | CtreStatus4AinTempVbat
    | CtreStatus6Misc | CtreStatus7CommStatus | CtreStatus8PulseWidth | CtreStatus9MotProfBuffer
    | CtreStatus10MotionMagic | CtreStatus11UartGadgeteer | CtreStatus12Feedback1
    | CtreStatus13BasePIDF0 | CtreStatus14TurnPIDF1 | CtreStatus15FirmareApiStatus

  function StatusFrameOf(s: CtreStatusFrame): StatusFrame {
    match s
    case CtreStatus1General => Status1General
    case CtreStatus2Feedback0 => Status2Feedback0
    case CtreStatus3Quadrature => Status3Quadrature
    case CtreStatus4AinTempVbat => Status4AinTempVbat
    case CtreStatus6Misc => Status6Misc
    case CtreStatus7CommStatus => Status7CommStatus
    case CtreStatus8PulseWidth => Status8PulseWidth
    case CtreStatus9MotProfBuffer => Status9MotProfBuffer
    case CtreStatus10MotionMagic => Status10MotionMagic
    case CtreStatus11UartGadgeteer => Status11UartGadgeteer
    case CtreStatus12Feedback1 => Status12Feedback1
    case CtreStatus13BasePIDF0 => Status13BasePIDF0
    case CtreStatus14TurnPIDF1 => Status14TurnPIDF1
    case CtreStatus15FirmareApiStatus => Status15FirmwareApiStatus
  }

  function ConvertStatusFrame(s: StatusFrame, prior: CtreStatusFrame): (r: (bool, CtreStatusFrame))
    ensures r.0 <==> !s.OtherStatusFrame?
    ensures r.0 ==> StatusFrameOf(r.1) == s
    ensures !r.0 ==> r.1 == prior
  {
    match s
    case Status1General => (true, CtreStatus1General)
    case Status2Feedback0 => (true, CtreStatus2Feedback0)
    case Status3Quadrature => (true, CtreStatus3Quadrature)
    case Status4AinTempVbat => (true, CtreStatus4AinTempVbat)
    case Status6Misc => (true, CtreStatus6Misc)
    case Status7CommStatus => (true, CtreStatus7CommStatus)
    case Status8PulseWidth => (true, CtreStatus8PulseWidth)
    case Status9MotProfBuffer => (true, CtreStatus9MotProfBuffer)
    case Status10MotionMagic => (true, CtreStatus10MotionMagic)
    case Status11UartGadgeteer => (true, CtreStatus11UartGadgeteer)
    case Status12Feedback1 => (true, CtreStatus12Feedback1)
    case Status13BasePIDF0 => (true, CtreStatus13BasePIDF0)
    case Status14TurnPIDF1 => (true, CtreStatus14TurnPIDF1)
    case Status15FirmwareApiStatus => (true, CtreStatus15FirmareApiStatus)
    case OtherStatusFrame(_) => (false, prior)
  }

  datatype ControlFrame =
    | Control3General | Control4Advanced | Control5FeedbackOutputOverride | Control6MotProfAddTrajPoint
    | OtherControlFrame(code: int)
  datatype CtreControlFrame = CtreControl3General | CtreControl4Advanced | CtreControl6MotProfAddTrajPoint

  function ControlFrameOf(c: CtreControlFrame): ControlFrame {
    match c
    case CtreControl3General => Control3General
    case CtreControl4Advanced => Control4Advanced
    case CtreControl6MotProfAddTrajPoint => Control6MotProfAddTrajPoint
  }

  /** convertControlFrame: the feedback-output-override frame has no vendor
      counterpart here and fails like an unknown value. */
  function ConvertControlFrame(c: ControlFrame, prior: CtreControlFrame): (r: (bool, CtreControlFrame))
    ensures r.0 <==> !(c.Control5FeedbackOutputOverride? || c.OtherControlFrame?)
    ensures r.0 ==> ControlFrameOf(r.1) == c
    ensures !r.0 ==> r.1 == prior
  {
    match c
    case Control3General => (true, CtreControl3General)
    case Control4Advanced => (true, CtreControl4Advanced)
    case Control6MotProfAddTrajPoint => (true, CtreControl6MotProfAddTrajPoint)
    case _ => (false, prior)
  }

  /** Every vendor value is reached, from the internal value of the same name. */
  lemma MappersReachEveryVendorValue()
    ensures forall m: CtreControlMode :: ConvertControlMode(TalonModeOf(m)) == (true, m)
    ensures forall d: CtreDemandType :: ConvertDemand1Type(DemandTypeOf(d)) == (NoReturnValue, d)
    ensures forall n: CtreNeutralMode :: ConvertNeutralMode(NeutralModeOf(n)) == (true, n)
    ensures forall f: CtreFeedbackDevice, p :: ConvertFeedbackDevice(FeedbackDeviceOf(f), p) == (true, f)
    ensures forall s: CtreLimitSwitchSource, p :: ConvertLimitSwitchSource(LimitSwitchSourceOf(s), p) == (true, s)
    ensures forall n: CtreLimitSwitchNormal, p :: ConvertLimitSwitchNormal(LimitSwitchNormalOf(n), p) == (true, n)
    ensures forall v: CtreVelocityMeasPeriod, p :: ConvertVelocityMeasurementPeriod(VelocityMeasurementPeriodOf(v), p) == (true, v)
    ensures forall s: CtreStatusFrame, p :: ConvertStatusFrame(StatusFrameOf(s), p) == (true, s)
    ensures forall c: CtreControlFrame, p :: ConvertControlFrame(ControlFrameOf(c), p) == (true, c)
  {
    forall m: CtreControlMode ensures ConvertControlMode(TalonModeOf(m)) == (true, m) {
      assert TalonModeOf(ConvertControlMode(TalonModeOf(m)).1) == TalonModeOf(m);
    }
    forall d: CtreDemandType ensures ConvertDemand1Type(DemandTypeOf(d)) == (NoReturnValue, d) {
      assert DemandTypeOf(ConvertDemand1Type(DemandTypeOf(d)).1) == DemandTypeOf(d);
    }
  }

  // ==================================================== conversion factor

  predicate EncoderCounts(f: FeedbackDevice) {
    f == QuadEncoder || f == PulseWidthEncodedPosition
  }

  predicate PositionLike(m: TalonMode) {
    m == Position || m == MotionMagic
  }

  /** getConversionFactor: native units to radians (position) or radians per
      second (velocity, where the native unit is per 100 ms). */
  function ConversionFactor(ticksPerRotation: int, f: FeedbackDevice, m: TalonMode): (r: real)
    requires EncoderCounts(f) && (PositionLike(m) || m == Velocity) ==> ticksPerRotation != 0
    ensures EncoderCounts(f) && PositionLike(m) ==> r * ticksPerRotation as real == 2.0 * Pi
    ensures EncoderCounts(f) && m == Velocity ==> r * ticksPerRotation as real * 0.1 == 2.0 * Pi
    ensures f == Analog && PositionLike(m) ==> r * 1024.0 == 2.0 * Pi
    ensures f == Analog && m == Velocity ==> r * 1024.0 * 0.1 == 2.0 * Pi
    ensures !((EncoderCounts(f) || f == Analog) && (PositionLike(m) || m == Velocity)) ==> r == 1.0
  {
    if PositionLike(m) then
      if EncoderCounts(f) then 2.0 * Pi / ticksPerRotation as real
      else if f == Analog then 2.0 * Pi / 1024.0
      else 1.0
    else if m == Velocity then
      if EncoderCounts(f) then 2.0 * Pi / ticksPerRotation as real / 0.1
      else if f == Analog then 2.0 * Pi / 1024.0 / 0.1
      else 1.0
    else 1.0
  }

  /** The velocity factor is the position factor per 100 ms. */
  lemma VelocityFactorIsPerTenthSecond(ticksPerRotation: int, f: FeedbackDevice)
    requires EncoderCounts(f) ==> ticksPerRotation != 0
    ensures ConversionFactor(ticksPerRotation, f, Velocity) ==
            if EncoderCounts(f) || f == Analog then ConversionFactor(ticksPerRotation, f, Position) / 0.1 else 1.0
  {
  }

  // ======================================================== safeTalonCall

  /** The vendor's error codes that the classifier names; aliases of one
      value share a constructor. */
  datatype ErrorCode =
    | OK | CanMsgStale | InvalidParamValue | RxTimeout | TxTimeout | UnexpectedArbId | BufferFull
    | SensorNotPresent | FirmwareTooOld | CouldNotChangePeriod | GeneralError | SigNotUpdated
    | NotAllPIDValuesUpdated | GenPortError | PortModuleTypeMismatch | GenModuleError
    | ModuleNotInitSetError | ModuleNotInitGetError | WheelRadiusTooSmall | TicksPerRevZero
    | DistanceBetweenWheelsTooSmall | GainsAreNotSet | IncompatibleMode | InvalidHandle
    | FeatureRequiresHigherFirm | TalonFeatureRequiresHigherFirm | PulseWidthSensorNotPresent
    | GeneralWarning | FeatureNotSupported | NotImplemented | FirmVersionCouldNotBeRetrieved
    | FeaturesNotAvailableYet | ControlModeNotValid | ControlModeNotSupportedYet
    | CascadedPIDNotSupporteYet | RemoteSensorsNotSupportedYet | MotProfFirmThreshold
    | MotProfFirmThreshold2 | UnknownError(code: int)  // any other code; 0 is OK

  function DigitChar(d: nat): (c: char)
    requires d < 10
    ensures '0' <= c <= '9' && c as int - '0' as int == d
  {
    ('0' as int + d) as char
  }

  /** The number a string of decimal digits denotes, most significant first. */
  function DecimalValue(s: string): nat
    requires forall i :: 0 <= i < |s| ==> '0' <= s[i] <= '9'
    decreases |s|
  {
    if |s| == 0 then 0
    else 10 * DecimalValue(s[..|s| - 1]) + (s[|s| - 1] as int - '0' as int)
  }

  /** Decimal text of a natural number: digits only, with no leading zero,
      denoting n. */
  function NatToString(n: nat): (s: string)
    ensures |s| > 0
    ensures forall i :: 0 <= i < |s| ==> '0' <= s[i] <= '9'
    ensures |s| > 1 ==> s[0] != '0'
    ensures DecimalValue(s) == n
    decreases n
  {
    if n < 10 then [DigitChar(n)]
    else
      var prefix := NatToString(n / 10);
      var s := prefix + [DigitChar(n % 10)];
      assert s[..|s| - 1] == prefix;
      s
  }

  /** Decimal text of an int: a minus sign exactly for a negative number,
      followed by the digits of its magnitude. */
  function IntToString(n: int): (s: string)
    ensures |s| > 0
    ensures s[0] == '-' <==> n < 0
    ensures n < 0 ==> |s| > 1 && (forall i :: 1 <= i < |s| ==> '0' <= s[i] <= '9') && DecimalValue(s[1..]) == -n
    ensures n >= 0 ==> (forall i :: 0 <= i < |s| ==> '0' <= s[i] <= '9') && DecimalValue(s) == n
  {
    if n < 0 then
      var digits := NatToString(-n);
      assert ("-" + digits)[1..] == digits;
      "-" + digits
    else NatToString(n)
  }

  /** The name logged for a failing call. */
  function ErrorName(e: ErrorCode): (s: string)
    requires e != OK && (e.UnknownError? ==> e.code != 0)
    ensures |s| > 0
  {
    match e
    case CanMsgStale => "CAN_MSG_STALE/CAN_TX_FULL/TxFailed"
    case InvalidParamValue => "InvalidParamValue/CAN_INVALID_PARAM"
    case RxTimeout => "RxTimeout/CAN_MSG_NOT_FOUND"
    case TxTimeout => "TxTimeout/CAN_NO_MORE_TX_JOBS"
    case UnexpectedArbId => "UnexpectedArbId/CAN_NO_SESSIONS_AVAIL"
    case BufferFull => "BufferFull/CAN_OVERFLOW"
    case SensorNotPresent => "SensorNotPresent"
    case FirmwareTooOld => "FirmwareTooOld"
    case CouldNotChangePeriod => "CouldNotChangePeriod"
    case GeneralError => "GENERAL_ERROR"
    case SigNotUpdated => "SIG_NOT_UPDATED"
    case NotAllPIDValuesUpdated => "NotAllPIDValuesUpdated"
    case GenPortError => "GEN_PORT_ERROR"
    case PortModuleTypeMismatch => "PORT_MODULE_TYPE_MISMATCH"
    case GenModuleError => "GEN_MODULE_ERROR"
    case ModuleNotInitSetError => "MODULE_NOT_INIT_SET_ERROR"
    case ModuleNotInitGetError => "MODULE_NOT_INIT_GET_ERROR"
    case WheelRadiusTooSmall => "WheelRadiusTooSmall"
    case TicksPerRevZero => "TicksPerRevZero"
    case DistanceBetweenWheelsTooSmall => "DistanceBetweenWheelsTooSmall"
    case GainsAreNotSet => "GainsAreNotSet"
    case IncompatibleMode => "IncompatibleMode"
    case InvalidHandle => "InvalidHandle"
    case FeatureRequiresHigherFirm => "FeatureRequiresHigherFirm"
    case TalonFeatureRequiresHigherFirm => "TalonFeatureRequiresHigherFirm"
    case PulseWidthSensorNotPresent => "PulseWidthSensorNotPresent"
    case GeneralWarning => "GeneralWarning"
    case FeatureNotSupported => "FeatureNotSupported"
    case NotImplemented => "NotImplemented"
    case FirmVersionCouldNotBeRetrieved => "FirmVersionCouldNotBeRetrieved"
    case FeaturesNotAvailableYet => "FeaturesNotAvailableYet"
    case ControlModeNotValid => "ControlModeNotValid"
    case ControlModeNotSupportedYet => "case"
    case CascadedPIDNotSupporteYet => "CascadedPIDNotSupporteYet/AuxiliaryPIDNotSupportedYet"
    case RemoteSensorsNotSupportedYet => "RemoteSensorsNotSupportedYet"
    case MotProfFirmThreshold => "MotProfFirmThreshold"
    case MotProfFirmThreshold2 => "MotProfFirmThreshold2"
    case UnknownError(code) => "Unknown Talon error " + IntToString(code)
  }

  /** safeTalonCall: success exactly for OK; every other code, named or not,
      fails and logs one error line naming the method. */
  function SafeTalonCall(e: ErrorCode, methodName: string): (r: (bool, Option<string>))
    requires e.UnknownError? ==> e.code != 0  // code 0 is OK
    ensures r.0 <==> e == OK
    ensures r.1.None? <==> r.0
    ensures r.1.Some? ==> |r.1.value| > |"Error calling " + methodName + " : "|
    ensures r.1.Some? ==> r.1.value[..|"Error calling " + methodName + " : "|] == "Error calling " + methodName + " : "
  {
    if e == OK then (true, None)
    else (false, Some("Error calling " + methodName + " : " + ErrorName(e)))
  }

  // ================================================ joystick direction pad

  datatype Directions = Directions(up: bool, down: bool, left: bool, right: bool)

  /** The direction pad's angle as four direction flags; any angle other than
      the eight listed multiples of 45 degrees reads as centred. */
  function DecodePov(angle: int): (r: Directions)
    ensures r.up <==> angle == 315 || angle == 0 || angle == 45
    ensures r.right <==> angle == 45 || angle == 90 || angle == 135
    ensures r.down <==> angle == 135 || angle == 180 || angle == 225
    ensures r.left <==> angle == 225 || angle == 270 || angle == 315
  {
    match angle
    case 0 => Directions(true, false, false, false)
    case 45 => Directions(true, false, false, true)
    case 90 => Directions(false, false, false, true)
    case 135 => Directions(false, true, false, true)
    case 180 => Directions(false, true, false, false)
    case 225 => Directions(false, true, true, false)
    case 270 => Directions(false, false, true, false)
    case 315 => Directions(true, false, true, false)
    case _ => Directions(false, false, false, false)
  }

  /** Opposite directions are never both held. */
  lemma PovNeverOpposite(angle: int)
    ensures !(DecodePov(angle).up && DecodePov(angle).down)
    ensures !(DecodePov(angle).left && DecodePov(angle).right)
  {
  }

  datatype ButtonEdges = ButtonEdges(held: bool, press: bool, release: bool)

  /** The held state now, and a press or release when it changed. */
  function Edges(now: bool, last: bool): (e: ButtonEdges)
    ensures e.held == now
    ensures e.press ==> now && !last
    ensures e.release ==> !now && last
    ensures now != last ==> e.press || e.release
  {
    ButtonEdges(now, now && !last, !now && last)
  }

  datatype PovMessage = PovMessage(up: ButtonEdges, down: ButtonEdges, left: ButtonEdges, right: ButtonEdges)

  /** The joystick POV message: the four directions held now, with edges
      against the last reading; nothing is pressed or released when the
      reading did not change. */
  function PovMessageOf(now: Directions, last: Directions): (m: PovMessage)
    ensures m.up.held == now.up && m.down.held == now.down
    ensures m.left.held == now.left && m.right.held == now.right
    ensures now == last ==>
      !m.up.press && !m.up.release && !m.down.press && !m.down.release
      && !m.left.press && !m.left.release && !m.right.press && !m.right.release
    ensures m.up.press || m.up.release <==> now.up != last.up
  {
    PovMessage(Edges(now.up, last.up), Edges(now.down, last.down),
               Edges(now.left, last.left), Edges(now.right, last.right))
  }

  /** A press and a release are never reported together, and a change of
      the held state is always reported as exactly one of them. */
  lemma EdgesAreExclusive(now: bool, last: bool)
    ensures !(Edges(now, last).press && Edges(now, last).release)
    ensures (now != last) <==> (Edges(now, last).press || Edges(now, last).release)
  {
  }

  function B2I(b: bool): int { if b then 1 else 0 }

  /** Presses minus releases reported over successive readings of one button. */
  function NetPresses(last: bool, readings: seq<bool>): int
    decreases |readings|
  {
    if |readings| == 0 then 0
    else
      var n := |readings| - 1;
      var prev := if n == 0 then last else readings[n - 1];
      var e := Edges(readings[n], prev);
      NetPresses(last, readings[..n]) + B2I(e.press) - B2I(e.release)
  }

  /** Presses and releases alternate: their difference only says whether the
      button is held now and was not at the start, or the reverse. */
  lemma {:induction false} PressesAndReleasesAlternate(last: bool, readings: seq<bool>)
    requires |readings| > 0
    ensures NetPresses(last, readings) == B2I(readings[|readings| - 1]) - B2I(last)
    decreases |readings|
  {
    var n := |readings| - 1;
    if n > 0 {
      PressesAndReleasesAlternate(last, readings[..n]);
      assert readings[..n][n - 1] == readings[n - 1];
    }
  }

  // ============================================================= alliance

  datatype AllianceStation = Red1 | Red2 | Red3 | Blue1 | Blue2 | Blue3 | UnknownStation(code: int)
  datatype AllianceColor = Red | Blue | Invalid

  function AllianceColorOf(s: AllianceStation): (c: AllianceColor)
    ensures c == Red <==> s in {Red1, Red2, Red3}
    ensures c == Blue <==> s in {Blue1, Blue2, Blue3}
  {
    match s
    case Red1 | Red2 | Red3 => Red
    case Blue1 | Blue2 | Blue3 => Blue
    case UnknownStation(_) => Invalid
  }

  function StationLocation(s: AllianceStation): (n: int)
    ensures 0 <= n <= 3
  {
    match s
    case Red1 | Blue1 => 1
    case Red2 | Blue2 => 2
    case Red3 | Blue3 => 3
    case UnknownStation(_) => 0
  }

  /** The station a colour and location describe, if any. */
  function StationOf(c: AllianceColor, location: int): (r: Option<AllianceStation>)
    ensures r.Some? <==> c != Invalid && 1 <= location <= 3
    ensures r.Some? ==> AllianceColorOf(r.value) == c && StationLocation(r.value) == location
  {
    match (c, location)
    case (Red, 1) => Some(Red1)
    case (Red, 2) => Some(Red2)
    case (Red, 3) => Some(Red3)
    case (Blue, 1) => Some(Blue1)
    case (Blue, 2) => Some(Blue2)
    case (Blue, 3) => Some(Blue3)
    case _ => None
  }

  /** The colour is invalid exactly when the location is 0, and a valid
      colour with its location identifies the station. */
  lemma AllianceRoundTrip(s: AllianceStation)
    ensures AllianceColorOf(s) == Invalid <==> StationLocation(s) == 0
    ensures !s.UnknownStation? ==> StationOf(AllianceColorOf(s), StationLocation(s)) == Some(s)
    ensures s.UnknownStation? ==> StationOf(AllianceColorOf(s), StationLocation(s)) == None
  {
  }

  // ===================================================== write-on-change

  /** A hardware write the output loops would make. */
  datatype HardwareWrite =
    | DigitalWrite(index: nat, on: bool)
    | PwmWrite(index: nat, speed: int)
    | SolenoidWrite(index: nat, on: bool)
    | DoubleSolenoidWrite(index: nat, forward: bool, reverse: bool)
    | RumbleWrite(index: nat, left: bv32, right: bv32)
    | CompressorWrite(index: nat, closedLoop: bool)

  /** For one output: the state value it should end with, the hardware write
      that gets there, and whether the hardware is local. */
  datatype OutputRule = OutputRule(target: real, write: HardwareWrite, local: bool)

  /** The change-only loop over outputs: an output whose cached state differs
      from its target is written (if local) and its state updated. */
  function WriteOnChange(state: seq<real>, rules: seq<OutputRule>): (r: (seq<real>, seq<HardwareWrite>))
    requires |state| == |rules|
    ensures |r.0| == |state|
    decreases |rules|
  {
    if |rules| == 0 then ([], [])
    else
      var n := |rules| - 1;
      var prev := WriteOnChange(state[..n], rules[..n]);
      if state[n] != rules[n].target then
        (prev.0 + [rules[n].target], prev.1 + (if rules[n].local then [rules[n].write] else []))
      else
        (prev.0 + [state[n]], prev.1)
  }

  /** One more output of the loop, as the loop body handles it. */
  lemma WriteOnChangeStep(state: seq<real>, rules: seq<OutputRule>, i: nat)
    requires |state| == |rules| && i < |rules|
    ensures WriteOnChange(state[..i + 1], rules[..i + 1]) ==
      var prev := WriteOnChange(state[..i], rules[..i]);
      if state[i] != rules[i].target then
        (prev.0 + [rules[i].target], prev.1 + (if rules[i].local then [rules[i].write] else []))
      else
        (prev.0 + [state[i]], prev.1)
  {
    assert state[..i + 1][..i] == state[..i];
    assert rules[..i + 1][..i] == rules[..i];
  }

  function Targets(rules: seq<OutputRule>): (t: seq<real>)
    ensures |t| == |rules|
  {
    seq(|rules|, i requires 0 <= i < |rules| => rules[i].target)
  }

  /** After the loop every cached state equals its target. */
  lemma {:induction false} WriteOnChangeReachesTargets(state: seq<real>, rules: seq<OutputRule>)
    requires |state| == |rules|
    ensures WriteOnChange(state, rules).0 == Targets(rules)
    decreases |rules|
  {
    if |rules| > 0 {
      var n := |rules| - 1;
      WriteOnChangeReachesTargets(state[..n], rules[..n]);
      assert Targets(rules) == Targets(rules[..n]) + [rules[n].target];
    }
  }

  /** A write is made exactly for each local output whose state differed. */
  lemma {:induction false} WritesOnlyOnChange(state: seq<real>, rules: seq<OutputRule>, w: HardwareWrite)
    requires |state| == |rules|
    ensures w in WriteOnChange(state, rules).1 <==>
      exists i :: 0 <= i < |rules| && rules[i].write == w && rules[i].local && state[i] != rules[i].target
    decreases |rules|
  {
    if |rules| > 0 {
      var n := |rules| - 1;
      WritesOnlyOnChange(state[..n], rules[..n], w);
      if exists i :: 0 <= i < |rules| && rules[i].write == w && rules[i].local && state[i] != rules[i].target {
        var i :| 0 <= i < |rules| && rules[i].write == w && rules[i].local && state[i] != rules[i].target;
        if i < n {
          assert rules[..n][i] == rules[i] && state[..n][i] == state[i];
        }
      }
    }
  }

  /** A second pass with the same commands writes nothing. */
  lemma {:induction false} SettledOutputsWriteNothing(rules: seq<OutputRule>)
    ensures WriteOnChange(Targets(rules), rules).1 == []
    decreases |rules|
  {
    if |rules| > 0 {
      var n := |rules| - 1;
      assert Targets(rules)[..n] == Targets(rules[..n]);
      SettledOutputsWriteNothing(rules[..n]);
    }
  }

  function B2R(b: bool): real { if b then 1.0 else 0.0 }

  /** C++ conversion of a double to int: truncation toward zero. */
  function TruncateToInt(x: real): (n: int)
    ensures x >= 0.0 ==> n as real <= x < n as real + 1.0
    ensures x < 0.0 ==> n as real - 1.0 < x <= n as real
  {
    if x >= 0.0 then x.Floor else -((-x).Floor)
  }

  datatype DigitalOutput = DigitalOutput(command: real, invert: bool, localUpdate: bool, localHardware: bool)
  datatype PwmOutput = PwmOutput(command: real, invert: bool, localUpdate: bool, localHardware: bool)
  datatype SimpleOutput = SimpleOutput(command: real, localHardware: bool)

  /** The inversion is applied only on the controller where the update came from. */
  function DigitalSetpoint(o: DigitalOutput): (b: bool)
    ensures !(o.invert && o.localUpdate) ==> (b <==> o.command > 0.0)
    ensures o.invert && o.localUpdate ==> (b <==> o.command <= 0.0)
  {
    (o.command > 0.0) != (o.invert && o.localUpdate)
  }

  /** The PWM value: the command, negated when inverted locally, truncated
      toward zero. */
  function PwmSetpoint(o: PwmOutput): (n: int)
    ensures var x := if o.invert && o.localUpdate then -o.command else o.command;
      (x >= 0.0 ==> 0 <= n && n as real <= x < n as real + 1.0)
      && (x < 0.0 ==> n <= 0 && n as real - 1.0 < x <= n as real)
  {
    TruncateToInt(o.command * (if o.invert && o.localUpdate then -1.0 else 1.0))
  }

  datatype DoubleSolenoidValue = Off | Forward | Reverse

  function DoubleSolenoidSetpoint(command: real): (v: DoubleSolenoidValue)
    ensures v == Forward <==> command >= 1.0
    ensures v == Reverse <==> command <= -1.0
  {
    if command >= 1.0 then Forward else if command <= -1.0 then Reverse else Off
  }

  /** The forward and reverse valve flags written, as the code has them:
      both Forward and Reverse raise the forward valve. */
  function DoubleSolenoidValves(v: DoubleSolenoidValue): (r: (bool, bool))
    ensures r.0 <==> !v.Off?
    ensures !r.1
  {
    var forward := if v == Forward then true else if v == Reverse then true else false;
    (forward, false)
  }

  /** As written, the reverse valve is never opened, and a reverse command
      drives the same valves as a forward one. */
  lemma DoubleSolenoidReverseNeverOpens(command: real)
    ensures !DoubleSolenoidValves(DoubleSolenoidSetpoint(command)).1
    ensures DoubleSolenoidValves(DoubleSolenoidSetpoint(command)).0 <==> command >= 1.0 || command <= -1.0
    ensures DoubleSolenoidValves(DoubleSolenoidSetpoint(-1.0)) == DoubleSolenoidValves(DoubleSolenoidSetpoint(1.0))
  {
  }

  /** The rumble command's first four bytes as an unsigned int, split into
      the left (high) and right (low) 16-bit motor values. */
  function RumbleHalves(word: bv32): (r: (bv32, bv32))
    ensures r.0 < 0x1_0000 && r.1 < 0x1_0000
    ensures (r.0 << 16) | r.1 == word
  {
    ((word >> 16) & 0xFFFF, word & 0xFFFF)
  }

  /** The first four bytes of a double's 64-bit pattern, least significant
      first on the robot's processor. */
  function LowWord(bits: bv64): (w: bv32)
    ensures ((bits >> 32) << 32) | (w as bv64) == bits
  {
    (bits & 0xFFFF_FFFF) as bv32
  }

  function DigitalRules(outs: seq<DigitalOutput>): (r: seq<OutputRule>)
    ensures |r| == |outs|
  {
    seq(|outs|, i requires 0 <= i < |outs| =>
      OutputRule(B2R(DigitalSetpoint(outs[i])), DigitalWrite(i, DigitalSetpoint(outs[i])), outs[i].localHardware))
  }

  function PwmRules(outs: seq<PwmOutput>): (r: seq<OutputRule>)
    ensures |r| == |outs|
  {
    seq(|outs|, i requires 0 <= i < |outs| =>
      OutputRule(PwmSetpoint(outs[i]) as real, PwmWrite(i, PwmSetpoint(outs[i])), outs[i].localHardware))
  }

  function SolenoidRules(outs: seq<SimpleOutput>): (r: seq<OutputRule>)
    ensures |r| == |outs|
  {
    seq(|outs|, i requires 0 <= i < |outs| =>
      OutputRule(B2R(outs[i].command > 0.0), SolenoidWrite(i, outs[i].command > 0.0), outs[i].localHardware))
  }

  /** The cached state of a double solenoid is the raw command. */
  function DoubleSolenoidRules(outs: seq<SimpleOutput>): (r: seq<OutputRule>)
    ensures |r| == |outs|
  {
    seq(|outs|, i requires 0 <= i < |outs| =>
      var valves := DoubleSolenoidValves(DoubleSolenoidSetpoint(outs[i].command));
      OutputRule(outs[i].command, DoubleSolenoidWrite(i, valves.0, valves.1), outs[i].localHardware))
  }

  function RumbleRules(outs: seq<SimpleOutput>, doubleBits: real -> bv64): (r: seq<OutputRule>)
    ensures |r| == |outs|
  {
    seq(|outs|, i requires 0 <= i < |outs| =>
      var halves := RumbleHalves(LowWord(doubleBits(outs[i].command)));
      OutputRule(outs[i].command, RumbleWrite(i, halves.0, halves.1), outs[i].localHardware))
  }

  function CompressorRules(outs: seq<SimpleOutput>): (r: seq<OutputRule>)
    ensures |r| == |outs|
  {
    seq(|outs|, i requires 0 <= i < |outs| =>
      OutputRule(outs[i].command, CompressorWrite(i, outs[i].command > 0.0), outs[i].localHardware))
  }

  // ==================================================== talons in write()

  /** What write() reads and changes for one motor controller. */
  datatype TalonJoint = TalonJoint(
    localHardware: bool,
    present: bool,              // the controller object exists
    customProfileRun: bool,
    command: real,              // the command buffer's setpoint
    stateSetpoint: real,        // setpoint reported in the state buffer
    modeResetQueued: bool,      // resetMode() was called on the command buffer
    stateDisabled: bool,        // the state buffer reports Disabled
    hardwareDisabled: bool,     // Set(Disabled, 0) was sent
    profileStopTime: real)

  /** One joint's pass through write() while the robot is disabled, or its
      early exit; the enabled branch is not part of this model. */
  function TalonWriteSpec(t: TalonJoint, now: real, enabled: bool, lastEnabled: bool): (r: TalonJoint)
    ensures r.localHardware == t.localHardware && r.present == t.present
    ensures r.customProfileRun == t.customProfileRun && r.command == t.command
    ensures !t.localHardware || !t.present || (enabled && !t.customProfileRun) ==> r == t
    ensures t.localHardware && t.present && t.customProfileRun ==> r.profileStopTime == now
    ensures r.modeResetQueued != t.modeResetQueued ==> !enabled && lastEnabled
  {
    if !t.localHardware || !t.present then t
    else if t.customProfileRun then t.(profileStopTime := now)
    else if enabled then t
    else
      var t1 := t.(stateSetpoint := t.command);
      if lastEnabled then t1.(modeResetQueued := true, stateDisabled := true, hardwareDisabled := true)
      else t1
  }

  /** On the enabled-to-disabled edge every local, present controller that is
      not running a custom profile is disabled and queued to restore its
      mode; a profile-running one only has its stop time recorded. */
  lemma DisableEdgeDisablesTalons(t: TalonJoint, now: real)
    requires t.localHardware && t.present
    ensures !t.customProfileRun ==>
      var r := TalonWriteSpec(t, now, false, true);
      r.modeResetQueued && r.stateDisabled && r.hardwareDisabled && r.stateSetpoint == t.command
    ensures t.customProfileRun ==> TalonWriteSpec(t, now, false, true) == t.(profileStopTime := now)
  {
  }

  /** Staying disabled changes no controller's mode again. */
  lemma StayingDisabledIsQuiet(t: TalonJoint, now: real)
    ensures TalonWriteSpec(t, now, false, false).modeResetQueued == t.modeResetQueued
    ensures TalonWriteSpec(t, now, false, false).hardwareDisabled == t.hardwareDisabled
  {
  }

  /** The hardware writes of the output loops of write(), kind by kind in the
      order the loops run, given the cached states before the call. */
  function OutputWrites(digitalState: seq<real>, pwmState: seq<real>, solenoidState: seq<real>,
                        doubleSolenoidState: seq<real>, rumbleState: seq<real>, compressorState: seq<real>,
                        digital: seq<DigitalOutput>, pwms: seq<PwmOutput>,
                        solenoids: seq<SimpleOutput>, doubleSolenoids: seq<SimpleOutput>,
                        rumbles: seq<SimpleOutput>, compressors: seq<SimpleOutput>,
                        doubleBits: real -> bv64): seq<HardwareWrite>
    requires |digital| == |digitalState| && |pwms| == |pwmState| && |solenoids| == |solenoidState|
    requires |doubleSolenoids| == |doubleSolenoidState| && |rumbles| == |rumbleState|
    requires |compressors| == |compressorState|
  {
    WriteOnChange(digitalState, DigitalRules(digital)).1
    + WriteOnChange(pwmState, PwmRules(pwms)).1
    + WriteOnChange(solenoidState, SolenoidRules(solenoids)).1
    + WriteOnChange(doubleSolenoidState, DoubleSolenoidRules(doubleSolenoids)).1
    + WriteOnChange(rumbleState, RumbleRules(rumbles, doubleBits)).1
    + WriteOnChange(compressorState, CompressorRules(compressors)).1
  }

  // ============================================================ the class

  class FrcRobotHw {
    var robotCodeReady: bool
    var joystickLast: Directions                 // joystick_*_last_[0]
    var digitalOutputState: seq<real>
    var pwmState: seq<real>
    var solenoidState: seq<real>
    var doubleSolenoidState: seq<real>
    var rumbleState: seq<real>
    var lastCompressorCommand: seq<real>
    var talons: seq<TalonJoint>
    var lastRobotEnabled: bool                   // function-static in write()

    constructor (talons: seq<TalonJoint>, digital: nat, pwm: nat, solenoids: nat,
                 doubleSolenoids: nat, rumbles: nat, compressors: nat)
      ensures !robotCodeReady && joystickLast == Directions(false, false, false, false)
      ensures !lastRobotEnabled && this.talons == talons
      ensures |digitalOutputState| == digital && |pwmState| == pwm && |solenoidState| == solenoids
      ensures |doubleSolenoidState| == doubleSolenoids && |rumbleState| == rumbles
      ensures |lastCompressorCommand| == compressors
    {
      robotCodeReady := false;
      joystickLast := Directions(false, false, false, false);
      digitalOutputState := seq(digital, _ => 0.0);
      pwmState := seq(pwm, _ => 0.0);
      solenoidState := seq(solenoids, _ => 0.0);
      doubleSolenoidState := seq(doubleSolenoids, _ => 0.0);
      rumbleState := seq(rumbles, _ => 0.0);
      lastCompressorCommand := seq(compressors, _ => 0.0);
      this.talons := talons;
      lastRobotEnabled := false;
    }

    /** The start of read(): once every ready signal from the controllers is
        non-zero the competition is started, once. */
    method CheckRobotReady(runHalRobot: bool, readySignals: seq<real>) returns (startCompetition: bool)
      modifies this`robotCodeReady
      ensures startCompetition <==>
        runHalRobot && !old(robotCodeReady) && forall i :: 0 <= i < |readySignals| ==> readySignals[i] != 0.0
      ensures robotCodeReady == (old(robotCodeReady) || startCompetition)
    {
      startCompetition := false;
      if runHalRobot && !robotCodeReady {
        var ready := true;
        for i := 0 to |readySignals|
          invariant ready <==> forall j :: 0 <= j < i ==> readySignals[j] != 0.0
        {
          ready := ready && readySignals[i] != 0.0;
        }
        if ready {
          startCompetition := true;
          robotCodeReady := true;
        }
      }
    }

    /** The direction-pad part of the joystick update, which runs only when
        there is a joystick and its publisher could be locked. */
    method ReadPov(angle: int, published: bool) returns (msg: Option<PovMessage>)
      modifies this`joystickLast
      ensures published ==> msg == Some(PovMessageOf(DecodePov(angle), old(joystickLast)))
                            && joystickLast == DecodePov(angle)
      ensures !published ==> msg.None? && joystickLast == old(joystickLast)
    {
      if !published {
        return None;
      }
      var now := DecodePov(angle);
      msg := Some(PovMessageOf(now, joystickLast));
      joystickLast := now;
    }

    /** The motor-controller loop of write(), reduced to the custom-profile
        exit and the disabled branch, then the enabled flag is remembered. */
    method WriteTalons(now: real, enabled: bool)
      modifies this`talons, this`lastRobotEnabled
      ensures |talons| == |old(talons)|
      ensures forall i :: 0 <= i < |talons| ==> talons[i] == TalonWriteSpec(old(talons[i]), now, enabled, old(lastRobotEnabled))
      ensures lastRobotEnabled == enabled
    {
      for i := 0 to |talons|
        invariant |talons| == |old(talons)|
        invariant forall j :: 0 <= j < i ==> talons[j] == TalonWriteSpec(old(talons[j]), now, enabled, old(lastRobotEnabled))
        invariant forall j :: i <= j < |talons| ==> talons[j] == old(talons[j])
        invariant lastRobotEnabled == old(lastRobotEnabled)
      {
        var t := talons[i];
        assert t == old(talons[i]);
        if !t.localHardware || !t.present {
          continue;
        }
        if t.customProfileRun {
          talons := talons[i := t.(profileStopTime := now)];
          continue;
        }
        if !enabled {
          t := t.(stateSetpoint := t.command);
          if lastRobotEnabled {
            t := t.(modeResetQueued := true);
            t := t.(hardwareDisabled := true);
            t := t.(stateDisabled := true);
          }
          talons := talons[i := t];
        }
      }
      lastRobotEnabled := enabled;
    }

    method WriteDigitalOutputs(outs: seq<DigitalOutput>) returns (writes: seq<HardwareWrite>)
      requires |outs| == |digitalOutputState|
      modifies this`digitalOutputState
      ensures (digitalOutputState, writes) == WriteOnChange(old(digitalOutputState), DigitalRules(outs))
      ensures digitalOutputState == Targets(DigitalRules(outs))
    {
      ghost var rules := DigitalRules(outs);
      writes := [];
      for i := 0 to |outs|
        invariant |digitalOutputState| == |outs|
        invariant (digitalOutputState[..i], writes) == WriteOnChange(old(digitalOutputState)[..i], rules[..i])
        invariant digitalOutputState[i..] == old(digitalOutputState)[i..]
      {
        WriteOnChangeStep(old(digitalOutputState), rules, i);
        assert digitalOutputState[i] == old(digitalOutputState)[i];
        ghost var before := digitalOutputState;
        var converted := (outs[i].command > 0.0) != (outs[i].invert && outs[i].localUpdate);
        assert rules[i] == OutputRule(B2R(converted), DigitalWrite(i, converted), outs[i].localHardware);
        if B2R(converted) != digitalOutputState[i] {
          if outs[i].localHardware {
            writes := writes + [DigitalWrite(i, converted)];
          }
          digitalOutputState := digitalOutputState[i := B2R(converted)];
        }
        assert digitalOutputState[..i] == before[..i];
        assert digitalOutputState[..i + 1] == digitalOutputState[..i] + [digitalOutputState[i]];
        assert digitalOutputState[..i + 1] == WriteOnChange(old(digitalOutputState)[..i + 1], rules[..i + 1]).0;
        assert writes == WriteOnChange(old(digitalOutputState)[..i + 1], rules[..i + 1]).1;
      }
      assert digitalOutputState[..|outs|] == digitalOutputState;
      assert old(digitalOutputState)[..|outs|] == old(digitalOutputState);
      assert rules[..|outs|] == rules;
      WriteOnChangeReachesTargets(old(digitalOutputState), rules);
    }

    method WritePwms(outs: seq<PwmOutput>) returns (writes: seq<HardwareWrite>)
      requires |outs| == |pwmState|
      modifies this`pwmState
      ensures (pwmState, writes) == WriteOnChange(old(pwmState), PwmRules(outs))
      ensures pwmState == Targets(PwmRules(outs))
    {
      ghost var rules := PwmRules(outs);
      writes := [];
      for i := 0 to |outs|
        invariant |pwmState| == |outs|
        invariant (pwmState[..i], writes) == WriteOnChange(old(pwmState)[..i], rules[..i])
        invariant pwmState[i..] == old(pwmState)[i..]
      {
        WriteOnChangeStep(old(pwmState), rules, i);
        assert pwmState[i] == old(pwmState)[i];
        ghost var before := pwmState;
        var setpoint := TruncateToInt(outs[i].command * (if outs[i].invert && outs[i].localUpdate then -1.0 else 1.0));
        if pwmState[i] != setpoint as real {
          if outs[i].localHardware {
            writes := writes + [PwmWrite(i, setpoint)];
          }
          pwmState := pwmState[i := setpoint as real];
        }
        assert pwmState[..i] == before[..i];
        assert pwmState[..i + 1] == pwmState[..i] + [pwmState[i]];
        assert pwmState[..i + 1] == WriteOnChange(old(pwmState)[..i + 1], rules[..i + 1]).0;
        assert writes == WriteOnChange(old(pwmState)[..i + 1], rules[..i + 1]).1;
      }
      assert pwmState[..|outs|] == pwmState;
      assert old(pwmState)[..|outs|] == old(pwmState);
      assert rules[..|outs|] == rules;
      WriteOnChangeReachesTargets(old(pwmState), rules);
    }

    method WriteSolenoids(outs: seq<SimpleOutput>) returns (writes: seq<HardwareWrite>)
      requires |outs| == |solenoidState|
      modifies this`solenoidState
      ensures (solenoidState, writes) == WriteOnChange(old(solenoidState), SolenoidRules(outs))
      ensures solenoidState == Targets(SolenoidRules(outs))
    {
      ghost var rules := SolenoidRules(outs);
      writes := [];
      for i := 0 to |outs|
        invariant |solenoidState| == |outs|
        invariant (solenoidState[..i], writes) == WriteOnChange(old(solenoidState)[..i], rules[..i])
        invariant solenoidState[i..] == old(solenoidState)[i..]
      {
        WriteOnChangeStep(old(solenoidState), rules, i);
        assert solenoidState[i] == old(solenoidState)[i];
        ghost var before := solenoidState;
        var setpoint := outs[i].command > 0.0;
        if solenoidState[i] != B2R(setpoint) {
          if outs[i].localHardware {
            writes := writes + [SolenoidWrite(i, setpoint)];
          }
          solenoidState := solenoidState[i := B2R(setpoint)];
        }
        assert solenoidState[..i] == before[..i];
        assert solenoidState[..i + 1] == solenoidState[..i] + [solenoidState[i]];
        assert solenoidState[..i + 1] == WriteOnChange(old(solenoidState)[..i + 1], rules[..i + 1]).0;
        assert writes == WriteOnChange(old(solenoidState)[..i + 1], rules[..i + 1]).1;
      }
      assert solenoidState[..|outs|] == solenoidState;
      assert old(solenoidState)[..|outs|] == old(solenoidState);
      assert rules[..|outs|] == rules;
      WriteOnChangeReachesTargets(old(solenoidState), rules);
    }

    method WriteDoubleSolenoids(outs: seq<SimpleOutput>) returns (writes: seq<HardwareWrite>)
      requires |outs| == |doubleSolenoidState|
      modifies this`doubleSolenoidState
      ensures (doubleSolenoidState, writes) == WriteOnChange(old(doubleSolenoidState), DoubleSolenoidRules(outs))
      ensures doubleSolenoidState == Targets(DoubleSolenoidRules(outs))
    {
      ghost var rules := DoubleSolenoidRules(outs);
      writes := [];
      for i := 0 to |outs|
        invariant |doubleSolenoidState| == |outs|
        invariant (doubleSolenoidState[..i], writes) == WriteOnChange(old(doubleSolenoidState)[..i], rules[..i])
        invariant doubleSolenoidState[i..] == old(doubleSolenoidState)[i..]
      {
        WriteOnChangeStep(old(doubleSolenoidState), rules, i);
        assert doubleSolenoidState[i] == old(doubleSolenoidState)[i];
        ghost var before := doubleSolenoidState;
        var setpoint := Off;
        if outs[i].command >= 1.0 {
          setpoint := Forward;
        } else if outs[i].command <= -1.0 {
          setpoint := Reverse;
        }
        if doubleSolenoidState[i] != outs[i].command {
          if outs[i].localHardware {
            var forward := false;
            var reverse := false;
            if setpoint == Forward {
              forward := true;
            } else if setpoint == Reverse {
              forward := true;
            }
            writes := writes + [DoubleSolenoidWrite(i, forward, reverse)];
          }
          doubleSolenoidState := doubleSolenoidState[i := outs[i].command];
        }
        assert doubleSolenoidState[..i] == before[..i];
        assert doubleSolenoidState[..i + 1] == doubleSolenoidState[..i] + [doubleSolenoidState[i]];
        assert doubleSolenoidState[..i + 1] == WriteOnChange(old(doubleSolenoidState)[..i + 1], rules[..i + 1]).0;
        assert writes == WriteOnChange(old(doubleSolenoidState)[..i + 1], rules[..i + 1]).1;
      }
      assert doubleSolenoidState[..|outs|] == doubleSolenoidState;
      assert old(doubleSolenoidState)[..|outs|] == old(doubleSolenoidState);
      assert rules[..|outs|] == rules;
      WriteOnChangeReachesTargets(old(doubleSolenoidState), rules);
    }

    method WriteRumbles(outs: seq<SimpleOutput>, doubleBits: real -> bv64) returns (writes: seq<HardwareWrite>)
      requires |outs| == |rumbleState|
      modifies this`rumbleState
      ensures (rumbleState, writes) == WriteOnChange(old(rumbleState), RumbleRules(outs, doubleBits))
      ensures rumbleState == Targets(RumbleRules(outs, doubleBits))
    {
      ghost var rules := RumbleRules(outs, doubleBits);
      writes := [];
      for i := 0 to |outs|
        invariant |rumbleState| == |outs|
        invariant (rumbleState[..i], writes) == WriteOnChange(old(rumbleState)[..i], rules[..i])
        invariant rumbleState[i..] == old(rumbleState)[i..]
      {
        WriteOnChangeStep(old(rumbleState), rules, i);
        assert rumbleState[i] == old(rumbleState)[i];
        ghost var before := rumbleState;
        if rumbleState[i] != outs[i].command {
          var rumbles := LowWord(doubleBits(outs[i].command));
          var left := (rumbles >> 16) & 0xFFFF;
          var right := rumbles & 0xFFFF;
          if outs[i].localHardware {
            writes := writes + [RumbleWrite(i, left, right)];
          }
          rumbleState := rumbleState[i := outs[i].command];
        }
        assert rumbleState[..i] == before[..i];
        assert rumbleState[..i + 1] == rumbleState[..i] + [rumbleState[i]];
        assert rumbleState[..i + 1] == WriteOnChange(old(rumbleState)[..i + 1], rules[..i + 1]).0;
        assert writes == WriteOnChange(old(rumbleState)[..i + 1], rules[..i + 1]).1;
      }
      assert rumbleState[..|outs|] == rumbleState;
      assert old(rumbleState)[..|outs|] == old(rumbleState);
      assert rules[..|outs|] == rules;
      WriteOnChangeReachesTargets(old(rumbleState), rules);
    }

    method WriteCompressors(outs: seq<SimpleOutput>) returns (writes: seq<HardwareWrite>)
      requires |outs| == |lastCompressorCommand|
      modifies this`lastCompressorCommand
      ensures (lastCompressorCommand, writes) == WriteOnChange(old(lastCompressorCommand), CompressorRules(outs))
      ensures lastCompressorCommand == Targets(CompressorRules(outs))
    {
      ghost var rules := CompressorRules(outs);
      writes := [];
      for i := 0 to |outs|
        invariant |lastCompressorCommand| == |outs|
        invariant (lastCompressorCommand[..i], writes) == WriteOnChange(old(lastCompressorCommand)[..i], rules[..i])
        invariant lastCompressorCommand[i..] == old(lastCompressorCommand)[i..]
      {
        WriteOnChangeStep(old(lastCompressorCommand), rules, i);
        assert lastCompressorCommand[i] == old(lastCompressorCommand)[i];
        ghost var before := lastCompressorCommand;
        if lastCompressorCommand[i] != outs[i].command {
          var setpoint := outs[i].command > 0.0;
          if outs[i].localHardware {
            writes := writes + [CompressorWrite(i, setpoint)];
          }
          lastCompressorCommand := lastCompressorCommand[i := outs[i].command];
        }
        assert lastCompressorCommand[..i] == before[..i];
        assert lastCompressorCommand[..i + 1] == lastCompressorCommand[..i] + [lastCompressorCommand[i]];
        assert lastCompressorCommand[..i + 1] == WriteOnChange(old(lastCompressorCommand)[..i + 1], rules[..i + 1]).0;
        assert writes == WriteOnChange(old(lastCompressorCommand)[..i + 1], rules[..i + 1]).1;
      }
      assert lastCompressorCommand[..|outs|] == lastCompressorCommand;
      assert old(lastCompressorCommand)[..|outs|] == old(lastCompressorCommand);
      assert rules[..|outs|] == rules;
      WriteOnChangeReachesTargets(old(lastCompressorCommand), rules);
    }

    /** The output loops of write(), each kind of output in turn. Afterwards
        every cached output state equals its setpoint, and the hardware was
        written exactly where a loop found a local output whose cache differed. */
    method WriteOutputs(digital: seq<DigitalOutput>, pwms: seq<PwmOutput>,
                        solenoids: seq<SimpleOutput>, doubleSolenoids: seq<SimpleOutput>,
                        rumbles: seq<SimpleOutput>, compressors: seq<SimpleOutput>, doubleBits: real -> bv64)
      returns (writes: seq<HardwareWrite>)
      requires |digital| == |digitalOutputState| && |pwms| == |pwmState| && |solenoids| == |solenoidState|
      requires |doubleSolenoids| == |doubleSolenoidState| && |rumbles| == |rumbleState|
      requires |compressors| == |lastCompressorCommand|
      modifies this`digitalOutputState, this`pwmState, this`solenoidState
      modifies this`doubleSolenoidState, this`rumbleState, this`lastCompressorCommand
      ensures digitalOutputState == Targets(DigitalRules(digital))
      ensures pwmState == Targets(PwmRules(pwms))
      ensures solenoidState == Targets(SolenoidRules(solenoids))
      ensures doubleSolenoidState == Targets(DoubleSolenoidRules(doubleSolenoids))
      ensures rumbleState == Targets(RumbleRules(rumbles, doubleBits))
      ensures lastCompressorCommand == Targets(CompressorRules(compressors))
      ensures writes == OutputWrites(old(digitalOutputState), old(pwmState), old(solenoidState),
                                     old(doubleSolenoidState), old(rumbleState), old(lastCompressorCommand),
                                     digital, pwms, solenoids, doubleSolenoids, rumbles, compressors, doubleBits)
    {
      ghost var before := (digitalOutputState, pwmState, solenoidState, doubleSolenoidState, rumbleState,
                           lastCompressorCommand);
      var w1 := WriteDigitalOutputs(digital);
      assert w1 == WriteOnChange(before.0, DigitalRules(digital)).1;
      var w2 := WritePwms(pwms);
      assert w2 == WriteOnChange(before.1, PwmRules(pwms)).1;
      var w3 := WriteSolenoids(solenoids);
      assert w3 == WriteOnChange(before.2, SolenoidRules(solenoids)).1;
      var w4 := WriteDoubleSolenoids(doubleSolenoids);
      assert w4 == WriteOnChange(before.3, DoubleSolenoidRules(doubleSolenoids)).1;
      var w5 := WriteRumbles(rumbles, doubleBits);
      assert w5 == WriteOnChange(before.4, RumbleRules(rumbles, doubleBits)).1;
      var w6 := WriteCompressors(compressors);
      writes := w1 + w2 + w3 + w4 + w5 + w6;
      assert writes == OutputWrites(before.0, before.1, before.2, before.3, before.4, before.5,
                                    digital, pwms, solenoids, doubleSolenoids, rumbles, compressors, doubleBits);
    }

    /** write(): the controllers, then the outputs. Afterwards every cached
        output state equals its setpoint, the hardware was written only for
        changed local outputs, and the enabled flag is remembered. */
    method Write(now: real, enabled: bool, digital: seq<DigitalOutput>, pwms: seq<PwmOutput>,
                 solenoids: seq<SimpleOutput>, doubleSolenoids: seq<SimpleOutput>,
                 rumbles: seq<SimpleOutput>, compressors: seq<SimpleOutput>, doubleBits: real -> bv64)
      returns (writes: seq<HardwareWrite>)
      requires |digital| == |digitalOutputState| && |pwms| == |pwmState| && |solenoids| == |solenoidState|
      requires |doubleSolenoids| == |doubleSolenoidState| && |rumbles| == |rumbleState|
      requires |compressors| == |lastCompressorCommand|
      modifies this`talons, this`lastRobotEnabled, this`digitalOutputState, this`pwmState, this`solenoidState
      modifies this`doubleSolenoidState, this`rumbleState, this`lastCompressorCommand
      ensures |talons| == |old(talons)|
      ensures forall i :: 0 <= i < |talons| ==> talons[i] == TalonWriteSpec(old(talons[i]), now, enabled, old(lastRobotEnabled))
      ensures lastRobotEnabled == enabled
      ensures digitalOutputState == Targets(DigitalRules(digital))
      ensures pwmState == Targets(PwmRules(pwms))
      ensures solenoidState == Targets(SolenoidRules(solenoids))
      ensures doubleSolenoidState == Targets(DoubleSolenoidRules(doubleSolenoids))
      ensures rumbleState == Targets(RumbleRules(rumbles, doubleBits))
      ensures lastCompressorCommand == Targets(CompressorRules(compressors))
      ensures writes == OutputWrites(old(digitalOutputState), old(pwmState), old(solenoidState),
                                     old(doubleSolenoidState), old(rumbleState), old(lastCompressorCommand),
                                     digital, pwms, solenoids, doubleSolenoids, rumbles, compressors, doubleBits)
    {
      WriteTalons(now, enabled);
      writes := WriteOutputs(digital, pwms, solenoids, doubleSolenoids, rumbles, compressors, doubleBits);
    }
  }
}
