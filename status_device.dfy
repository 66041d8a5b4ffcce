/**
 * Status-changed payloads for the common, card-reader, barcode-reader and
 * biometric status classes. Each internal enum is a datatype whose extra
 * Other case stands for a numeric value the enum does not name; the wire enum
 * names the listed values alike, so the same datatype stands for both.
 */
module DeviceStatusEvents {
  import opened Wrappers
  import opened StatusFields

  // ---- Common ----

  datatype DeviceState =
    | DeviceBusy | FraudAttempt | HardwareError | NoDevice | Offline | Online
    | PotentialFraud | PowerOff | UserError | Other(code: int)
  {
    function Check(): Verdict { if Other? then Reject else Keep }
  }

  datatype DevicePositionState = InPosition | NotInPosition | Unknown | Other(code: int)
  {
    function Check(): Verdict { if Other? then Reject else Keep }
  }

  datatype AntiFraudState = DeviceDetected | Inoperable | Ok | Unknown | Other(code: int)
  {
    function Check(): Verdict { if Other? then Reject else Keep }
  }

  datatype ExchangeState = Active | Inactive | Other(code: int)
  {
    function Check(): Verdict { if Other? then Reject else Keep }
  }

  datatype CommonStatus = CommonStatus(
    device: DeviceState,
    devicePosition: DevicePositionState,
    powerSaveRecoveryTime: Option<int>,
    antiFraudModule: AntiFraudState,
    exchange: ExchangeState)

  datatype CommonPayload = CommonPayload(
    device: Option<DeviceState>,
    devicePosition: Option<DevicePositionState>,
    powerSaveRecoveryTime: Option<int>,
    antiFraudModule: Option<AntiFraudState>,
    exchange: Option<ExchangeState>)
  {
    /** The property names of the fields that are set. */
    function Populated(): set<string>
    {
      (if device.Some? then {"Device"} else {})
      + (if devicePosition.Some? then {"DevicePosition"} else {})
      + (if powerSaveRecoveryTime.Some? then {"PowerSaveRecoveryTime"} else {})
      + (if antiFraudModule.Some? then {"AntiFraudModule"} else {})
      + (if exchange.Some? then {"Exchange"} else {})
    }
  }

  function CommonEvent(s: CommonStatus, prop: string): (r: Result<CommonPayload>)
    ensures r.Success? ==> r.value.Populated() <= {prop}
    ensures r.Failure? <==> (prop == "Device" && s.device.Other?)
                            || (prop == "DevicePosition" && s.devicePosition.Other?)
                            || (prop == "AntiFraudModule" && s.antiFraudModule.Other?)
                            || (prop == "Exchange" && s.exchange.Other?)
    ensures r.Failure? ==> r.error.InternalErrorFault?
    ensures r.Success? ==> (r.value.device.Some? ==> r.value.device.value == s.device)
                           && (r.value.devicePosition.Some? ==> r.value.devicePosition.value == s.devicePosition)
                           && r.value.powerSaveRecoveryTime == (if prop == "PowerSaveRecoveryTime" then s.powerSaveRecoveryTime else None)
                           && (r.value.antiFraudModule.Some? ==> r.value.antiFraudModule.value == s.antiFraudModule)
                           && (r.value.exchange.Some? ==> r.value.exchange.value == s.exchange)
  {
    var device :- Field(prop, "Device", s.device, s.device.Check());
    var devicePosition :- Field(prop, "DevicePosition", s.devicePosition, s.devicePosition.Check());
    var antiFraudModule :- Field(prop, "AntiFraudModule", s.antiFraudModule, s.antiFraudModule.Check());
    var exchange :- Field(prop, "Exchange", s.exchange, s.exchange.Check());
    Success(CommonPayload(device, devicePosition, Pass(prop, "PowerSaveRecoveryTime", s.powerSaveRecoveryTime),
                          antiFraudModule, exchange))
  }

  // ---- CardReader ----

  datatype MediaState = Entering | Jammed | Latched | NotPresent | Present | Unknown | Other(code: int)
  {
    function Check(): Verdict { if Other? then Reject else Keep }
  }

  datatype SecurityState = Open | NotReady | Other(code: int)
  {
    function Check(): Verdict { if Other? then Reject else Keep }
  }

  datatype ChipPowerState =
    | Busy | HardwareError | NoCard | NoDevice | Online | PoweredOff | Unknown | Other(code: int)
  {
    function Check(): Verdict { if Other? then Reject else Keep }
  }

  /** ChipModule, MagWriteModule, FrontImageModule and BackImageModule share these names. */
  datatype ModuleState = Inoperable | Ok | Unknown | Other(code: int)
  {
    function Check(): Verdict { if Other? then Reject else Keep }
  }

  datatype CardReaderStatus = CardReaderStatus(
    media: MediaState,
    security: SecurityState,
    chipPower: ChipPowerState,
    chipModule: ModuleState,
    magWriteModule: ModuleState,
    frontImageModule: ModuleState,
    backImageModule: ModuleState)

  datatype CardReaderPayload = CardReaderPayload(
    media: Option<MediaState>,
    security: Option<SecurityState>,
    chipPower: Option<ChipPowerState>,
    chipModule: Option<ModuleState>,
    magWriteModule: Option<ModuleState>,
    frontImageModule: Option<ModuleState>,
    backImageModule: Option<ModuleState>)
  {
    function Populated(): set<string>
    {
      (if media.Some? then {"Media"} else {})
      + (if security.Some? then {"Security"} else {})
      + (if chipPower.Some? then {"ChipPower"} else {})
      + (if chipModule.Some? then {"ChipModule"} else {})
      + (if magWriteModule.Some? then {"MagWriteModule"} else {})
      + (if frontImageModule.Some? then {"FrontImageModule"} else {})
      + (if backImageModule.Some? then {"BackImageModule"} else {})
    }
  }

  function CardReaderEvent(s: CardReaderStatus, prop: string): (r: Result<CardReaderPayload>)
    ensures r.Success? ==> r.value.Populated() <= {prop}
    ensures r.Success? ==> (r.value.media.Some? <==> prop == "Media")
                           && (r.value.security.Some? <==> prop == "Security")
                           && (r.value.chipPower.Some? <==> prop == "ChipPower")
                           && (r.value.chipModule.Some? <==> prop == "ChipModule")
                           && (r.value.magWriteModule.Some? <==> prop == "MagWriteModule")
                           && (r.value.frontImageModule.Some? <==> prop == "FrontImageModule")
                           && (r.value.backImageModule.Some? <==> prop == "BackImageModule")
    ensures r.Failure? <==> (prop == "Media" && s.media.Other?)
                            || (prop == "Security" && s.security.Other?)
                            || (prop == "ChipPower" && s.chipPower.Other?)
                            || (prop == "ChipModule" && s.chipModule.Other?)
                            || (prop == "MagWriteModule" && s.magWriteModule.Other?)
                            || (prop == "FrontImageModule" && s.frontImageModule.Other?)
                            || (prop == "BackImageModule" && s.backImageModule.Other?)
    ensures r.Success? ==> (r.value.media.Some? ==> r.value.media.value == s.media)
                           && (r.value.security.Some? ==> r.value.security.value == s.security)
                           && (r.value.chipPower.Some? ==> r.value.chipPower.value == s.chipPower)
                           && (r.value.chipModule.Some? ==> r.value.chipModule.value == s.chipModule)
                           && (r.value.magWriteModule.Some? ==> r.value.magWriteModule.value == s.magWriteModule)
                           && (r.value.frontImageModule.Some? ==> r.value.frontImageModule.value == s.frontImageModule)
                           && (r.value.backImageModule.Some? ==> r.value.backImageModule.value == s.backImageModule)
  {
    var media :- Field(prop, "Media", s.media, s.media.Check());
    var security :- Field(prop, "Security", s.security, s.security.Check());
    var chipPower :- Field(prop, "ChipPower", s.chipPower, s.chipPower.Check());
    var chipModule :- Field(prop, "ChipModule", s.chipModule, s.chipModule.Check());
    var magWriteModule :- Field(prop, "MagWriteModule", s.magWriteModule, s.magWriteModule.Check());
    var frontImageModule :- Field(prop, "FrontImageModule", s.frontImageModule, s.frontImageModule.Check());
    var backImageModule :- Field(prop, "BackImageModule", s.backImageModule, s.backImageModule.Check());
    Success(CardReaderPayload(media, security, chipPower, chipModule, magWriteModule, frontImageModule, backImageModule))
  }

  // ---- BarcodeReader ----

  datatype ScannerState = Off | On | Inoperative | Unknown | Other(code: int)
  {
    function Check(): Verdict { if Other? then Reject else Keep }
  }

  /** The wire field Scanner follows the property ScannerStatus. */
  function BarcodeReaderEvent(scannerStatus: ScannerState, prop: string): (r: Result<Option<ScannerState>>)
    ensures r.Success? && r.value.Some? <==> prop == "ScannerStatus" && !scannerStatus.Other?
    ensures r.Success? && r.value.Some? ==> r.value.value == scannerStatus
    ensures r.Failure? <==> prop == "ScannerStatus" && scannerStatus.Other?
  {
    Field(prop, "ScannerStatus", scannerStatus, scannerStatus.Check())
  }

  // ---- Biometric ----

  datatype SubjectState = NotPresent | Present | Unknown | NotSupported | Other(code: int)
  {
    function Check(): Verdict { if Other? then Reject else if NotSupported? then Drop else Keep }
  }

  /** PersistenceModesEnum; its None value is PersistNone here. */
  datatype PersistenceMode = Persist | Clear | PersistNone | Other(code: int)
  {
    function Check(): Verdict { if Other? then Reject else if PersistNone? then Drop else Keep }
  }

  datatype BiometricStatus = BiometricStatus(
    subject: SubjectState,
    capture: Option<bool>,
    dataPersistence: PersistenceMode,
    remainingStorage: Option<int>)

  datatype BiometricPayload = BiometricPayload(
    subject: Option<SubjectState>,
    capture: Option<bool>,
    dataPersistence: Option<PersistenceMode>,
    remainingStorage: Option<int>)
  {
    function Populated(): set<string>
    {
      (if subject.Some? then {"Subject"} else {})
      + (if capture.Some? then {"Capture"} else {})
      + (if dataPersistence.Some? then {"DataPersistence"} else {})
      + (if remainingStorage.Some? then {"RemainingStorage"} else {})
    }
  }

  function BiometricEvent(s: BiometricStatus, prop: string): (r: Result<BiometricPayload>)
    ensures r.Success? ==> r.value.Populated() <= {prop}
    ensures r.Failure? <==> (prop == "Subject" && s.subject.Other?)
                            || (prop == "DataPersistence" && s.dataPersistence.Other?)
    ensures r.Success? ==> (r.value.subject.Some? <==> prop == "Subject" && !s.subject.NotSupported?)
    ensures r.Success? ==> (r.value.dataPersistence.Some? <==> prop == "DataPersistence" && !s.dataPersistence.PersistNone?)
    ensures r.Success? ==> (r.value.subject.Some? ==> r.value.subject.value == s.subject)
                           && (r.value.dataPersistence.Some? ==> r.value.dataPersistence.value == s.dataPersistence)
    ensures r.Success? ==> r.value.capture == (if prop == "Capture" then s.capture else None)
                           && r.value.remainingStorage == (if prop == "RemainingStorage" then s.remainingStorage else None)
  {
    var subject :- Field(prop, "Subject", s.subject, s.subject.Check());
    var dataPersistence :- Field(prop, "DataPersistence", s.dataPersistence, s.dataPersistence.Check());
    Success(BiometricPayload(subject, Pass(prop, "Capture", s.capture), dataPersistence,
                             Pass(prop, "RemainingStorage", s.remainingStorage)))
  }

  /**
   * A listed common value comes out alone and unchanged: changing one property
   * yields the payload with that one field set.
   */
  lemma CommonEventOfListedValue(s: CommonStatus)
    ensures !s.device.Other? ==> CommonEvent(s, "Device") == Success(CommonPayload(Some(s.device), None, None, None, None))
    ensures !s.devicePosition.Other? ==>
              CommonEvent(s, "DevicePosition") == Success(CommonPayload(None, Some(s.devicePosition), None, None, None))
    ensures CommonEvent(s, "PowerSaveRecoveryTime") == Success(CommonPayload(None, None, s.powerSaveRecoveryTime, None, None))
    ensures !s.antiFraudModule.Other? ==>
              CommonEvent(s, "AntiFraudModule") == Success(CommonPayload(None, None, None, Some(s.antiFraudModule), None))
    ensures !s.exchange.Other? ==> CommonEvent(s, "Exchange") == Success(CommonPayload(None, None, None, None, Some(s.exchange)))
  {
  }

  /** A property the common status does not have yields an empty payload, which is still sent. */
  lemma CommonEventOfOtherProperty(s: CommonStatus, prop: string)
    requires prop !in {"Device", "DevicePosition", "PowerSaveRecoveryTime", "AntiFraudModule", "Exchange"}
    ensures CommonEvent(s, prop) == Success(CommonPayload(None, None, None, None, None))
  {
  }

  /** NotSupported and PersistNone are sent as null, not refused. */
  lemma BiometricDropsUnsupported(s: BiometricStatus)
    ensures s.subject.NotSupported? ==> BiometricEvent(s, "Subject") == Success(BiometricPayload(None, None, None, None))
    ensures s.dataPersistence.PersistNone? ==>
              BiometricEvent(s, "DataPersistence") == Success(BiometricPayload(None, None, None, None))
  {
  }
}
