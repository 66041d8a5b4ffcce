/**
 * Status-changed payloads for the vendor-application, vendor-mode,
 * text-terminal, key-management and keyboard status classes.
 */
module ApplicationStatusEvents {
  import opened Wrappers
  import opened StatusFields
  import VA = VendorApplication

  // ---- VendorApplication ----

  function AccessLevelCheck(level: VA.AccessLevel): Verdict
  {
    if level.Other? then Reject else Keep
  }

  function VendorApplicationEvent(accessLevel: VA.AccessLevel, prop: string): (r: Result<Option<VA.AccessLevel>>)
    ensures r.Success? && r.value.Some? <==> prop == "AccessLevel" && !accessLevel.Other?
    ensures r.Success? && r.value.Some? ==> r.value.value == accessLevel
    ensures r.Failure? <==> prop == "AccessLevel" && accessLevel.Other?
  {
    Field(prop, "AccessLevel", accessLevel, AccessLevelCheck(accessLevel))
  }

  /**
   * The level StartLocalApplication records is always one the AccessLevel
   * event can report: a status that held a named level still does.
   */
  lemma StartedLevelIsReportable(current: VA.AccessLevel, supported: set<VA.SupportedLevel>,
                                 level: Option<VA.RequestedLevel>, result: VA.DeviceStartResult)
    requires !current.Other?
    ensures VendorApplicationEvent(VA.NextAccessLevel(current, supported, level, result), "AccessLevel")
            == Success(Some(VA.NextAccessLevel(current, supported, level, result)))
  {
  }

  // ---- VendorMode ----

  datatype VendorModeDevice = Offline | Online | Other(code: int)
  {
    function Check(): Verdict { if Other? then Reject else Keep }
  }

  datatype VendorModeService = EnterPending | ExitPending | Active | Inactive | Other(code: int)
  {
    function Check(): Verdict { if Other? then Reject else Keep }
  }

  datatype VendorModeStatus = VendorModeStatus(deviceStatus: VendorModeDevice, serviceStatus: VendorModeService)

  /** The wire fields Device and Service follow the properties DeviceStatus and ServiceStatus. */
  datatype VendorModePayload = VendorModePayload(device: Option<VendorModeDevice>, service: Option<VendorModeService>)

  function VendorModeEvent(s: VendorModeStatus, prop: string): (r: Result<VendorModePayload>)
    ensures r.Success? ==> (r.value.device.Some? <==> prop == "DeviceStatus") && (r.value.service.Some? <==> prop == "ServiceStatus")
    ensures r.Success? && r.value.device.Some? ==> r.value.device.value == s.deviceStatus
    ensures r.Success? && r.value.service.Some? ==> r.value.service.value == s.serviceStatus
    ensures r.Failure? <==> (prop == "DeviceStatus" && s.deviceStatus.Other?) || (prop == "ServiceStatus" && s.serviceStatus.Other?)
  {
    var device :- Field(prop, "DeviceStatus", s.deviceStatus, s.deviceStatus.Check());
    var service :- Field(prop, "ServiceStatus", s.serviceStatus, s.serviceStatus.Check());
    Success(VendorModePayload(device, service))
  }

  // ---- TextTerminal ----

  /** KeyboardEnum and KeyLockEnum share these names. */
  datatype OnOffState = Off | On | NotAvailable | Other(code: int)
  {
    function Check(): Verdict { if Other? then Reject else if NotAvailable? then Drop else Keep }
  }

  datatype TextTerminalStatus = TextTerminalStatus(
    keyboard: OnOffState,
    keyLock: OnOffState,
    displaySizeX: int,
    displaySizeY: int)

  datatype TextTerminalPayload = TextTerminalPayload(
    keyboard: Option<OnOffState>,
    keyLock: Option<OnOffState>,
    displaySizeX: Option<int>,
    displaySizeY: Option<int>)
  {
    function Populated(): set<string>
    {
      (if keyboard.Some? then {"Keyboard"} else {})
      + (if keyLock.Some? then {"KeyLock"} else {})
      + (if displaySizeX.Some? then {"DisplaySizeX"} else {})
      + (if displaySizeY.Some? then {"DisplaySizeY"} else {})
    }
  }

  /** A display size of -1 means "not known" and is sent as null. */
  function DisplaySize(prop: string, name: string, size: int): (r: Option<int>)
    ensures r.Some? <==> prop == name && size != -1
    ensures r.Some? ==> r.value == size
  {
    if prop != name then None else if size == -1 then None else Some(size)
  }

  function TextTerminalEvent(s: TextTerminalStatus, prop: string): (r: Result<TextTerminalPayload>)
    ensures r.Success? ==> r.value.Populated() <= {prop}
    ensures r.Failure? <==> (prop == "Keyboard" && s.keyboard.Other?) || (prop == "KeyLock" && s.keyLock.Other?)
    ensures r.Success? ==> (r.value.keyboard.Some? <==> prop == "Keyboard" && !s.keyboard.NotAvailable?)
    ensures r.Success? ==> (r.value.keyLock.Some? <==> prop == "KeyLock" && !s.keyLock.NotAvailable?)
    ensures r.Success? ==> (r.value.keyboard.Some? ==> r.value.keyboard.value == s.keyboard)
                           && (r.value.keyLock.Some? ==> r.value.keyLock.value == s.keyLock)
    ensures r.Success? ==> r.value.displaySizeX == DisplaySize(prop, "DisplaySizeX", s.displaySizeX)
                           && r.value.displaySizeY == DisplaySize(prop, "DisplaySizeY", s.displaySizeY)
  {
    var keyboard :- Field(prop, "Keyboard", s.keyboard, s.keyboard.Check());
    var keyLock :- Field(prop, "KeyLock", s.keyLock, s.keyLock.Check());
    Success(TextTerminalPayload(keyboard, keyLock,
                                DisplaySize(prop, "DisplaySizeX", s.displaySizeX),
                                DisplaySize(prop, "DisplaySizeY", s.displaySizeY)))
  }

  /** The -1 sentinel never reaches the wire; any other size, negative or not, does. */
  lemma DisplaySizeSentinel(s: TextTerminalStatus)
    ensures TextTerminalEvent(s, "DisplaySizeX").Success? && TextTerminalEvent(s, "DisplaySizeY").Success?
    ensures TextTerminalEvent(s, "DisplaySizeX").value.displaySizeX == (if s.displaySizeX == -1 then None else Some(s.displaySizeX))
    ensures TextTerminalEvent(s, "DisplaySizeY").value.displaySizeY == (if s.displaySizeY == -1 then None else Some(s.displaySizeY))
  {
  }

  // ---- KeyManagement ----

  datatype EncryptionState = Ready | Undefined | NotReady | NotInitialized | Initialized | Other(code: int)
  {
    function Check(): Verdict { if Other? then Reject else Keep }
  }

  datatype CertificateState = Unknown | NotReady | Secondary | Primary | NotSupported | Other(code: int)
  {
    function Check(): Verdict { if Other? then Reject else if NotSupported? then Drop else Keep }
  }

  datatype KeyManagementStatus = KeyManagementStatus(encryptionState: EncryptionState, certificateState: CertificateState)

  datatype KeyManagementPayload = KeyManagementPayload(
    encryptionState: Option<EncryptionState>,
    certificateState: Option<CertificateState>)

  function KeyManagementEvent(s: KeyManagementStatus, prop: string): (r: Result<KeyManagementPayload>)
    ensures r.Success? ==> (r.value.encryptionState.Some? <==> prop == "EncryptionState")
    ensures r.Success? ==> (r.value.certificateState.Some? <==> prop == "CertificateState" && !s.certificateState.NotSupported?)
    ensures r.Success? && r.value.encryptionState.Some? ==> r.value.encryptionState.value == s.encryptionState
    ensures r.Success? && r.value.certificateState.Some? ==> r.value.certificateState.value == s.certificateState
    ensures r.Failure? <==> (prop == "EncryptionState" && s.encryptionState.Other?)
                            || (prop == "CertificateState" && s.certificateState.Other?)
  {
    var encryptionState :- Field(prop, "EncryptionState", s.encryptionState, s.encryptionState.Check());
    var certificateState :- Field(prop, "CertificateState", s.certificateState, s.certificateState.Check());
    Success(KeyManagementPayload(encryptionState, certificateState))
  }

  // ---- Keyboard ----

  /** One flag of AutoBeepModeEnum; NotSupported is the empty set. */
  datatype BeepFlag = ActiveBeep | InactiveBeep

  datatype AutoBeepMode = AutoBeepMode(activeAvailable: bool, inactiveAvailable: bool)

  /** The AutoBeepMode record is built only for that property and a supported mode; the event is sent either way. */
  function KeyboardEvent(autoBeepMode: set<BeepFlag>, prop: string): (r: Option<AutoBeepMode>)
    ensures r.Some? <==> prop == "AutoBeepMode" && autoBeepMode != {}
    ensures r.Some? ==> (r.value.activeAvailable <==> ActiveBeep in autoBeepMode)
                        && (r.value.inactiveAvailable <==> InactiveBeep in autoBeepMode)
  {
    if prop == "AutoBeepMode" && autoBeepMode != {} then
      Some(AutoBeepMode(ActiveBeep in autoBeepMode, InactiveBeep in autoBeepMode))
    else None
  }

  /** A mode record that is sent always offers at least one of the two modes. */
  lemma AutoBeepModeOffersOne(autoBeepMode: set<BeepFlag>, prop: string)
    requires KeyboardEvent(autoBeepMode, prop).Some?
    ensures KeyboardEvent(autoBeepMode, prop).value.activeAvailable || KeyboardEvent(autoBeepMode, prop).value.inactiveAvailable
  {
    var flag :| flag in autoBeepMode;
    match flag
    case ActiveBeep =>
    case InactiveBeep =>
  }
}
