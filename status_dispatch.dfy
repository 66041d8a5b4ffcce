/**
 * StatusChangedEvent(sender, propertyInfo): the dispatch on the exact class of
 * the status object whose property changed. Each branch builds the payload of
 * its own class; an exception raised while building it ends the handler with
 * no event sent for that payload.
 */
module StatusDispatch {
  import opened Wrappers
  import opened StatusFields
  import VA = VendorApplication
  import D = DeviceStatusEvents
  import A = ApplicationStatusEvents
  import Cam = CameraStatusEvents
  import Aux = AuxiliariesStatusEvents
  import Cash = CashStatusEvents
  import P = PrinterStatusEvents
  import Chk = CheckStatusEvents

  /** One flag of MixedMedia.ModeTypeEnum. */
  datatype MixedMode = CashMode | CheckMode

  /** The status object that raised PropertyChanged, by its exact class. */
  datatype Sender =
    | CommonSender(common: D.CommonStatus)
    | CardReaderSender(cardReader: D.CardReaderStatus)
    | BarcodeReaderSender(scannerStatus: D.ScannerState)
    | BiometricSender(biometric: D.BiometricStatus)
    | VendorApplicationSender(accessLevel: VA.AccessLevel)
    | VendorModeSender(vendorMode: A.VendorModeStatus)
    | TextTerminalSender(textTerminal: A.TextTerminalStatus)
    | KeyManagementSender(keyManagement: A.KeyManagementStatus)
    | KeyboardSender(autoBeepMode: set<A.BeepFlag>)
    | CameraLocationSender(camera: Cam.CameraLocationStatus)
    | CashManagementSender(dispenser: Cash.UnitState, acceptor: Cash.UnitState)
    | DoorSender(doorType: Aux.DoorType, doorStatus: Aux.DoorState)
    | AuxiliariesSender(auxiliaries: Aux.AuxiliariesStatus)
    | CashAcceptorSender(cashAcceptor: Cash.CashAcceptorStatus)
    | CashDispenserSender(intermediateStacker: Cash.DispenserStackerState)
    | CashPositionSender(position: Cash.PositionStatus)
    | PrinterSender(printer: P.PrinterStatus)
    | RetractBinSender(binState: P.BinState, binCount: int)
    | SupplySender(supply: P.SupplyStatus)
    | CheckScannerSender(checkScanner: Chk.CheckScannerStatus)
    | CheckPositionSender(checkPosition: Chk.CheckPositionStatus)
    | MixedMediaSender(currentModes: set<MixedMode>)
    | OtherSender   // a status class no branch names

  /** XFS4IoT.MixedMedia.StatusClass.Modes. */
  datatype MixedMediaModes = MixedMediaModes(cashAccept: bool, checkAccept: bool)

  /** The payload of one status-changed event, by the part of the status it fills in. */
  datatype StatusPayload =
    | CommonChanged(common: D.CommonPayload)
    | CardReaderChanged(cardReader: D.CardReaderPayload)
    | BarcodeReaderChanged(scannerStatus: Option<D.ScannerState>)
    | BiometricChanged(biometric: D.BiometricPayload)
    | VendorApplicationChanged(accessLevel: Option<VA.AccessLevel>)
    | VendorModeChanged(vendorMode: A.VendorModePayload)
    | TextTerminalChanged(textTerminal: A.TextTerminalPayload)
    | KeyManagementChanged(keyManagement: A.KeyManagementPayload)
    | KeyboardChanged(autoBeepMode: Option<A.AutoBeepMode>)
    | CameraChanged(camera: Cam.CameraPayload)
    | CashManagementChanged(cashManagement: Cash.CashManagementPayload)
    | DoorChanged(doors: Aux.DoorPayload)
    | AuxiliariesChanged(auxiliaries: Aux.AuxiliariesPayload)
    | CashAcceptorChanged(cashAcceptor: Cash.CashAcceptorPayload)
    | CashDispenserChanged(intermediateStacker: Option<Cash.DispenserStackerState>)
    | CashPositionChanged(positions: Cash.PositionEvent)
    | PrinterChanged(printer: P.PrinterPayload)
    | RetractBinsChanged(retractBins: seq<P.RetractBinPayload>)
    | SupplyChanged(supply: P.SupplyEvent)
    | CheckScannerChanged(checkScanner: Chk.CheckScannerPayload)
    | CheckPositionsChanged(checkPositions: Chk.CheckPositionsPayload)
    | MixedMediaChanged(modes: MixedMediaModes)

  /** Whether a payload is one the sender's own class fills in. */
  predicate FromSender(sender: Sender, p: StatusPayload)
  {
    match sender
    case CommonSender(_) => p.CommonChanged?
    case CardReaderSender(_) => p.CardReaderChanged?
    case BarcodeReaderSender(_) => p.BarcodeReaderChanged?
    case BiometricSender(_) => p.BiometricChanged?
    case VendorApplicationSender(_) => p.VendorApplicationChanged?
    case VendorModeSender(_) => p.VendorModeChanged?
    case TextTerminalSender(_) => p.TextTerminalChanged?
    case KeyManagementSender(_) => p.KeyManagementChanged?
    case KeyboardSender(_) => p.KeyboardChanged?
    case CameraLocationSender(_) => p.CameraChanged?
    case CashManagementSender(_, _) => p.CashManagementChanged?
    case DoorSender(_, _) => p.DoorChanged?
    case AuxiliariesSender(_) => p.AuxiliariesChanged?
    case CashAcceptorSender(_) => p.CashAcceptorChanged?
    case CashDispenserSender(_) => p.CashDispenserChanged?
    case CashPositionSender(_) => p.CashPositionChanged?
    case PrinterSender(_) => p.PrinterChanged?
    case RetractBinSender(_, _) => p.RetractBinsChanged?
    case SupplySender(_) => p.SupplyChanged?
    case CheckScannerSender(_) => p.CheckScannerChanged?
    case CheckPositionSender(_) => p.CheckPositionsChanged?
    case MixedMediaSender(_) => p.MixedMediaChanged?
    case OtherSender => false
  }

  /** One payload sent, or the exception that stopped it. */
  function Send<T>(r: Result<T>, wrap: T -> StatusPayload): (e: Emission<StatusPayload>)
    ensures |e.events| <= 1 && (e.events == [] <==> e.fault.Some?)
    ensures e.fault.Some? <==> r.Failure?
    ensures r.Failure? ==> e.fault == Some(r.error)
    ensures r.Success? ==> e.events == [wrap(r.value)]
  {
    match r
    case Success(v) => Emission([wrap(v)], None)
    case Failure(f) => Emission([], Some(f))
  }

  /** A payload sent only when present. */
  function SendIfPresent<T>(r: Result<Option<T>>, wrap: T -> StatusPayload): (e: Emission<StatusPayload>)
    ensures |e.events| <= 1
    ensures e.fault.Some? <==> r.Failure?
    ensures r.Failure? ==> e.fault == Some(r.error) && e.events == []
    ensures r.Success? ==> e.events == if r.value.Some? then [wrap(r.value.value)] else []
  {
    match r
    case Success(Some(v)) => Emission([wrap(v)], None)
    case Success(None) => Emission([], None)
    case Failure(f) => Emission([], Some(f))
  }

  function CashPositionEmission(s: Cash.PositionStatus, prop: string): (e: Emission<StatusPayload>)
    ensures |e.events| <= 2
    ensures forall i :: 0 <= i < |e.events| ==> e.events[i].CashPositionChanged?
  {
    var r := Cash.PositionEvents(s, prop);
    Emission(seq(|r.events|, i requires 0 <= i < |r.events| => CashPositionChanged(r.events[i])), r.fault)
  }

  function SupplyEmission(s: P.SupplyStatus, prop: string): (e: Emission<StatusPayload>)
    ensures |e.events| <= 1 && e.fault.None?
    ensures forall i :: 0 <= i < |e.events| ==> e.events[i].SupplyChanged?
  {
    var r := P.SupplyEvents(s, prop, AddOnParsedCopy);
    Emission(seq(|r|, i requires 0 <= i < |r| => SupplyChanged(r[i])), None)
  }

  /**
   * The check scanner branch, entered for a check scanner or a check position
   * sender. It ends with the mixed-media case, which tests for a third class.
   */
  function CheckBranch(sender: Sender, prop: string): (e: Emission<StatusPayload>)
    ensures sender.CheckScannerSender? || sender.CheckPositionSender? ==> SingleEvent(sender, e)
  {
    var first :=
      if sender.CheckScannerSender? then Send(Chk.CheckScannerEvent(sender.checkScanner, prop), p => CheckScannerChanged(p))
      else if sender.CheckPositionSender? then Send(Chk.CheckPositionsEvent(sender.checkPosition, prop), p => CheckPositionsChanged(p))
      else Emission([], None);
    if first.fault.None? && sender.MixedMediaSender? then
      Emission(first.events + [MixedMediaChanged(MixedMediaModes(CashMode in sender.currentModes, CheckMode in sender.currentModes))], None)
    else first
  }

  /** The property that stands for one sender's payload, as produced by a branch that sends at most one event. */
  predicate SingleEvent(sender: Sender, e: Emission<StatusPayload>)
  {
    |e.events| <= 1 && (e.fault.Some? ==> e.events == [])
    && (|e.events| == 1 ==> FromSender(sender, e.events[0]))
  }

  /** The branches of the device status classes. */
  function DeviceBranch(sender: Sender, prop: string): (e: Emission<StatusPayload>)
    requires sender.CommonSender? || sender.CardReaderSender? || sender.BarcodeReaderSender? || sender.BiometricSender?
    ensures SingleEvent(sender, e)
  {
    match sender
    case CommonSender(s) => Send(D.CommonEvent(s, prop), p => CommonChanged(p))
    case CardReaderSender(s) => Send(D.CardReaderEvent(s, prop), p => CardReaderChanged(p))
    case BarcodeReaderSender(s) => Send(D.BarcodeReaderEvent(s, prop), p => BarcodeReaderChanged(p))
    case BiometricSender(s) => Send(D.BiometricEvent(s, prop), p => BiometricChanged(p))
  }

  /** The branches of the application and key status classes. */
  function ApplicationBranch(sender: Sender, prop: string): (e: Emission<StatusPayload>)
    requires sender.VendorApplicationSender? || sender.VendorModeSender? || sender.TextTerminalSender?
             || sender.KeyManagementSender? || sender.KeyboardSender?
    ensures SingleEvent(sender, e)
  {
    match sender
    case VendorApplicationSender(level) => Send(A.VendorApplicationEvent(level, prop), p => VendorApplicationChanged(p))
    case VendorModeSender(s) => Send(A.VendorModeEvent(s, prop), p => VendorModeChanged(p))
    case TextTerminalSender(s) => Send(A.TextTerminalEvent(s, prop), p => TextTerminalChanged(p))
    case KeyManagementSender(s) => Send(A.KeyManagementEvent(s, prop), p => KeyManagementChanged(p))
    case KeyboardSender(modes) => Emission([KeyboardChanged(A.KeyboardEvent(modes, prop))], None)
  }

  /** The branches of the camera, cash-management, door and auxiliaries classes. */
  function UnitBranch(sender: Sender, prop: string): (e: Emission<StatusPayload>)
    requires sender.CameraLocationSender? || sender.CashManagementSender? || sender.DoorSender? || sender.AuxiliariesSender?
    ensures SingleEvent(sender, e)
  {
    match sender
    case CameraLocationSender(s) =>
      var c := Cam.CameraEvent(s, prop, AddOnParsedCopy);
      Emission(if c.Some? then [CameraChanged(c.value)] else [], None)
    case CashManagementSender(dispenser, acceptor) =>
      Emission([CashManagementChanged(Cash.CashManagementEvent(dispenser, acceptor, prop))], None)
    case DoorSender(doorType, doorStatus) => SendIfPresent(Aux.DoorEvent(doorType, doorStatus, prop), p => DoorChanged(p))
    case AuxiliariesSender(s) => Send(Aux.AuxiliariesEvent(s, prop), p => AuxiliariesChanged(p))
  }

  /** The branches of the cash-acceptor and cash-dispenser classes. */
  function CashUnitBranch(sender: Sender, prop: string): (e: Emission<StatusPayload>)
    requires sender.CashAcceptorSender? || sender.CashDispenserSender?
    ensures SingleEvent(sender, e)
  {
    match sender
    case CashAcceptorSender(s) => Send(Cash.CashAcceptorEvent(s, prop), p => CashAcceptorChanged(p))
    case CashDispenserSender(stacker) => Send(Cash.CashDispenserEvent(stacker, prop), p => CashDispenserChanged(p))
  }

  /** The branches of the printer classes. */
  function PrinterBranch(sender: Sender, prop: string): (e: Emission<StatusPayload>)
    requires sender.PrinterSender? || sender.RetractBinSender? || sender.SupplySender?
    ensures SingleEvent(sender, e)
  {
    match sender
    case PrinterSender(s) => Send(P.PrinterEvent(s, prop), p => PrinterChanged(p))
    case RetractBinSender(state, count) => Send(P.RetractBinEvent(state, count, prop), p => RetractBinsChanged(p))
    case SupplySender(s) => SupplyEmission(s, prop)
  }

  /**
   * The whole dispatch. Only a cash position status can send two events (the
   * dispenser's and the acceptor's) or raise after sending one.
   */
  function StatusChanged(sender: Sender, prop: string): (r: Emission<StatusPayload>)
    ensures |r.events| <= 2
    ensures |r.events| == 2 ==> sender.CashPositionSender?
    ensures r.fault.Some? && r.events != [] ==> sender.CashPositionSender?
    ensures forall i :: 0 <= i < |r.events| ==> FromSender(sender, r.events[i])
  {
    if sender.CommonSender? || sender.CardReaderSender? || sender.BarcodeReaderSender? || sender.BiometricSender? then
      DeviceBranch(sender, prop)
    else if sender.VendorApplicationSender? || sender.VendorModeSender? || sender.TextTerminalSender?
            || sender.KeyManagementSender? || sender.KeyboardSender? then
      ApplicationBranch(sender, prop)
    else if sender.CameraLocationSender? || sender.CashManagementSender? || sender.DoorSender? || sender.AuxiliariesSender? then
      UnitBranch(sender, prop)
    else if sender.CashAcceptorSender? || sender.CashDispenserSender? then
      CashUnitBranch(sender, prop)
    else if sender.CashPositionSender? then
      CashPositionEmission(sender.position, prop)
    else if sender.PrinterSender? || sender.RetractBinSender? || sender.SupplySender? then
      PrinterBranch(sender, prop)
    else if sender.CheckScannerSender? || sender.CheckPositionSender? then
      CheckBranch(sender, prop)
    else
      Emission([], None)
  }

  /**
   * The mixed-media case sits inside the check scanner branch, which only a
   * check scanner or check position sender enters, so a mixed-media status
   * change is never reported and no sender produces a MixedMedia payload.
   */
  lemma {:induction false} MixedMediaIsNeverReported(sender: Sender, prop: string)
    ensures sender.MixedMediaSender? ==> StatusChanged(sender, prop) == Emission([], None)
    ensures forall i :: 0 <= i < |StatusChanged(sender, prop).events| ==> !StatusChanged(sender, prop).events[i].MixedMediaChanged?
  {
  }

  /** Reached directly, the mixed-media case would report the two mode flags. */
  lemma MixedMediaCaseAlone(modes: set<MixedMode>, prop: string)
    ensures CheckBranch(MixedMediaSender(modes), prop).events
            == [MixedMediaChanged(MixedMediaModes(CashMode in modes, CheckMode in modes))]
  {
  }

  /** A class no branch names sends nothing and raises nothing. */
  lemma UnknownSenderIsIgnored(prop: string)
    ensures StatusChanged(OtherSender, prop) == Emission([], None)
  {
  }
}
