/**
 * Status-changed payloads for the check scanner and its positions, and the
 * common ErrorEvent translation.
 */
module CheckStatusEvents {
  import opened Wrappers
  import opened StatusFields

  // ---- Check scanner ----

  /** AcceptorEnum. Attention is sent under the wire name State. */
  datatype AcceptorState = Ok | Attention | Stop | Unknown | Other(code: int)

  /** XFS4IoT.Check.StatusClass.AcceptorEnum. */
  datatype WireAcceptor = AcceptorOk | State | AcceptorStop | AcceptorUnknown

  datatype CheckMediaState = Present | NotPresent | Position | Jammed | Unknown | Other(code: int)
  {
    function Check(): Verdict { if Other? then Reject else Keep }
  }

  /** TonerEnum and InkEnum share these names. */
  datatype LevelState = Out | Full | Low | Unknown | Other(code: int)
  {
    function Check(): Verdict { if Other? then Reject else Keep }
  }

  /** ImageScannerEnum: the front scanner, the back scanner and the MICR reader. */
  datatype ImageScannerState = Ok | Fading | Inoperative | Unknown | Other(code: int)
  {
    function Check(): Verdict { if Other? then Reject else Keep }
  }

  /** StackerEnum and ReBuncherEnum share these names. */
  datatype BinState = Empty | NotEmpty | Full | Inoperative | Unknown | Other(code: int)
  {
    function Check(): Verdict { if Other? then Reject else Keep }
  }

  datatype MediaFeederState = Empty | NotEmpty | Inoperative | Unknown | Other(code: int)
  {
    function Check(): Verdict { if Other? then Reject else Keep }
  }

  datatype CheckScannerStatus = CheckScannerStatus(
    acceptor: AcceptorState,
    media: CheckMediaState,
    toner: LevelState,
    ink: LevelState,
    frontImageScanner: ImageScannerState,
    backImageScanner: ImageScannerState,
    micrReader: ImageScannerState,
    stacker: BinState,
    reBuncher: BinState,
    mediaFeeder: MediaFeederState)

  datatype CheckScannerPayload = CheckScannerPayload(
    acceptor: Option<WireAcceptor>,
    media: Option<CheckMediaState>,
    toner: Option<LevelState>,
    ink: Option<LevelState>,
    frontImageScanner: Option<ImageScannerState>,
    backImageScanner: Option<ImageScannerState>,
    micrReader: Option<ImageScannerState>,
    stacker: Option<BinState>,
    rebuncher: Option<BinState>,
    mediaFeeder: Option<MediaFeederState>)
  {
    /** The properties whose fields are set; the wire field Rebuncher follows ReBuncher. */
    function Populated(): set<string>
    {
      (if acceptor.Some? then {"Acceptor"} else {})
      + (if media.Some? then {"Media"} else {})
      + (if toner.Some? then {"Toner"} else {})
      + (if ink.Some? then {"Ink"} else {})
      + (if frontImageScanner.Some? then {"FrontImageScanner"} else {})
      + (if backImageScanner.Some? then {"BackImageScanner"} else {})
      + (if micrReader.Some? then {"MICRReader"} else {})
      + (if stacker.Some? then {"Stacker"} else {})
      + (if rebuncher.Some? then {"ReBuncher"} else {})
      + (if mediaFeeder.Some? then {"MediaFeeder"} else {})
    }
  }

  /** The acceptor field: the one field of this class whose wire names differ. */
  function AcceptorField(prop: string, a: AcceptorState): (r: Result<Option<WireAcceptor>>)
    ensures r.Failure? <==> prop == "Acceptor" && a.Other?
    ensures r.Success? && r.value.Some? <==> prop == "Acceptor" && !a.Other?
    ensures r.Success? && r.value.Some? ==> (r.value.value == State <==> a.Attention?)
                                            && (r.value.value == AcceptorOk <==> a.Ok?)
                                            && (r.value.value == AcceptorStop <==> a.Stop?)
                                            && (r.value.value == AcceptorUnknown <==> a.Unknown?)
  {
    if prop != "Acceptor" then Success(None)
    else match a
      case Ok => Success(Some(AcceptorOk))
      case Attention => Success(Some(State))
      case Stop => Success(Some(AcceptorStop))
      case Unknown => Success(Some(AcceptorUnknown))
      case Other(_) => Failure(InternalErrorFault("Acceptor"))
  }

  /** Whether the changed value is one the check scanner's switches do not list. */
  predicate Unlisted(s: CheckScannerStatus, prop: string)
  {
    (prop == "Acceptor" && s.acceptor.Other?) || (prop == "Media" && s.media.Other?)
    || (prop == "Toner" && s.toner.Other?) || (prop == "Ink" && s.ink.Other?)
    || (prop == "FrontImageScanner" && s.frontImageScanner.Other?)
    || (prop == "BackImageScanner" && s.backImageScanner.Other?)
    || (prop == "MICRReader" && s.micrReader.Other?)
    || (prop == "Stacker" && s.stacker.Other?) || (prop == "ReBuncher" && s.reBuncher.Other?)
    || (prop == "MediaFeeder" && s.mediaFeeder.Other?)
  }

  /**
   * The check scanner class has no NotSupported values: the event is sent for
   * every property, with the changed field set exactly when its property is
   * one of the ten.
   */
  function CheckScannerEvent(s: CheckScannerStatus, prop: string): (r: Result<CheckScannerPayload>)
    ensures r.Failure? <==> Unlisted(s, prop)
    ensures r.Success? ==> r.value.Populated() == (if prop in CheckScannerProperties then {prop} else {})
    ensures r.Success? ==> AcceptorField(prop, s.acceptor) == Success(r.value.acceptor)
    ensures r.Success? ==> (r.value.media.Some? ==> r.value.media.value == s.media)
                           && (r.value.toner.Some? ==> r.value.toner.value == s.toner)
                           && (r.value.ink.Some? ==> r.value.ink.value == s.ink)
                           && (r.value.frontImageScanner.Some? ==> r.value.frontImageScanner.value == s.frontImageScanner)
                           && (r.value.backImageScanner.Some? ==> r.value.backImageScanner.value == s.backImageScanner)
                           && (r.value.micrReader.Some? ==> r.value.micrReader.value == s.micrReader)
                           && (r.value.stacker.Some? ==> r.value.stacker.value == s.stacker)
                           && (r.value.rebuncher.Some? ==> r.value.rebuncher.value == s.reBuncher)
                           && (r.value.mediaFeeder.Some? ==> r.value.mediaFeeder.value == s.mediaFeeder)
  {
    var acceptor :- AcceptorField(prop, s.acceptor);
    var media :- Field(prop, "Media", s.media, s.media.Check());
    var toner :- Field(prop, "Toner", s.toner, s.toner.Check());
    var ink :- Field(prop, "Ink", s.ink, s.ink.Check());
    var front :- Field(prop, "FrontImageScanner", s.frontImageScanner, s.frontImageScanner.Check());
    var back :- Field(prop, "BackImageScanner", s.backImageScanner, s.backImageScanner.Check());
    var micr :- Field(prop, "MICRReader", s.micrReader, s.micrReader.Check());
    var stacker :- Field(prop, "Stacker", s.stacker, s.stacker.Check());
    var rebuncher :- Field(prop, "ReBuncher", s.reBuncher, s.reBuncher.Check());
    var feeder :- Field(prop, "MediaFeeder", s.mediaFeeder, s.mediaFeeder.Check());
    Success(CheckScannerPayload(acceptor, media, toner, ink, front, back, micr, stacker, rebuncher, feeder))
  }

  const CheckScannerProperties: set<string> :=
    {"Acceptor", "Media", "Toner", "Ink", "FrontImageScanner", "BackImageScanner", "MICRReader", "Stacker", "ReBuncher", "MediaFeeder"}

  // ---- Check positions ----

  datatype ShutterState = Open | Closed | Jammed | Unknown | Other(code: int)
  {
    function Check(): Verdict { if Other? then Reject else Keep }
  }

  /** PositionStatusEnum and TransportMediaStatusEnum share these names. */
  datatype ContentState = Empty | NotEmpty | Unknown | Other(code: int)
  {
    function Check(): Verdict { if Other? then Reject else Keep }
  }

  datatype TransportState = Ok | Inoperative | Unknown | Other(code: int)
  {
    function Check(): Verdict { if Other? then Reject else Keep }
  }

  datatype JammedShutterState = Open | Closed | PartiallyOpen | NotJammed | Unknown | Other(code: int)
  {
    function Check(): Verdict { if Other? then Reject else Keep }
  }

  /** One flag of PositionBitmapEnum. */
  datatype CheckPosition = Input | Output | Refused

  datatype CheckPositionStatus = CheckPositionStatus(
    position: Option<set<CheckPosition>>,
    shutter: ShutterState,
    positionStatus: ContentState,
    transport: TransportState,
    transportMediaStatus: ContentState,
    jammedShutterPosition: JammedShutterState)

  /** The per-position record, shared by every position the status names. */
  datatype PositionStat = PositionStat(
    shutter: Option<ShutterState>,
    positionStatus: Option<ContentState>,
    transport: Option<TransportState>,
    transportMediaStatus: Option<ContentState>,
    jammedShutterPosition: Option<JammedShutterState>)

  datatype CheckPositionsPayload = CheckPositionsPayload(input: Option<PositionStat>, output: Option<PositionStat>, refused: Option<PositionStat>)

  predicate PositionUnlisted(s: CheckPositionStatus, prop: string)
  {
    (prop == "Shutter" && s.shutter.Other?) || (prop == "PositionStatus" && s.positionStatus.Other?)
    || (prop == "Transport" && s.transport.Other?) || (prop == "TransportMediaStatus" && s.transportMediaStatus.Other?)
    || (prop == "JammedShutterPosition" && s.jammedShutterPosition.Other?)
  }

  function PositionStatEvent(s: CheckPositionStatus, prop: string): (r: Result<PositionStat>)
    ensures r.Failure? <==> PositionUnlisted(s, prop)
    ensures r.Failure? ==> r.error.InternalErrorFault?
    ensures r.Success? ==> (r.value.shutter.Some? <==> prop == "Shutter") && (r.value.positionStatus.Some? <==> prop == "PositionStatus")
                           && (r.value.transport.Some? <==> prop == "Transport")
                           && (r.value.transportMediaStatus.Some? <==> prop == "TransportMediaStatus")
                           && (r.value.jammedShutterPosition.Some? <==> prop == "JammedShutterPosition")
    ensures r.Success? ==> (r.value.shutter.Some? ==> r.value.shutter.value == s.shutter)
                           && (r.value.positionStatus.Some? ==> r.value.positionStatus.value == s.positionStatus)
                           && (r.value.transport.Some? ==> r.value.transport.value == s.transport)
                           && (r.value.transportMediaStatus.Some? ==> r.value.transportMediaStatus.value == s.transportMediaStatus)
                           && (r.value.jammedShutterPosition.Some? ==> r.value.jammedShutterPosition.value == s.jammedShutterPosition)
  {
    var shutter :- Field(prop, "Shutter", s.shutter, s.shutter.Check());
    var positionStatus :- Field(prop, "PositionStatus", s.positionStatus, s.positionStatus.Check());
    var transport :- Field(prop, "Transport", s.transport, s.transport.Check());
    var media :- Field(prop, "TransportMediaStatus", s.transportMediaStatus, s.transportMediaStatus.Check());
    var jammed :- Field(prop, "JammedShutterPosition", s.jammedShutterPosition, s.jammedShutterPosition.Check());
    Success(PositionStat(shutter, positionStatus, transport, media, jammed))
  }

  /**
   * The positions event: the record is built first, so an unlisted value is
   * refused before a null position is noticed; then every position named in
   * the bitmap gets the same record and the others stay null. The event is
   * sent even for an empty bitmap.
   */
  function CheckPositionsEvent(s: CheckPositionStatus, prop: string): (r: Result<CheckPositionsPayload>)
    ensures r.Failure? <==> PositionUnlisted(s, prop) || s.position.None?
    ensures r.Failure? && !PositionUnlisted(s, prop) ==> r.error == AssertionFault("Position")
    ensures r.Success? ==> (r.value.input.Some? <==> Input in s.position.value)
                           && (r.value.output.Some? <==> Output in s.position.value)
                           && (r.value.refused.Some? <==> Refused in s.position.value)
    ensures r.Success? ==> PositionStatEvent(s, prop).Success?
    ensures r.Success? ==> (r.value.input.Some? ==> r.value.input.value == PositionStatEvent(s, prop).value)
                           && (r.value.output.Some? ==> r.value.output.value == PositionStatEvent(s, prop).value)
                           && (r.value.refused.Some? ==> r.value.refused.value == PositionStatEvent(s, prop).value)
  {
    var stat :- PositionStatEvent(s, prop);
    if s.position.None? then Failure(AssertionFault("Position"))
    else
      var flags := s.position.value;
      Success(CheckPositionsPayload(if Input in flags then Some(stat) else None,
                                    if Output in flags then Some(stat) else None,
                                    if Refused in flags then Some(stat) else None))
  }

  /** A null position with an unlisted value reports the unlisted value, not the null. */
  lemma UnlistedValueBeforeNullPosition(s: CheckPositionStatus)
    requires s.position.None? && s.shutter.Other?
    ensures CheckPositionsEvent(s, "Shutter") == Failure(InternalErrorFault("Shutter"))
  {
  }

  /** The entry of the positions payload for one position. */
  function EntryAt(p: CheckPositionsPayload, q: CheckPosition): Option<PositionStat>
  {
    match q
    case Input => p.input
    case Output => p.output
    case Refused => p.refused
  }

  /**
   * Whatever the bitmap, every position it names carries the same record, the
   * one built from the changed property, and every other position stays null;
   * with all three named, the three entries are equal.
   */
  lemma PositionsShareTheRecord(s: CheckPositionStatus, prop: string, q: CheckPosition, q': CheckPosition)
    requires CheckPositionsEvent(s, prop).Success?
    ensures var p := CheckPositionsEvent(s, prop).value;
            EntryAt(p, q) == if q in s.position.value then Some(PositionStatEvent(s, prop).value) else None
    ensures var p := CheckPositionsEvent(s, prop).value;
            q in s.position.value && q' in s.position.value ==> EntryAt(p, q).Some? && EntryAt(p, q) == EntryAt(p, q')
  {
  }

  // ---- ErrorEvent ----

  datatype ErrorEventId = FraudAttempt | Hardware | Software | User | OtherEventId(code: int)

  datatype ErrorAction = Clear | Configuration | Maintenance | Reset | SoftwareError | Suspend | OtherAction(code: int)

  /** ErrorEvent.PayloadData.EventIdEnum. */
  datatype WireEventId = WireFraudAttempt | WireHardware | WireSoftware | WireUser

  /** ErrorEvent.PayloadData.ActionEnum. */
  datatype WireAction = WireClear | WireConfiguration | WireMaintenance | WireReset | WireSoftwareError | WireSuspend

  datatype ErrorPayload = ErrorPayload(eventId: WireEventId, action: WireAction, vendorDescription: string)

  /** The event id: three named ids, every other value reported as User. */
  function WireEventIdOf(id: ErrorEventId): (w: WireEventId)
    ensures id.FraudAttempt? <==> w == WireFraudAttempt
    ensures id.Hardware? <==> w == WireHardware
    ensures id.Software? <==> w == WireSoftware
    ensures (id.User? || id.OtherEventId?) <==> w == WireUser
  {
    match id
    case FraudAttempt => WireFraudAttempt
    case Hardware => WireHardware
    case Software => WireSoftware
    case _ => WireUser
  }

  /** The action: five named actions, every other value reported as Suspend. */
  function WireActionOf(a: ErrorAction): (w: WireAction)
    ensures a.Clear? <==> w == WireClear
    ensures a.Configuration? <==> w == WireConfiguration
    ensures a.Maintenance? <==> w == WireMaintenance
    ensures a.Reset? <==> w == WireReset
    ensures a.SoftwareError? <==> w == WireSoftwareError
    ensures (a.Suspend? || a.OtherAction?) <==> w == WireSuspend
  {
    match a
    case Clear => WireClear
    case Configuration => WireConfiguration
    case Maintenance => WireMaintenance
    case Reset => WireReset
    case SoftwareError => WireSoftwareError
    case _ => WireSuspend
  }

  /** ErrorEvent never refuses a value and passes the description on unchanged. */
  function ErrorEvent(id: ErrorEventId, action: ErrorAction, vendorDescription: string): (r: ErrorPayload)
    ensures r.eventId == WireEventIdOf(id) && r.action == WireActionOf(action)
    ensures r.vendorDescription == vendorDescription
  {
    ErrorPayload(WireEventIdOf(id), WireActionOf(action), vendorDescription)
  }

  /** Two errors are reported alike exactly when they agree up to the two defaults. */
  lemma ErrorEventDefaults(id1: ErrorEventId, id2: ErrorEventId, a1: ErrorAction, a2: ErrorAction, d: string)
    ensures ErrorEvent(id1, a1, d) == ErrorEvent(id2, a2, d) <==>
            (id1 == id2 || ((id1.User? || id1.OtherEventId?) && (id2.User? || id2.OtherEventId?)))
            && (a1 == a2 || ((a1.Suspend? || a1.OtherAction?) && (a2.Suspend? || a2.OtherAction?)))
  {
  }
}
