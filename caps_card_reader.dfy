/**
 * The card reader part of the Common.Capabilities completion: defaulting
 * switches for the device type, security type and power options, and the
 * boolean records for the track, chip, write-mode and position flags.
 */
module CardReaderCapabilities {
  import opened CapabilityFlags

  /** DeviceTypeEnum; OtherType is a value the switch does not name. */
  datatype DeviceType = Motor | Swipe | Dip | LatchedDip | Contactless | IntelligentContactless | Permanent | OtherType(code: int)

  datatype SecurityType = NotSupported | Mm | Cim86 | OtherSecurity(code: int)

  /** PowerOptionEnum; the wire PowerOnOption and PowerOffOption enums carry the same names. */
  datatype PowerOption = NoPowerOption | Exit | Retain | ExitThenRetain | Transport | OtherPower(code: int)

  datatype ReadTrack = Track1 | Track2 | Track3 | Watermark | Track1Front | FrontImage | BackImage | Track1JIS | Track3JIS | Ddi
  datatype WriteTrack = WTrack1 | WTrack2 | WTrack3 | WTrack1Front | WTrack1JIS | WTrack3JIS
  datatype ChipProtocol = T0 | T1 | NotRequired | TypeAPart3 | TypeAPart4 | TypeB | TypeNFC
  /** WriteMethodsEnum without its zero value NotSupported, which is the empty set. */
  datatype WriteMethod = Loco | Hico | Auto
  /** ChipPowerOptionsEnum without its zero value NotSupported, which is the empty set. */
  datatype ChipPowerOption = Cold | Warm | Off
  datatype MemoryChipProtocol = Siemens4442 | Gpm896
  datatype CardPosition = PositionExit | PositionTransport

  const ReadTrackOrder: seq<ReadTrack> := [Track1, Track2, Track3, Watermark, Track1Front, FrontImage, BackImage, Track1JIS, Track3JIS, Ddi]
  const WriteTrackOrder: seq<WriteTrack> := [WTrack1, WTrack2, WTrack3, WTrack1Front, WTrack1JIS, WTrack3JIS]
  const ChipProtocolOrder: seq<ChipProtocol> := [T0, T1, NotRequired, TypeAPart3, TypeAPart4, TypeB, TypeNFC]
  const WriteMethodOrder: seq<WriteMethod> := [Loco, Hico, Auto]
  const ChipPowerOrder: seq<ChipPowerOption> := [Cold, Warm, Off]
  const MemoryChipOrder: seq<MemoryChipProtocol> := [Siemens4442, Gpm896]
  const CardPositionOrder: seq<CardPosition> := [PositionExit, PositionTransport]

  /** What the device class reports. */
  datatype CardReaderCaps = CardReaderCaps(
    deviceType: DeviceType,
    readTracks: set<ReadTrack>,
    writeTracks: set<WriteTrack>,
    chipProtocols: set<ChipProtocol>,
    securityType: SecurityType,
    powerOnOption: PowerOption,
    powerOffOption: PowerOption,
    fluxSensorProgrammable: bool,
    readWriteAccessFollowingExit: bool,
    writeMode: set<WriteMethod>,
    chipPower: set<ChipPowerOption>,
    memoryChipProtocols: set<MemoryChipProtocol>,
    positions: set<CardPosition>,
    cardTakenSensor: bool)

  /** A record that starts with a "notSupported" boolean before its flag booleans. */
  datatype ModeRecord = ModeRecord(notSupported: bool, flags: seq<bool>)

  /** The wire record; each flag record is its booleans in constructor order. */
  datatype CardReaderRecord = CardReaderRecord(
    deviceType: DeviceType,
    readTracks: seq<bool>,
    writeTracks: seq<bool>,
    chipProtocols: seq<bool>,
    securityType: SecurityType,
    powerOnOption: PowerOption,
    powerOffOption: PowerOption,
    fluxSensorProgrammable: bool,
    readWriteAccessFollowingExit: bool,
    writeMode: ModeRecord,
    chipPower: ModeRecord,
    memoryChipProtocols: seq<bool>,
    positions: seq<bool>,
    cardTakenSensor: bool)

  /** The six named types keep their name; anything else is reported as Swipe. */
  function WireDeviceType(t: DeviceType): (r: DeviceType)
    ensures !r.OtherType?
    ensures r == Swipe <==> t == Swipe || t.OtherType?
    ensures !t.OtherType? ==> r == t
  {
    match t
    case Contactless => Contactless
    case Dip => Dip
    case IntelligentContactless => IntelligentContactless
    case LatchedDip => LatchedDip
    case Motor => Motor
    case Permanent => Permanent
    case _ => Swipe
  }

  /** Cim86 and Mm keep their name; anything else is reported as NotSupported. */
  function WireSecurityType(t: SecurityType): (r: SecurityType)
    ensures !r.OtherSecurity?
    ensures r == NotSupported <==> !(t == Cim86 || t == Mm)
    ensures t == Cim86 || t == Mm ==> r == t
  {
    match t
    case Cim86 => Cim86
    case Mm => Mm
    case _ => NotSupported
  }

  /** The four named options keep their name; anything else is reported as NotSupported. */
  function WirePowerOption(o: PowerOption): (r: PowerOption)
    ensures !r.OtherPower?
    ensures r == NoPowerOption <==> o == NoPowerOption || o.OtherPower?
    ensures !(o == NoPowerOption || o.OtherPower?) ==> r == o
  {
    match o
    case Exit => Exit
    case ExitThenRetain => ExitThenRetain
    case Retain => Retain
    case Transport => Transport
    case _ => NoPowerOption
  }

  /** notSupported is the comparison with the zero value; the other booleans are HasFlag. */
  function Mode<F(==)>(order: seq<F>, flags: set<F>): (r: ModeRecord)
    ensures r.notSupported <==> flags == {}
    ensures r.flags == FlagBits(order, flags)
  {
    ModeRecord(flags == {}, FlagBits(order, flags))
  }

  function CardReaderRecordOf(c: CardReaderCaps): (r: CardReaderRecord)
    ensures r.deviceType == WireDeviceType(c.deviceType)
    ensures r.securityType == WireSecurityType(c.securityType)
    ensures r.powerOnOption == WirePowerOption(c.powerOnOption) && r.powerOffOption == WirePowerOption(c.powerOffOption)
    ensures r.readTracks == FlagBits(ReadTrackOrder, c.readTracks) && r.writeTracks == FlagBits(WriteTrackOrder, c.writeTracks)
    ensures r.chipProtocols == FlagBits(ChipProtocolOrder, c.chipProtocols)
    ensures r.memoryChipProtocols == FlagBits(MemoryChipOrder, c.memoryChipProtocols)
    ensures r.positions == FlagBits(CardPositionOrder, c.positions)
    ensures r.writeMode == Mode(WriteMethodOrder, c.writeMode) && r.chipPower == Mode(ChipPowerOrder, c.chipPower)
    ensures r.fluxSensorProgrammable == c.fluxSensorProgrammable && r.readWriteAccessFollowingExit == c.readWriteAccessFollowingExit
    ensures r.cardTakenSensor == c.cardTakenSensor
  {
    CardReaderRecord(
      WireDeviceType(c.deviceType),
      FlagBits(ReadTrackOrder, c.readTracks),
      FlagBits(WriteTrackOrder, c.writeTracks),
      FlagBits(ChipProtocolOrder, c.chipProtocols),
      WireSecurityType(c.securityType),
      WirePowerOption(c.powerOnOption),
      WirePowerOption(c.powerOffOption),
      c.fluxSensorProgrammable,
      c.readWriteAccessFollowingExit,
      Mode(WriteMethodOrder, c.writeMode),
      Mode(ChipPowerOrder, c.chipPower),
      FlagBits(MemoryChipOrder, c.memoryChipProtocols),
      FlagBits(CardPositionOrder, c.positions),
      c.cardTakenSensor)
  }

  /** Every flag of each enum has a boolean in its record. */
  lemma OrdersNameEveryFlag()
    ensures forall f: ReadTrack :: f in ReadTrackOrder
    ensures forall f: WriteTrack :: f in WriteTrackOrder
    ensures forall f: ChipProtocol :: f in ChipProtocolOrder
    ensures forall f: WriteMethod :: f in WriteMethodOrder
    ensures forall f: ChipPowerOption :: f in ChipPowerOrder
    ensures forall f: MemoryChipProtocol :: f in MemoryChipOrder
    ensures forall f: CardPosition :: f in CardPositionOrder
  {
    forall f: ReadTrack ensures f in ReadTrackOrder {
      match f
      case Track1 => assert ReadTrackOrder[0] == f;
      case Track2 => assert ReadTrackOrder[1] == f;
      case Track3 => assert ReadTrackOrder[2] == f;
      case Watermark => assert ReadTrackOrder[3] == f;
      case Track1Front => assert ReadTrackOrder[4] == f;
      case FrontImage => assert ReadTrackOrder[5] == f;
      case BackImage => assert ReadTrackOrder[6] == f;
      case Track1JIS => assert ReadTrackOrder[7] == f;
      case Track3JIS => assert ReadTrackOrder[8] == f;
      case Ddi => assert ReadTrackOrder[9] == f;
    }
    forall f: WriteTrack ensures f in WriteTrackOrder {
      match f
      case WTrack1 => assert WriteTrackOrder[0] == f;
      case WTrack2 => assert WriteTrackOrder[1] == f;
      case WTrack3 => assert WriteTrackOrder[2] == f;
      case WTrack1Front => assert WriteTrackOrder[3] == f;
      case WTrack1JIS => assert WriteTrackOrder[4] == f;
      case WTrack3JIS => assert WriteTrackOrder[5] == f;
    }
    forall f: ChipProtocol ensures f in ChipProtocolOrder {
      match f
      case T0 => assert ChipProtocolOrder[0] == f;
      case T1 => assert ChipProtocolOrder[1] == f;
      case NotRequired => assert ChipProtocolOrder[2] == f;
      case TypeAPart3 => assert ChipProtocolOrder[3] == f;
      case TypeAPart4 => assert ChipProtocolOrder[4] == f;
      case TypeB => assert ChipProtocolOrder[5] == f;
      case TypeNFC => assert ChipProtocolOrder[6] == f;
    }
    forall f: WriteMethod ensures f in WriteMethodOrder {
      match f
      case Loco => assert WriteMethodOrder[0] == f;
      case Hico => assert WriteMethodOrder[1] == f;
      case Auto => assert WriteMethodOrder[2] == f;
    }
    forall f: ChipPowerOption ensures f in ChipPowerOrder {
      match f
      case Cold => assert ChipPowerOrder[0] == f;
      case Warm => assert ChipPowerOrder[1] == f;
      case Off => assert ChipPowerOrder[2] == f;
    }
    forall f: MemoryChipProtocol ensures f in MemoryChipOrder {
      match f
      case Siemens4442 => assert MemoryChipOrder[0] == f;
      case Gpm896 => assert MemoryChipOrder[1] == f;
    }
    forall f: CardPosition ensures f in CardPositionOrder {
      match f
      case PositionExit => assert CardPositionOrder[0] == f;
      case PositionTransport => assert CardPositionOrder[1] == f;
    }
  }

  /**
   * The write-mode and chip-power records say "not supported" exactly when
   * none of their flag booleans is set, so the two never disagree.
   */
  lemma NotSupportedIffNoFlag(c: CardReaderCaps)
    ensures CardReaderRecordOf(c).writeMode.notSupported <==>
            forall i :: 0 <= i < |WriteMethodOrder| ==> !CardReaderRecordOf(c).writeMode.flags[i]
    ensures CardReaderRecordOf(c).chipPower.notSupported <==>
            forall i :: 0 <= i < |ChipPowerOrder| ==> !CardReaderRecordOf(c).chipPower.flags[i]
  {
    OrdersNameEveryFlag();
    NoFlagsNoBits(WriteMethodOrder, c.writeMode);
    NoFlagsNoBits(ChipPowerOrder, c.chipPower);
  }

  /** Each track and chip record names every flag of its enum, so no reported flag is lost. */
  lemma CardReaderFlagsRoundTrip(c: CardReaderCaps)
    ensures FlagsOf(ReadTrackOrder, CardReaderRecordOf(c).readTracks) == c.readTracks
    ensures FlagsOf(WriteTrackOrder, CardReaderRecordOf(c).writeTracks) == c.writeTracks
    ensures FlagsOf(ChipProtocolOrder, CardReaderRecordOf(c).chipProtocols) == c.chipProtocols
    ensures FlagsOf(MemoryChipOrder, CardReaderRecordOf(c).memoryChipProtocols) == c.memoryChipProtocols
    ensures FlagsOf(CardPositionOrder, CardReaderRecordOf(c).positions) == c.positions
  {
    OrdersNameEveryFlag();
    FlagBitsComplete(ReadTrackOrder, c.readTracks);
    FlagBitsComplete(WriteTrackOrder, c.writeTracks);
    FlagBitsComplete(ChipProtocolOrder, c.chipProtocols);
    FlagBitsComplete(MemoryChipOrder, c.memoryChipProtocols);
    FlagBitsComplete(CardPositionOrder, c.positions);
  }
}
