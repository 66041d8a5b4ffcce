/**
 * The text terminal and lights parts of the Common.Capabilities completion.
 */
module TerminalCapabilities {
  import opened Wrappers
  import opened CapabilityLists

  datatype TerminalType = Fixed | Removable | OtherType(code: int)

  datatype Resolution = Resolution(width: int, height: int)

  datatype TerminalCaps = TerminalCaps(
    terminalType: TerminalType,
    resolutions: Option<seq<Resolution>>,
    keyLock: bool,
    cursor: bool,
    forms: bool)

  datatype TerminalRecord = TerminalRecord(
    terminalType: TerminalType,
    resolutions: Option<seq<Resolution>>,
    keyLock: bool,
    cursor: bool,
    forms: bool)

  /** Fixed keeps its name; anything else is reported as Removable. */
  function WireTerminalType(t: TerminalType): (r: TerminalType)
    ensures r == Fixed <==> t == Fixed
    ensures r != Fixed ==> r == Removable
  {
    if t == Fixed then Fixed else Removable
  }

  /** The record the completion carries for the device's text terminal capabilities. */
  function TerminalRecordOf(c: TerminalCaps): (r: TerminalRecord)
    ensures r.terminalType == WireTerminalType(c.terminalType)
    ensures r.resolutions == NullIfEmpty(c.resolutions)
    ensures r.keyLock == c.keyLock && r.cursor == c.cursor && r.forms == c.forms
  {
    TerminalRecord(WireTerminalType(c.terminalType), NullIfEmpty(c.resolutions), c.keyLock, c.cursor, c.forms)
  }

  /** The text terminal block of HandleCapabilities, with its resolutions loop. */
  method BuildTerminalRecord(c: TerminalCaps) returns (r: TerminalRecord)
    ensures r == TerminalRecordOf(c)
  {
    var resolutions := CopyNonEmpty(c.resolutions);
    var t := if c.terminalType == Fixed then Fixed else Removable;
    r := TerminalRecord(t, resolutions, c.keyLock, c.cursor, c.forms);
  }
}

module LightsCapabilities {
  import opened Wrappers
  import opened CapabilityFlags

  /** LightsCapabilitiesClass.DeviceEnum; OtherDevice is a value without a named slot. */
  datatype LightDevice =
    | CardReader | PinPad | NotesDispenser | CoinDispenser | ReceiptPrinter | PassbookPrinter
    | EnvelopeDepository | ChequeUnit | BillAcceptor | EnvelopeDispenser | DocumentPrinter | CoinAcceptor
    | Scanner | CardUnit2 | NotesDispenser2 | BillAcceptor2 | StatusGoodIndicator | StatusWarningIndicator
    | StatusBadIndicator | FasciaLight | OtherDevice(code: int)

  /** The named slots of the wire record, in its constructor's order. */
  const DeviceSlots: seq<LightDevice> :=
    [CardReader, PinPad, NotesDispenser, CoinDispenser, ReceiptPrinter, PassbookPrinter,
     EnvelopeDepository, ChequeUnit, BillAcceptor, EnvelopeDispenser, DocumentPrinter, CoinAcceptor,
     Scanner, CardUnit2, NotesDispenser2, BillAcceptor2, StatusGoodIndicator, StatusWarningIndicator,
     StatusBadIndicator, FasciaLight]

  datatype FlashRate = Off | Slow | Medium | Quick | Continuous
  datatype Color = Red | Green | Yellow | Blue | Cyan | Magenta | White
  datatype Direction = Entry | Exit
  datatype LightPosition = Left | Right | Center | Top | Bottom | Front | Rear

  const FlashRateOrder: seq<FlashRate> := [Off, Slow, Medium, Quick, Continuous]
  const ColorOrder: seq<Color> := [Red, Green, Yellow, Blue, Cyan, Magenta, White]
  const DirectionOrder: seq<Direction> := [Entry, Exit]
  const LightPositionOrder: seq<LightPosition> := [Left, Right, Center, Top, Bottom, Front, Rear]

  datatype LightCaps = LightCaps(flashRate: set<FlashRate>, color: set<Color>, direction: set<Direction>, position: set<LightPosition>)
  datatype LightRecord = LightRecord(flashRate: seq<bool>, color: seq<bool>, direction: seq<bool>, position: seq<bool>)

  datatype LightsCaps = LightsCaps(lights: Option<map<LightDevice, LightCaps>>, customLights: Option<map<string, LightCaps>>)

  /** The wire record: one optional entry per named slot, and the custom lights as extended properties. */
  datatype LightsRecord = LightsRecord(slots: seq<Option<LightRecord>>, extended: Option<map<string, LightRecord>>)

  /** One light's record: a boolean per flag of each of its four enums. */
  function LightRecordOf(c: LightCaps): LightRecord
  {
    LightRecord(FlagBits(FlashRateOrder, c.flashRate), FlagBits(ColorOrder, c.color),
                FlagBits(DirectionOrder, c.direction), FlagBits(LightPositionOrder, c.position))
  }

  /** Every flag of each light enum has a boolean in its record. */
  lemma LightOrdersNameEveryFlag()
    ensures forall f: FlashRate :: f in FlashRateOrder
    ensures forall f: Color :: f in ColorOrder
    ensures forall f: Direction :: f in DirectionOrder
    ensures forall f: LightPosition :: f in LightPositionOrder
  {
    forall f: FlashRate ensures f in FlashRateOrder {
      match f
      case Off => assert FlashRateOrder[0] == f;
      case Slow => assert FlashRateOrder[1] == f;
      case Medium => assert FlashRateOrder[2] == f;
      case Quick => assert FlashRateOrder[3] == f;
      case Continuous => assert FlashRateOrder[4] == f;
    }
    forall f: Color ensures f in ColorOrder {
      match f
      case Red => assert ColorOrder[0] == f;
      case Green => assert ColorOrder[1] == f;
      case Yellow => assert ColorOrder[2] == f;
      case Blue => assert ColorOrder[3] == f;
      case Cyan => assert ColorOrder[4] == f;
      case Magenta => assert ColorOrder[5] == f;
      case White => assert ColorOrder[6] == f;
    }
    forall f: Direction ensures f in DirectionOrder {
      match f
      case Entry => assert DirectionOrder[0] == f;
      case Exit => assert DirectionOrder[1] == f;
    }
    forall f: LightPosition ensures f in LightPositionOrder {
      match f
      case Left => assert LightPositionOrder[0] == f;
      case Right => assert LightPositionOrder[1] == f;
      case Center => assert LightPositionOrder[2] == f;
      case Top => assert LightPositionOrder[3] == f;
      case Bottom => assert LightPositionOrder[4] == f;
      case Front => assert LightPositionOrder[5] == f;
      case Rear => assert LightPositionOrder[6] == f;
    }
  }

  /** A light's record loses none of its reported flags. */
  lemma LightFlagsRoundTrip(c: LightCaps)
    ensures FlagsOf(FlashRateOrder, LightRecordOf(c).flashRate) == c.flashRate
    ensures FlagsOf(ColorOrder, LightRecordOf(c).color) == c.color
    ensures FlagsOf(DirectionOrder, LightRecordOf(c).direction) == c.direction
    ensures FlagsOf(LightPositionOrder, LightRecordOf(c).position) == c.position
  {
    LightOrdersNameEveryFlag();
    var r := LightRecordOf(c);
    assert FlagsOf(FlashRateOrder, r.flashRate) == c.flashRate by {
      FlagBitsComplete(FlashRateOrder, c.flashRate);
    }
    assert FlagsOf(ColorOrder, r.color) == c.color by {
      FlagBitsComplete(ColorOrder, c.color);
    }
    assert FlagsOf(DirectionOrder, r.direction) == c.direction by {
      FlagBitsComplete(DirectionOrder, c.direction);
    }
    assert FlagsOf(LightPositionOrder, r.position) == c.position by {
      FlagBitsComplete(LightPositionOrder, c.position);
    }
  }

  /** A light map translated entry by entry: same keys, each value its record. */
  function Translated<K>(m: map<K, LightCaps>): (r: map<K, LightRecord>)
    ensures r.Keys == m.Keys && forall k :: k in r ==> r[k] == LightRecordOf(m[k])
    ensures |r| == |m|
  {
    var r := map k | k in m :: LightRecordOf(m[k]);
    assert r.Keys == m.Keys;
    assert |r| == |r.Keys| == |m.Keys| == |m|;
    r
  }

  /** The dictionary built from a reported light map: null unless the map has entries. */
  function LightMap<K>(m: Option<map<K, LightCaps>>): Option<map<K, LightRecord>>
  {
    if m.Some? && |m.value| > 0 then Some(Translated(m.value)) else None
  }

  /** The foreach loop that fills one light dictionary. */
  method BuildLightMap<K>(m: map<K, LightCaps>) returns (r: map<K, LightRecord>)
    ensures r == Translated(m)
  {
    r := map[];
    var remaining := m.Keys;
    while remaining != {}
      invariant remaining <= m.Keys
      invariant r.Keys == m.Keys - remaining
      invariant forall k :: k in r ==> r[k] == LightRecordOf(m[k])
      decreases remaining
    {
      var k :| k in remaining;
      r := r[k := LightRecordOf(m[k])];
      remaining := remaining - {k};
    }
    TranslatedIsUnique(m, r);
  }

  /** A map with the keys of `m` and each value the record of its entry is the translated map. */
  lemma TranslatedIsUnique<K>(m: map<K, LightCaps>, r: map<K, LightRecord>)
    requires r.Keys == m.Keys
    requires forall k :: k in r ==> r[k] == LightRecordOf(m[k])
    ensures r == Translated(m)
  {
    var t := Translated(m);
    assert forall k :: k in r ==> k in t && r[k] == t[k];
  }

  /** The record's named slots: each holds the dictionary entry of its device, if there is one. */
  function Slots(std: map<LightDevice, LightRecord>): (r: seq<Option<LightRecord>>)
    ensures |r| == |DeviceSlots|
    ensures forall i :: 0 <= i < |DeviceSlots| ==> (r[i].Some? <==> DeviceSlots[i] in std)
    ensures forall i :: 0 <= i < |DeviceSlots| && r[i].Some? ==> r[i].value == std[DeviceSlots[i]]
  {
    seq(|DeviceSlots|, i requires 0 <= i < |DeviceSlots| => if DeviceSlots[i] in std then Some(std[DeviceSlots[i]]) else None)
  }

  /** The lights object of a completion, from the two dictionaries. */
  function LightsOf(std: Option<map<LightDevice, LightRecord>>, custom: Option<map<string, LightRecord>>): (r: Option<LightsRecord>)
    ensures r.Some? <==> (std.Some? && |std.value| > 0) || (custom.Some? && |custom.value| > 0)
    ensures r.Some? ==> |r.value.slots| == |DeviceSlots|
    ensures r.Some? ==> r.value.extended == if custom.Some? && |custom.value| > 0 then custom else None
    ensures r.Some? && !(std.Some? && |std.value| > 0) ==> forall i :: 0 <= i < |r.value.slots| ==> r.value.slots[i].None?
    ensures r.Some? && std.Some? && |std.value| > 0 ==> r.value.slots == Slots(std.value)
  {
    var lights := if std.Some? && |std.value| > 0 then Some(LightsRecord(Slots(std.value), None)) else None;
    if custom.Some? && |custom.value| > 0 then
      var base := if lights.None? then LightsRecord(seq(|DeviceSlots|, i => None), None) else lights.value;
      Some(base.(extended := custom))
    else lights
  }

  /** The lights part of HandleCapabilities. */
  function LightsRecordOf(c: Option<LightsCaps>): Option<LightsRecord>
  {
    var std := if c.Some? then LightMap(c.value.lights) else None;
    var custom := if c.Some? then LightMap(c.value.customLights) else None;
    LightsOf(std, custom)
  }

  /** The lights part of HandleCapabilities, with its two dictionary loops. */
  method BuildLights(c: Option<LightsCaps>) returns (r: Option<LightsRecord>)
    ensures r == LightsRecordOf(c)
  {
    var std: Option<map<LightDevice, LightRecord>> := None;
    var custom: Option<map<string, LightRecord>> := None;
    if c.Some? && c.value.lights.Some? && |c.value.lights.value| > 0 {
      var m := BuildLightMap(c.value.lights.value);
      std := Some(m);
    }
    if c.Some? && c.value.customLights.Some? && |c.value.customLights.value| > 0 {
      var m := BuildLightMap(c.value.customLights.value);
      custom := Some(m);
    }
    r := None;
    if std.Some? && |std.value| > 0 {
      r := Some(LightsRecord(Slots(std.value), None));
    }
    if custom.Some? && |custom.value| > 0 {
      if r.None? {
        r := Some(LightsRecord(seq(|DeviceSlots|, i => None), None));
      }
      r := Some(r.value.(extended := custom));
    }
  }

  predicate HasStandardLights(c: Option<LightsCaps>)
  {
    c.Some? && c.value.lights.Some? && |c.value.lights.value| > 0
  }

  predicate HasCustomLights(c: Option<LightsCaps>)
  {
    c.Some? && c.value.customLights.Some? && |c.value.customLights.value| > 0
  }

  /**
   * The lights object is sent exactly when standard or custom lights are
   * reported; the custom lights become its extended properties; without
   * standard lights every named slot is empty, and with them the slots are
   * filled from the translated standard lights (each slot holding its
   * device's record, by the contract of Slots).
   */
  lemma LightsPresence(c: Option<LightsCaps>)
    ensures LightsRecordOf(c).Some? <==> HasStandardLights(c) || HasCustomLights(c)
    ensures LightsRecordOf(c).Some? ==>
              var r := LightsRecordOf(c).value;
              |r.slots| == |DeviceSlots|
              && (r.extended.Some? <==> HasCustomLights(c))
              && (r.extended.Some? ==> r.extended.value == Translated(c.value.customLights.value))
              && (!HasStandardLights(c) ==> forall i :: 0 <= i < |r.slots| ==> r.slots[i].None?)
              && (HasStandardLights(c) ==> r.slots == Slots(Translated(c.value.lights.value)))
  {
    var std := if c.Some? then LightMap(c.value.lights) else None;
    var custom := if c.Some? then LightMap(c.value.customLights) else None;
    assert LightsRecordOf(c) == LightsOf(std, custom);
    if HasStandardLights(c) {
      assert std == Some(Translated(c.value.lights.value)) && |std.value| > 0;
    } else {
      assert std == None;
    }
    if HasCustomLights(c) {
      assert custom == Some(Translated(c.value.customLights.value)) && |custom.value| > 0;
    } else {
      assert custom == None;
    }
  }

  /** Every named slot is a named device. */
  lemma SlotsAreNamed()
    ensures forall i :: 0 <= i < |DeviceSlots| ==> !DeviceSlots[i].OtherDevice?
  {
  }

  /** A light of a device without a named slot is dropped: it reaches no slot and no extended property. */
  lemma UnnamedDeviceIsDropped(code: int, light: LightCaps)
    ensures var r := LightsRecordOf(Some(LightsCaps(Some(map[OtherDevice(code) := light]), None)));
            r.Some? && r.value.extended.None? && forall i :: 0 <= i < |r.value.slots| ==> r.value.slots[i].None?
  {
    var m := map[OtherDevice(code) := light];
    var c := Some(LightsCaps(Some(m), None));
    var t := Translated(m);
    assert t.Keys == {OtherDevice(code)};
    assert |m| == 1;
    LightsPresence(c);
    var r := LightsRecordOf(c).value;
    assert r.slots == Slots(t);
    SlotsAreNamed();
    forall i | 0 <= i < |r.slots| ensures r.slots[i].None? {
      assert DeviceSlots[i] !in t;
    }
  }
}
