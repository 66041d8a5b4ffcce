/**
 * Status-changed payloads for the cash-management, cash-acceptor and
 * cash-dispenser status classes, and for a cash position status, which
 * expands its position bitmap into one entry per position.
 */
module CashStatusEvents {
  import opened Wrappers
  import opened StatusFields
  import opened CashPositions

  // ---- CashManagement ----

  /** The dispenser and acceptor states; an unlisted value is sent as null, not refused. */
  datatype UnitState = Ok | Unknown | Attention | Stop | Other(code: int)

  datatype CashManagementPayload = CashManagementPayload(dispenser: Option<UnitState>, acceptor: Option<UnitState>)

  function CashManagementEvent(dispenser: UnitState, acceptor: UnitState, prop: string): (r: CashManagementPayload)
    ensures r.dispenser.Some? <==> prop == "Dispenser" && !dispenser.Other?
    ensures r.acceptor.Some? <==> prop == "Acceptor" && !acceptor.Other?
    ensures r.dispenser.Some? ==> r.dispenser.value == dispenser
    ensures r.acceptor.Some? ==> r.acceptor.value == acceptor
  {
    CashManagementPayload(Pass(prop, "Dispenser", if dispenser.Other? then None else Some(dispenser)),
                          Pass(prop, "Acceptor", if acceptor.Other? then None else Some(acceptor)))
  }

  // ---- CashAcceptor ----

  datatype AcceptorStackerState = Full | Empty | NotEmpty | Unknown | NotSupported | Other(code: int)
  {
    function Check(): Verdict { if Other? then Reject else if NotSupported? then Drop else Keep }
  }

  datatype StackerItemsState = AccessUnknown | NoCustomerAccess | CustomerAccess | NoItems | NotSupported | Other(code: int)
  {
    function Check(): Verdict { if Other? then Reject else if NotSupported? then Drop else Keep }
  }

  datatype BanknoteReaderState = Ok | Inoperable | Unknown | NotSupported | Other(code: int)
  {
    function Check(): Verdict { if Other? then Reject else if NotSupported? then Drop else Keep }
  }

  datatype CashAcceptorStatus = CashAcceptorStatus(
    intermediateStacker: AcceptorStackerState,
    stackerItems: StackerItemsState,
    banknoteReader: BanknoteReaderState,
    dropBox: bool)

  datatype CashAcceptorPayload = CashAcceptorPayload(
    intermediateStacker: Option<AcceptorStackerState>,
    stackerItems: Option<StackerItemsState>,
    banknoteReader: Option<BanknoteReaderState>,
    dropBox: Option<bool>)
  {
    function Populated(): set<string>
    {
      (if intermediateStacker.Some? then {"IntermediateStacker"} else {})
      + (if stackerItems.Some? then {"StackerItems"} else {})
      + (if banknoteReader.Some? then {"BanknoteReader"} else {})
      + (if dropBox.Some? then {"DropBox"} else {})
    }
  }

  function CashAcceptorEvent(s: CashAcceptorStatus, prop: string): (r: Result<CashAcceptorPayload>)
    ensures r.Success? ==> r.value.Populated() <= {prop}
    ensures r.Failure? <==> (prop == "IntermediateStacker" && s.intermediateStacker.Other?)
                            || (prop == "StackerItems" && s.stackerItems.Other?)
                            || (prop == "BanknoteReader" && s.banknoteReader.Other?)
    ensures r.Success? ==> (r.value.intermediateStacker.Some? <==> prop == "IntermediateStacker" && !s.intermediateStacker.NotSupported?)
    ensures r.Success? ==> (r.value.stackerItems.Some? <==> prop == "StackerItems" && !s.stackerItems.NotSupported?)
    ensures r.Success? ==> (r.value.banknoteReader.Some? <==> prop == "BanknoteReader" && !s.banknoteReader.NotSupported?)
    ensures r.Success? ==> (r.value.intermediateStacker.Some? ==> r.value.intermediateStacker.value == s.intermediateStacker)
                           && (r.value.stackerItems.Some? ==> r.value.stackerItems.value == s.stackerItems)
                           && (r.value.banknoteReader.Some? ==> r.value.banknoteReader.value == s.banknoteReader)
    ensures r.Success? ==> r.value.dropBox == (if prop == "DropBox" then Some(s.dropBox) else None)
  {
    var intermediateStacker :- Field(prop, "IntermediateStacker", s.intermediateStacker, s.intermediateStacker.Check());
    var stackerItems :- Field(prop, "StackerItems", s.stackerItems, s.stackerItems.Check());
    var banknoteReader :- Field(prop, "BanknoteReader", s.banknoteReader, s.banknoteReader.Check());
    Success(CashAcceptorPayload(intermediateStacker, stackerItems, banknoteReader, Pass(prop, "DropBox", Some(s.dropBox))))
  }

  // ---- CashDispenser ----

  datatype DispenserStackerState =
    | NotEmptyUnknown | NotEmptyCustomer | Empty | NotEmpty | Unknown | NotSupported | Other(code: int)
  {
    function Check(): Verdict { if Other? then Reject else if NotSupported? then Drop else Keep }
  }

  /** The cash-dispenser payload holds the intermediate stacker only. */
  function CashDispenserEvent(intermediateStacker: DispenserStackerState, prop: string): (r: Result<Option<DispenserStackerState>>)
    ensures r.Success? && r.value.Some? <==> prop == "IntermediateStacker" && intermediateStacker.Check() == Keep
    ensures r.Success? && r.value.Some? ==> r.value.value == intermediateStacker
    ensures r.Failure? <==> prop == "IntermediateStacker" && intermediateStacker.Other?
  {
    Field(prop, "IntermediateStacker", intermediateStacker, intermediateStacker.Check())
  }

  // ---- Positions ----

  datatype ShutterState =
    | Open | Closed | JammedClosed | JammedPartiallyOpen | JammedUnknown | Unknown | NotSupported | Other(code: int)
  {
    function Check(): Verdict { if Other? then Reject else if NotSupported? then Drop else Keep }
  }

  datatype PositionStatusState = Empty | NotEmpty | Unknown | NotSupported | Other(code: int)
  {
    function Check(): Verdict { if Other? then Reject else if NotSupported? then Drop else Keep }
  }

  datatype TransportState = Ok | Inoperative | Unknown | NotSupported | Other(code: int)
  {
    function Check(): Verdict { if Other? then Reject else if NotSupported? then Drop else Keep }
  }

  datatype TransportStatusState = Empty | NotEmpty | NotEmptyCustomer | Unknown | NotSupported | Other(code: int)
  {
    function Check(): Verdict { if Other? then Reject else if NotSupported? then Drop else Keep }
  }

  /**
   * CashManagementStatusClass.PositionStatusClass: a position of the
   * dispenser, of the acceptor, or of both, as flag bitmaps, and its statuses.
   */
  datatype PositionStatus = PositionStatus(
    cashDispenserPosition: Option<set<OutputPosition>>,
    cashAcceptorPosition: Option<set<Position>>,
    shutter: ShutterState,
    positionStatus: PositionStatusState,
    transport: TransportState,
    transportStatus: TransportStatusState)

  /** The statuses every entry of the position list carries. */
  datatype PositionFields = PositionFields(
    shutter: Option<ShutterState>,
    positionStatus: Option<PositionStatusState>,
    transport: Option<TransportState>,
    transportStatus: Option<TransportStatusState>)
  {
    function Populated(): set<string>
    {
      (if shutter.Some? then {"Shutter"} else {})
      + (if positionStatus.Some? then {"PositionStatus"} else {})
      + (if transport.Some? then {"Transport"} else {})
      + (if transportStatus.Some? then {"TransportStatus"} else {})
    }
  }

  /** The four statuses, as the dispenser and the acceptor branch each translate them. */
  function PositionFieldsEvent(s: PositionStatus, prop: string): (r: Result<PositionFields>)
    ensures r.Success? ==> r.value.Populated() <= {prop}
    ensures r.Success? ==> (r.value.shutter.Some? <==> prop == "Shutter" && !s.shutter.NotSupported?)
                           && (r.value.positionStatus.Some? <==> prop == "PositionStatus" && !s.positionStatus.NotSupported?)
                           && (r.value.transport.Some? <==> prop == "Transport" && !s.transport.NotSupported?)
                           && (r.value.transportStatus.Some? <==> prop == "TransportStatus" && !s.transportStatus.NotSupported?)
    ensures r.Failure? <==> (prop == "Shutter" && s.shutter.Other?)
                            || (prop == "PositionStatus" && s.positionStatus.Other?)
                            || (prop == "Transport" && s.transport.Other?)
                            || (prop == "TransportStatus" && s.transportStatus.Other?)
    ensures r.Success? ==> (r.value.shutter.Some? ==> r.value.shutter.value == s.shutter)
                           && (r.value.positionStatus.Some? ==> r.value.positionStatus.value == s.positionStatus)
                           && (r.value.transport.Some? ==> r.value.transport.value == s.transport)
                           && (r.value.transportStatus.Some? ==> r.value.transportStatus.value == s.transportStatus)
  {
    var shutter :- Field(prop, "Shutter", s.shutter, s.shutter.Check());
    var positionStatus :- Field(prop, "PositionStatus", s.positionStatus, s.positionStatus.Check());
    var transport :- Field(prop, "Transport", s.transport, s.transport.Check());
    var transportStatus :- Field(prop, "TransportStatus", s.transportStatus, s.transportStatus.Check());
    Success(PositionFields(shutter, positionStatus, transport, transportStatus))
  }

  datatype DispenserEntry = DispenserEntry(position: WireOutputPosition, fields: PositionFields)

  /** The acceptor's wire PositionEnum names its values as the internal one does. */
  datatype AcceptorEntry = AcceptorEntry(position: Position, fields: PositionFields)

  /**
   * The acceptor's position translation: every position keeps its name except
   * OutDefault, which is reported as InBottom.
   */
  function AcceptorWirePosition(p: Position): (w: Position)
  {
    if p == Position.OutDefault then InBottom else p
  }

  /**
   * The dispenser's position list: one entry per flag set, in enumeration
   * order, all with the same statuses. No flag leaves the list null, and the
   * loop over it then dereferences null.
   */
  function DispenserEntries(flags: set<OutputPosition>, fields: PositionFields): (r: Result<seq<DispenserEntry>>)
    ensures r.Failure? <==> flags == {}
    ensures r.Failure? ==> r.error == NullReferenceFault
    ensures r.Success? ==> |r.value| == |flags| && forall e :: e in r.value ==> e.fields == fields
  {
    var ps := Selected(OutputPositionOrder, flags);
    OutputSelection(flags);
    if ps == [] then Failure(NullReferenceFault)
    else Success(seq(|ps|, k requires 0 <= k < |ps| => DispenserEntry(WireOutput(ps[k]), fields)))
  }

  /** Where an element sits in a sequence that holds it. */
  function OrderIndex<T(==)>(s: seq<T>, x: T): (i: nat)
    requires x in s
    ensures i < |s| && s[i] == x
  {
    if s[0] == x then 0 else 1 + OrderIndex(s[1..], x)
  }

  /**
   * The acceptor's position list, likewise: one entry per flag set, each
   * position reported through AcceptorWirePosition.
   */
  function AcceptorEntries(flags: set<Position>, fields: PositionFields): (r: Result<seq<AcceptorEntry>>)
    ensures r.Failure? <==> flags == {}
    ensures r.Failure? ==> r.error == NullReferenceFault
    ensures r.Success? ==> |r.value| == |flags| && forall e :: e in r.value ==> e.fields == fields
  {
    var ps := Selected(PositionOrder, flags);
    PositionSelection(flags);
    if ps == [] then Failure(NullReferenceFault)
    else Success(seq(|ps|, k requires 0 <= k < |ps| => AcceptorEntry(AcceptorWirePosition(ps[k]), fields)))
  }

  /** The acceptor list in order: its k-th entry reports the k-th flag in enumeration order. */
  lemma AcceptorEntriesInOrder(flags: set<Position>, fields: PositionFields)
    requires flags != {}
    ensures forall k :: 0 <= k < |AcceptorEntries(flags, fields).value| ==>
              AcceptorEntries(flags, fields).value[k].position == AcceptorWirePosition(Selected(PositionOrder, flags)[k])
  {
  }

  /** The dispenser list in order: its k-th entry reports the k-th flag in enumeration order. */
  lemma DispenserEntriesInOrder(flags: set<OutputPosition>, fields: PositionFields)
    requires flags != {}
    ensures forall k :: 0 <= k < |DispenserEntries(flags, fields).value| ==>
              DispenserEntries(flags, fields).value[k].position == WireOutput(Selected(OutputPositionOrder, flags)[k])
  {
  }

  /** Every flag set, and only those, has an entry in the dispenser's list. */
  lemma DispenserEntriesCoverFlags(flags: set<OutputPosition>, fields: PositionFields)
    requires flags != {}
    ensures forall p :: p in flags <==>
              exists k :: 0 <= k < |DispenserEntries(flags, fields).value| && DispenserEntries(flags, fields).value[k].position == WireOutput(p)
  {
    var es := DispenserEntries(flags, fields).value;
    var ps := Selected(OutputPositionOrder, flags);
    OutputSelection(flags);
    forall p | p in flags ensures exists k :: 0 <= k < |es| && es[k].position == WireOutput(p) {
      var k := OrderIndex(ps, p);
      assert es[k].position == WireOutput(p);
    }
    forall p | exists k :: 0 <= k < |es| && es[k].position == WireOutput(p) ensures p in flags {
      var k :| 0 <= k < |es| && es[k].position == WireOutput(p);
      WireOutputRoundTrip(p);
      WireOutputRoundTrip(ps[k]);
    }
  }

  /** Every flag set has an entry in the acceptor's list, under its reported name. */
  lemma AcceptorEntriesCoverFlags(flags: set<Position>, fields: PositionFields)
    requires flags != {}
    ensures forall p :: p in flags ==>
              exists k :: 0 <= k < |AcceptorEntries(flags, fields).value| && AcceptorEntries(flags, fields).value[k].position == AcceptorWirePosition(p)
  {
    var es := AcceptorEntries(flags, fields).value;
    var ps := Selected(PositionOrder, flags);
    PositionSelection(flags);
    forall p | p in flags ensures exists k :: 0 <= k < |es| && es[k].position == AcceptorWirePosition(p) {
      var k := OrderIndex(ps, p);
      assert es[k].position == AcceptorWirePosition(p);
    }
  }

  /**
   * OutDefault and InBottom are reported alike, so a bitmap holding both
   * yields two InBottom entries and no OutDefault one.
   */
  lemma OutDefaultReportedAsInBottom(fields: PositionFields)
    ensures AcceptorWirePosition(Position.OutDefault) == AcceptorWirePosition(InBottom) == InBottom
    ensures AcceptorEntries({InBottom, Position.OutDefault}, fields)
            == Success([AcceptorEntry(InBottom, fields), AcceptorEntry(InBottom, fields)])
    ensures forall p :: AcceptorWirePosition(p) != Position.OutDefault
  {
    var flags := {InBottom, Position.OutDefault};
    PositionSelection(flags);
    var ps := Selected(PositionOrder, flags);
    assert |flags| == 2;
    assert ps[0] in flags && ps[1] in flags;
    assert PositionIndex(ps[0]) < PositionIndex(ps[1]);
    assert ps[0] == InBottom && ps[1] == Position.OutDefault;
    var es := AcceptorEntries(flags, fields).value;
    assert es[0] == AcceptorEntry(InBottom, fields) && es[1] == AcceptorEntry(InBottom, fields);
    assert es == [AcceptorEntry(InBottom, fields), AcceptorEntry(InBottom, fields)];
  }

  /** The events a position status change sends: the dispenser's list, then the acceptor's. */
  datatype PositionEvent = DispenserPositions(dispenser: seq<DispenserEntry>) | AcceptorPositions(acceptor: seq<AcceptorEntry>)

  /** The dispenser branch: nothing for no dispenser position, else its event or the fault that stops it. */
  function DispenserBranch(s: PositionStatus, prop: string): Emission<PositionEvent>
  {
    if s.cashDispenserPosition.None? then Emission([], None)
    else match PositionFieldsEvent(s, prop)
      case Failure(e) => Emission([], Some(e))
      case Success(fields) =>
        match DispenserEntries(s.cashDispenserPosition.value, fields)
        case Failure(e) => Emission([], Some(e))
        case Success(es) => Emission([DispenserPositions(es)], None)
  }

  function AcceptorBranch(s: PositionStatus, prop: string): Emission<PositionEvent>
  {
    if s.cashAcceptorPosition.None? then Emission([], None)
    else match PositionFieldsEvent(s, prop)
      case Failure(e) => Emission([], Some(e))
      case Success(fields) =>
        match AcceptorEntries(s.cashAcceptorPosition.value, fields)
        case Failure(e) => Emission([], Some(e))
        case Success(es) => Emission([AcceptorPositions(es)], None)
  }

  /** The whole handler: the acceptor branch runs only if the dispenser branch raised nothing. */
  function PositionEvents(s: PositionStatus, prop: string): (r: Emission<PositionEvent>)
    ensures |r.events| <= 2
    ensures DispenserBranch(s, prop).fault.Some? ==> r == DispenserBranch(s, prop)
    ensures DispenserBranch(s, prop).fault.None? ==> r.events == DispenserBranch(s, prop).events + AcceptorBranch(s, prop).events
    ensures r.fault.Some? ==> |r.events| <= 1
  {
    var d := DispenserBranch(s, prop);
    if d.fault.Some? then d
    else
      var a := AcceptorBranch(s, prop);
      Emission(d.events + a.events, a.fault)
  }

  /** The dispenser's foreach: one entry per listed position; a null list dereferenced. */
  method DispenserList(flags: set<OutputPosition>, fields: PositionFields) returns (r: Result<seq<DispenserEntry>>)
    ensures r == DispenserEntries(flags, fields)
  {
    var positions := Selected(OutputPositionOrder, flags);
    if |positions| == 0 {
      OutputSelection(flags);
      return Failure(NullReferenceFault);
    }
    var entries: seq<DispenserEntry> := [];
    var i := 0;
    while i < |positions|
      invariant 0 <= i <= |positions|
      invariant |entries| == i
      invariant forall k :: 0 <= k < i ==> entries[k] == DispenserEntry(WireOutput(positions[k]), fields)
    {
      entries := entries + [DispenserEntry(WireOutput(positions[i]), fields)];
      i := i + 1;
    }
    assert entries == seq(|positions|, k requires 0 <= k < |positions| => DispenserEntry(WireOutput(positions[k]), fields));
    return Success(entries);
  }

  /** The acceptor's foreach, likewise. */
  method AcceptorList(flags: set<Position>, fields: PositionFields) returns (r: Result<seq<AcceptorEntry>>)
    ensures r == AcceptorEntries(flags, fields)
  {
    var positions := Selected(PositionOrder, flags);
    if |positions| == 0 {
      PositionSelection(flags);
      return Failure(NullReferenceFault);
    }
    var entries: seq<AcceptorEntry> := [];
    var i := 0;
    while i < |positions|
      invariant 0 <= i <= |positions|
      invariant |entries| == i
      invariant forall k :: 0 <= k < i ==> entries[k] == AcceptorEntry(AcceptorWirePosition(positions[k]), fields)
    {
      entries := entries + [AcceptorEntry(AcceptorWirePosition(positions[i]), fields)];
      i := i + 1;
    }
    assert entries == seq(|positions|, k requires 0 <= k < |positions| => AcceptorEntry(AcceptorWirePosition(positions[k]), fields));
    return Success(entries);
  }

  /**
   * HandlePositionStatus: the dispenser branch, then the acceptor branch,
   * each translating the statuses and building its list.
   */
  method HandlePositionStatus(s: PositionStatus, prop: string) returns (r: Emission<PositionEvent>)
    ensures r == PositionEvents(s, prop)
  {
    var events: seq<PositionEvent> := [];
    if s.cashDispenserPosition.Some? {
      var fields := PositionFieldsEvent(s, prop);
      if fields.Failure? {
        return Emission([], Some(fields.error));
      }
      var entries := DispenserList(s.cashDispenserPosition.value, fields.value);
      if entries.Failure? {
        return Emission([], Some(entries.error));
      }
      events := events + [DispenserPositions(entries.value)];
    }
    if s.cashAcceptorPosition.Some? {
      var fields := PositionFieldsEvent(s, prop);
      if fields.Failure? {
        return Emission(events, Some(fields.error));
      }
      var entries := AcceptorList(s.cashAcceptorPosition.value, fields.value);
      if entries.Failure? {
        return Emission(events, Some(entries.error));
      }
      events := events + [AcceptorPositions(entries.value)];
    }
    return Emission(events, None);
  }

  /**
   * The acceptor branch translates the same statuses again, so once the
   * dispenser's event is sent the only fault left is the acceptor's empty
   * bitmap.
   */
  lemma FaultAfterDispenserEvent(s: PositionStatus, prop: string)
    requires PositionEvents(s, prop).fault.Some? && PositionEvents(s, prop).events != []
    ensures PositionEvents(s, prop).events == [DispenserPositions(DispenserEntries(s.cashDispenserPosition.value, PositionFieldsEvent(s, prop).value).value)]
    ensures PositionEvents(s, prop).fault == Some(NullReferenceFault)
    ensures s.cashAcceptorPosition == Some({})
  {
  }

  /**
   * A position of both units, with statuses the switches accept and a flag
   * set in each bitmap: both lists are sent, dispenser first, with the same
   * statuses.
   */
  lemma BothUnitsReported(s: PositionStatus, prop: string)
    requires PositionFieldsEvent(s, prop).Success?
    requires s.cashDispenserPosition.Some? && s.cashDispenserPosition.value != {}
    requires s.cashAcceptorPosition.Some? && s.cashAcceptorPosition.value != {}
    ensures PositionEvents(s, prop).fault.None? && |PositionEvents(s, prop).events| == 2
    ensures PositionEvents(s, prop).events[0].DispenserPositions? && PositionEvents(s, prop).events[1].AcceptorPositions?
    ensures forall e :: e in PositionEvents(s, prop).events[0].dispenser ==> e.fields == PositionFieldsEvent(s, prop).value
    ensures forall e :: e in PositionEvents(s, prop).events[1].acceptor ==> e.fields == PositionFieldsEvent(s, prop).value
  {
  }
}
