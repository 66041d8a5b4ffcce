/**
 * CashDispenser.Count: maps the requested output position, checks it against
 * the dispenser's output positions, and chooses the cash units to count from.
 */
module CashDispenserCount {
  import opened Wrappers
  import C = Completion
  import opened CashPositions

  /** A flag of a cash unit's configured Types; only CashOut matters here. */
  datatype CashUnitType = CashOut | OtherUnitType(flag: nat)

  /** One entry of the storage service's CashUnits dictionary, in its enumeration order. */
  datatype CashUnit = CashUnit(id: string, types: set<CashUnitType>)

  /** The request handed to the device; position None is NotSupported. */
  datatype CountRequest = CountRequest(position: Option<OutputPosition>, storageFrom: Option<seq<string>>)

  /** What the device class returns from CountAsync; the model leaves it unconstrained. */
  datatype DeviceCountResult = DeviceCountResult(
    completionCode: C.CompletionCode,
    errorDescription: Option<string>,
    errorCode: Option<string>)

  /** The Count completion payload. */
  datatype CountPayload = CountPayload(
    completionCode: C.CompletionCode,
    errorDescription: Option<string>,
    errorCode: Option<string>)

  const UnsupportedPositionMessage: string := "Unsupported position."
  const InvalidUnitMessage: string := "Specified storage id is invalid."

  /** The requested wire position as an internal position; absent is NotSupported. */
  function RequestedPosition(position: Option<WireOutputPosition>): (r: Option<OutputPosition>)
    ensures r.None? <==> position.None?
    ensures position.Some? ==> WireOutput(r.value) == position.value
  {
    match position
    case None => None
    case Some(w) => Some(FromWireOutput(w))
  }

  /** OutputPositions.HasFlag(position); HasFlag(NotSupported) holds of every set. */
  predicate HasPosition(outputPositions: set<OutputPosition>, position: Option<OutputPosition>)
  {
    position.None? || position.value in outputPositions
  }

  function AsciiLower(c: char): char
  {
    if 'A' <= c <= 'Z' then (c as int + 32) as char else c
  }

  /** A case-insensitive comparison that folds the ASCII letters only. */
  predicate EqualsIgnoreCase(a: string, b: string)
  {
    |a| == |b| && forall i :: 0 <= i < |a| ==> AsciiLower(a[i]) == AsciiLower(b[i])
  }

  predicate IsUnitId(units: seq<CashUnit>, id: string)
  {
    exists u :: u in units && u.id == id
  }

  /** The ids of the units whose Types include CashOut, in enumeration order. */
  function CashOutUnits(units: seq<CashUnit>): (ids: seq<string>)
    ensures |ids| <= |units|
    ensures forall id :: id in ids <==> exists u :: u in units && u.id == id && CashOut in u.types
  {
    if units == [] then []
    else
      var rest := CashOutUnits(units[..|units| - 1]);
      var last := units[|units| - 1];
      assert forall u :: u in units <==> u in units[..|units| - 1] || u == last;
      if CashOut in last.types then rest + [last.id] else rest
  }

  /** The decision the handler takes before calling the device. */
  datatype CountPlan = Reject(message: string) | Dispatch(request: CountRequest)

  function PlanCount(outputPositions: set<OutputPosition>, units: seq<CashUnit>,
                     position: Option<WireOutputPosition>, unit: Option<string>): CountPlan
  {
    var pos := RequestedPosition(position);
    if !HasPosition(outputPositions, pos) then Reject(UnsupportedPositionMessage)
    else if unit.None? || unit.value == "" then Dispatch(CountRequest(pos, None))
    else if EqualsIgnoreCase(unit.value, "all") then Dispatch(CountRequest(pos, Some(CashOutUnits(units))))
    else if IsUnitId(units, unit.value) then Reject(InvalidUnitMessage)
    else Dispatch(CountRequest(pos, Some([unit.value])))
  }

  /**
   * HandleCount. The device is a black box given as a function of the request;
   * sent is the request it was called with, None when it was not called.
   */
  method HandleCount(outputPositions: set<OutputPosition>, units: seq<CashUnit>,
                     position: Option<WireOutputPosition>, unit: Option<string>,
                     device: CountRequest -> DeviceCountResult)
    returns (r: CountPayload, sent: Option<CountRequest>)
    ensures PlanCount(outputPositions, units, position, unit).Reject? ==>
              sent.None? && r == CountPayload(C.InvalidData, Some(PlanCount(outputPositions, units, position, unit).message), None)
    ensures PlanCount(outputPositions, units, position, unit).Dispatch? ==>
              var request := PlanCount(outputPositions, units, position, unit).request;
              sent == Some(request)
              && r == CountPayload(device(request).completionCode, device(request).errorDescription, device(request).errorCode)
  {
    var pos := RequestedPosition(position);
    if !HasPosition(outputPositions, pos) {
      return CountPayload(C.InvalidData, Some(UnsupportedPositionMessage), None), None;
    }
    var request := CountRequest(pos, None);
    if unit.Some? && unit.value != "" {
      var storageFrom: seq<string> := [];
      if EqualsIgnoreCase(unit.value, "all") {
        var i := 0;
        while i < |units|
          invariant 0 <= i <= |units|
          invariant storageFrom == CashOutUnits(units[..i])
        {
          assert units[..i + 1][..i] == units[..i];
          if CashOut in units[i].types {
            storageFrom := storageFrom + [units[i].id];
          }
          i := i + 1;
        }
        assert units[..|units|] == units;
      } else {
        if IsUnitId(units, unit.value) {
          return CountPayload(C.InvalidData, Some(InvalidUnitMessage), None), None;
        }
        storageFrom := storageFrom + [unit.value];
        assert storageFrom == [unit.value];
      }
      request := CountRequest(pos, Some(storageFrom));
    }
    var result := device(request);
    sent := Some(request);
    r := CountPayload(result.completionCode, result.errorDescription, result.errorCode);
  }

  /** Splitting the units splits the selection: the filter keeps the enumeration order. */
  lemma {:induction false} CashOutUnitsAppend(a: seq<CashUnit>, b: seq<CashUnit>)
    ensures CashOutUnits(a + b) == CashOutUnits(a) + CashOutUnits(b)
    decreases |b|
  {
    if b == [] {
      assert a + b == a;
    } else {
      var b' := b[..|b| - 1];
      assert (a + b)[..|a + b| - 1] == a + b';
      assert b[..|b| - 1] == b';
      CashOutUnitsAppend(a, b');
    }
  }

  /** A single unit is selected exactly when it is a cash-out unit. */
  lemma CashOutUnitsOfOne(u: CashUnit)
    ensures CashOutUnits([u]) == if CashOut in u.types then [u.id] else []
  {
    assert [u][..0] == [];
  }

  /**
   * The position check: an absent position (NotSupported) always passes, a
   * named one passes exactly when it is among the dispenser's output
   * positions, and a rejected position never reaches the device.
   */
  lemma PositionCheck(outputPositions: set<OutputPosition>, units: seq<CashUnit>,
                      position: Option<WireOutputPosition>, unit: Option<string>)
    ensures position.None? ==> (!PlanCount(outputPositions, units, position, unit).Reject?
              || PlanCount(outputPositions, units, position, unit).message == InvalidUnitMessage)
    ensures position.Some? && FromWireOutput(position.value) !in outputPositions ==>
              PlanCount(outputPositions, units, position, unit) == Reject(UnsupportedPositionMessage)
    ensures PlanCount(outputPositions, units, position, unit).Dispatch? ==>
              PlanCount(outputPositions, units, position, unit).request.position == RequestedPosition(position)
  {
  }

  /**
   * Unit selection once the position passed: none for an absent or empty unit,
   * every cash-out unit for "all" in any letter case, and otherwise the named
   * unit alone -- unless it is a known id, which is refused.
   */
  lemma UnitSelection(outputPositions: set<OutputPosition>, units: seq<CashUnit>,
                      position: Option<WireOutputPosition>, unit: Option<string>)
    requires HasPosition(outputPositions, RequestedPosition(position))
    ensures unit.None? || unit == Some("") ==>
              PlanCount(outputPositions, units, position, unit).Dispatch?
              && PlanCount(outputPositions, units, position, unit).request.storageFrom.None?
    ensures unit.Some? && EqualsIgnoreCase(unit.value, "all") ==>
              PlanCount(outputPositions, units, position, unit).Dispatch?
              && PlanCount(outputPositions, units, position, unit).request.storageFrom == Some(CashOutUnits(units))
    ensures unit.Some? && unit.value != "" && !EqualsIgnoreCase(unit.value, "all") ==>
              (PlanCount(outputPositions, units, position, unit).Reject? <==> IsUnitId(units, unit.value))
    ensures unit.Some? && unit.value != "" && !EqualsIgnoreCase(unit.value, "all") && !IsUnitId(units, unit.value) ==>
              PlanCount(outputPositions, units, position, unit).request.storageFrom == Some([unit.value])
  {
  }

  /**
   * The unit selects every cash-out unit exactly when it spells "all" in any
   * mix of letter cases; no other string, however close, is folded to it.
   */
  lemma AllIgnoresCase(u: string)
    ensures EqualsIgnoreCase(u, "all") <==>
              |u| == 3 && (u[0] == 'a' || u[0] == 'A') && (u[1] == 'l' || u[1] == 'L') && (u[2] == 'l' || u[2] == 'L')
  {
  }
}
