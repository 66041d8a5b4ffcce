/**
 * The cash-handling positions: the internal output-position and position flag
 * enumerations, their wire names, and the order in which the flag values are
 * enumerated.
 */
module CashPositions {

  /** One flag of the internal OutputPositionEnum; NotSupported (0) is the empty flag set. */
  datatype OutputPosition = Bottom | Right | Front | Rear | Left | Top | Center | Default

  /** XFS4IoT.CashManagement.OutputPositionEnum, the wire name of an output position. */
  datatype WireOutputPosition = OutBottom | OutRight | OutFront | OutRear | OutLeft | OutTop | OutCenter | OutDefault

  /**
   * One flag of the internal cash-acceptor PositionEnum. The wire PositionEnum
   * has the same names, so the same datatype stands for both.
   */
  datatype Position =
    | InBottom | InRight | InFront | InRear | InLeft | InCenter | InTop | InDefault
    | OutBottom | OutRight | OutFront | OutRear | OutLeft | OutTop | OutCenter | OutDefault

  /**
   * The order Enum.GetValues lists the output-position flags in. The numeric
   * values are declared outside this model; the order taken is the one the
   * translation switch lists them in.
   */
  const OutputPositionOrder: seq<OutputPosition> := [Bottom, Right, Front, Rear, Left, Top, Center, Default]

  /** The same for the acceptor's position flags. */
  const PositionOrder: seq<Position> :=
    [InBottom, InRight, InFront, InRear, InLeft, InCenter, InTop, InDefault,
     Position.OutBottom, Position.OutRight, Position.OutFront, Position.OutRear,
     Position.OutLeft, Position.OutTop, Position.OutCenter, Position.OutDefault]

  /** An output position's same-named wire value. */
  function WireOutput(p: OutputPosition): (w: WireOutputPosition)
  {
    match p
    case Bottom => WireOutputPosition.OutBottom
    case Right => WireOutputPosition.OutRight
    case Front => WireOutputPosition.OutFront
    case Rear => WireOutputPosition.OutRear
    case Left => WireOutputPosition.OutLeft
    case Top => WireOutputPosition.OutTop
    case Center => WireOutputPosition.OutCenter
    case Default => WireOutputPosition.OutDefault
  }

  /** The output position a wire value names: the inverse of WireOutput. */
  function FromWireOutput(w: WireOutputPosition): (p: OutputPosition)
    ensures WireOutput(p) == w
  {
    match w
    case OutBottom => Bottom
    case OutRight => Right
    case OutFront => Front
    case OutRear => Rear
    case OutLeft => Left
    case OutTop => Top
    case OutCenter => Center
    case OutDefault => Default
  }

  lemma WireOutputRoundTrip(p: OutputPosition)
    ensures FromWireOutput(WireOutput(p)) == p
  {
  }

  /** Where a flag sits in OutputPositionOrder. */
  function OutputPositionIndex(p: OutputPosition): (i: nat)
    ensures i < |OutputPositionOrder| && OutputPositionOrder[i] == p
  {
    match p
    case Bottom => 0
    case Right => 1
    case Front => 2
    case Rear => 3
    case Left => 4
    case Top => 5
    case Center => 6
    case Default => 7
  }

  /** Where a flag sits in PositionOrder. */
  function PositionIndex(p: Position): (i: nat)
    ensures i < |PositionOrder| && PositionOrder[i] == p
  {
    match p
    case InBottom => 0
    case InRight => 1
    case InFront => 2
    case InRear => 3
    case InLeft => 4
    case InCenter => 5
    case InTop => 6
    case InDefault => 7
    case OutBottom => 8
    case OutRight => 9
    case OutFront => 10
    case OutRear => 11
    case OutLeft => 12
    case OutTop => 13
    case OutCenter => 14
    case OutDefault => 15
  }

  /** Every flag is enumerated exactly once. */
  lemma OrdersListEveryFlagOnce()
    ensures forall p: OutputPosition :: p in OutputPositionOrder
    ensures forall i, j :: 0 <= i < j < |OutputPositionOrder| ==> OutputPositionOrder[i] != OutputPositionOrder[j]
    ensures forall p: Position :: p in PositionOrder
    ensures forall i, j :: 0 <= i < j < |PositionOrder| ==> PositionOrder[i] != PositionOrder[j]
  {
    forall p: OutputPosition ensures p in OutputPositionOrder {
      var _ := OutputPositionIndex(p);
    }
    forall p: Position ensures p in PositionOrder {
      var _ := PositionIndex(p);
    }
  }

  /**
   * The flags of a bitmap, listed in enumeration order: the LINQ query
   * `GetValues().Where(e => flags.HasFlag(e) && e != 0)`.
   */
  function Selected<T(==,!new)>(order: seq<T>, flags: set<T>): (r: seq<T>)
    ensures forall x :: x in r <==> x in order && x in flags
    ensures |r| <= |order|
  {
    if order == [] then []
    else
      var rest := Selected(order[..|order| - 1], flags);
      var last := order[|order| - 1];
      assert forall x :: x in order <==> x in order[..|order| - 1] || x == last;
      if last in flags then rest + [last] else rest
  }

  /** The selection keeps the enumeration order: ranks strictly increase along it. */
  lemma {:induction false} SelectedKeepsOrder<T(!new)>(order: seq<T>, flags: set<T>, rank: T -> nat)
    requires forall i :: 0 <= i < |order| ==> rank(order[i]) == i
    ensures forall i, j :: 0 <= i < j < |Selected(order, flags)| ==> rank(Selected(order, flags)[i]) < rank(Selected(order, flags)[j])
    ensures forall x :: x in Selected(order, flags) ==> rank(x) < |order|
  {
    if order != [] {
      var prefix := order[..|order| - 1];
      assert forall i :: 0 <= i < |prefix| ==> rank(prefix[i]) == i;
      SelectedKeepsOrder(prefix, flags, rank);
      forall x | x in Selected(order, flags) ensures rank(x) < |order| {
        var k :| 0 <= k < |order| && order[k] == x;
      }
    }
  }

  /** A sequence without repeats has as many elements as the set of its elements. */
  lemma {:induction false} DistinctCardinality<T>(s: seq<T>)
    requires forall i, j :: 0 <= i < j < |s| ==> s[i] != s[j]
    ensures |set x | x in s| == |s|
  {
    if s != [] {
      var prefix := s[..|s| - 1];
      var last := s[|s| - 1];
      DistinctCardinality(prefix);
      assert (set x | x in s) == (set x | x in prefix) + {last};
      assert last !in (set x | x in prefix);
    }
  }

  /**
   * When the order lists every flag, the selection holds one element per flag
   * that is set, each once; it is empty exactly when no flag is set.
   */
  lemma SelectedCount<T(!new)>(order: seq<T>, flags: set<T>, rank: T -> nat)
    requires forall i :: 0 <= i < |order| ==> rank(order[i]) == i
    requires forall x: T :: x in order
    ensures |Selected(order, flags)| == |flags|
    ensures Selected(order, flags) == [] <==> flags == {}
  {
    var r := Selected(order, flags);
    SelectedKeepsOrder(order, flags, rank);
    DistinctCardinality(r);
    assert (set x | x in r) == flags;
  }

  /** The output-position bitmap, in enumeration order, one entry per flag set. */
  lemma OutputSelection(flags: set<OutputPosition>)
    ensures |Selected(OutputPositionOrder, flags)| == |flags|
    ensures forall p :: p in Selected(OutputPositionOrder, flags) <==> p in flags
    ensures forall i, j :: 0 <= i < j < |Selected(OutputPositionOrder, flags)| ==>
              OutputPositionIndex(Selected(OutputPositionOrder, flags)[i]) < OutputPositionIndex(Selected(OutputPositionOrder, flags)[j])
  {
    OrdersListEveryFlagOnce();
    SelectedCount(OutputPositionOrder, flags, OutputPositionIndex);
    SelectedKeepsOrder(OutputPositionOrder, flags, OutputPositionIndex);
  }

  /** The acceptor's position bitmap, likewise. */
  lemma PositionSelection(flags: set<Position>)
    ensures |Selected(PositionOrder, flags)| == |flags|
    ensures forall p :: p in Selected(PositionOrder, flags) <==> p in flags
    ensures forall i, j :: 0 <= i < j < |Selected(PositionOrder, flags)| ==>
              PositionIndex(Selected(PositionOrder, flags)[i]) < PositionIndex(Selected(PositionOrder, flags)[j])
  {
    OrdersListEveryFlagOnce();
    SelectedCount(PositionOrder, flags, PositionIndex);
    SelectedKeepsOrder(PositionOrder, flags, PositionIndex);
  }
}
