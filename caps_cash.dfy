/**
 * The cash dispenser and cash management parts of the Common.Capabilities
 * completion.
 */
module CashCapabilities {
  import opened CapabilityFlags
  import CashPositions

  /** The dispenser type; OtherType is a value the switch does not name. */
  datatype DispenserType = SelfServiceBill | SelfServiceCoin | TellerBill | TellerCoin | OtherType(code: int)

  datatype RetractArea = Retract | Transport | Stacker | Reject | ItemCassette
  /** RetractTransportActionEnum and RetractStackerActionEnum carry the same four names. */
  datatype RetractAction = Present | RetractItems | RejectItems | ToItemCassette
  datatype MoveItem = FromCashUnit | ToCashUnit | ToTransport | ToStacker
  datatype ExchangeType = ByHand
  datatype ItemInfoType = SerialNumber | Signature | ImageFile

  const RetractAreaOrder: seq<RetractArea> := [Retract, Transport, Stacker, Reject, ItemCassette]
  const RetractActionOrder: seq<RetractAction> := [Present, RetractItems, RejectItems, ToItemCassette]
  const DispenserPositionOrder: seq<CashPositions.OutputPosition> :=
    [CashPositions.Left, CashPositions.Right, CashPositions.Center, CashPositions.Top,
     CashPositions.Bottom, CashPositions.Front, CashPositions.Rear]
  const MoveItemOrder: seq<MoveItem> := [FromCashUnit, ToCashUnit, ToTransport, ToStacker]
  const ExchangeTypeOrder: seq<ExchangeType> := [ByHand]
  const ItemInfoTypeOrder: seq<ItemInfoType> := [SerialNumber, Signature, ImageFile]

  datatype DispenserCaps = DispenserCaps(
    dispenserType: DispenserType,
    maxDispenseItems: int,
    shutterControl: bool,
    retractAreas: set<RetractArea>,
    retractTransportActions: set<RetractAction>,
    retractStackerActions: set<RetractAction>,
    intermediateStacker: bool,
    itemsTakenSensor: bool,
    outputPositions: set<CashPositions.OutputPosition>,
    moveItems: set<MoveItem>)

  datatype DispenserRecord = DispenserRecord(
    dispenserType: DispenserType,
    maxDispenseItems: int,
    shutterControl: bool,
    retractAreas: seq<bool>,
    retractTransportActions: seq<bool>,
    retractStackerActions: seq<bool>,
    intermediateStacker: bool,
    itemsTakenSensor: bool,
    positions: seq<bool>,
    moveItems: seq<bool>)

  /** The three named types keep their name; anything else is reported as TellerCoin. */
  function WireDispenserType(t: DispenserType): (r: DispenserType)
    ensures !r.OtherType?
    ensures r == TellerCoin <==> t == TellerCoin || t.OtherType?
    ensures !t.OtherType? ==> r == t
  {
    match t
    case SelfServiceBill => SelfServiceBill
    case SelfServiceCoin => SelfServiceCoin
    case TellerBill => TellerBill
    case _ => TellerCoin
  }

  function DispenserRecordOf(c: DispenserCaps): (r: DispenserRecord)
    ensures r.dispenserType == WireDispenserType(c.dispenserType)
    ensures r.retractAreas == FlagBits(RetractAreaOrder, c.retractAreas)
    ensures r.retractTransportActions == FlagBits(RetractActionOrder, c.retractTransportActions)
    ensures r.retractStackerActions == FlagBits(RetractActionOrder, c.retractStackerActions)
    ensures r.positions == FlagBits(DispenserPositionOrder, c.outputPositions)
    ensures r.moveItems == FlagBits(MoveItemOrder, c.moveItems)
    ensures r.maxDispenseItems == c.maxDispenseItems && r.shutterControl == c.shutterControl
    ensures r.intermediateStacker == c.intermediateStacker && r.itemsTakenSensor == c.itemsTakenSensor
  {
    DispenserRecord(
      WireDispenserType(c.dispenserType),
      c.maxDispenseItems,
      c.shutterControl,
      FlagBits(RetractAreaOrder, c.retractAreas),
      FlagBits(RetractActionOrder, c.retractTransportActions),
      FlagBits(RetractActionOrder, c.retractStackerActions),
      c.intermediateStacker,
      c.itemsTakenSensor,
      FlagBits(DispenserPositionOrder, c.outputPositions),
      FlagBits(MoveItemOrder, c.moveItems))
  }

  /** Every flag of each enum has a boolean in its record. */
  lemma OrdersNameEveryFlag()
    ensures forall f: RetractArea :: f in RetractAreaOrder
    ensures forall f: RetractAction :: f in RetractActionOrder
    ensures forall f: MoveItem :: f in MoveItemOrder
    ensures forall f: ItemInfoType :: f in ItemInfoTypeOrder
    ensures forall f: ExchangeType :: f in ExchangeTypeOrder
  {
    forall f: RetractArea ensures f in RetractAreaOrder {
      match f
      case Retract => assert RetractAreaOrder[0] == f;
      case Transport => assert RetractAreaOrder[1] == f;
      case Stacker => assert RetractAreaOrder[2] == f;
      case Reject => assert RetractAreaOrder[3] == f;
      case ItemCassette => assert RetractAreaOrder[4] == f;
    }
    forall f: RetractAction ensures f in RetractActionOrder {
      match f
      case Present => assert RetractActionOrder[0] == f;
      case RetractItems => assert RetractActionOrder[1] == f;
      case RejectItems => assert RetractActionOrder[2] == f;
      case ToItemCassette => assert RetractActionOrder[3] == f;
    }
    forall f: MoveItem ensures f in MoveItemOrder {
      match f
      case FromCashUnit => assert MoveItemOrder[0] == f;
      case ToCashUnit => assert MoveItemOrder[1] == f;
      case ToTransport => assert MoveItemOrder[2] == f;
      case ToStacker => assert MoveItemOrder[3] == f;
    }
    forall f: ItemInfoType ensures f in ItemInfoTypeOrder {
      match f
      case SerialNumber => assert ItemInfoTypeOrder[0] == f;
      case Signature => assert ItemInfoTypeOrder[1] == f;
      case ImageFile => assert ItemInfoTypeOrder[2] == f;
    }
    forall f: ExchangeType ensures f in ExchangeTypeOrder {
      assert ExchangeTypeOrder[0] == f;
    }
  }

  /**
   * The retract and move records lose no reported flag, and the positions
   * record keeps every output position except Default, which it does not name.
   */
  lemma DispenserFlagsRoundTrip(c: DispenserCaps)
    ensures FlagsOf(RetractAreaOrder, DispenserRecordOf(c).retractAreas) == c.retractAreas
    ensures FlagsOf(RetractActionOrder, DispenserRecordOf(c).retractTransportActions) == c.retractTransportActions
    ensures FlagsOf(RetractActionOrder, DispenserRecordOf(c).retractStackerActions) == c.retractStackerActions
    ensures FlagsOf(MoveItemOrder, DispenserRecordOf(c).moveItems) == c.moveItems
    ensures FlagsOf(DispenserPositionOrder, DispenserRecordOf(c).positions) == c.outputPositions - {CashPositions.Default}
  {
    var r := DispenserRecordOf(c);
    OrdersNameEveryFlag();
    assert FlagsOf(RetractAreaOrder, r.retractAreas) == c.retractAreas by {
      FlagBitsComplete(RetractAreaOrder, c.retractAreas);
    }
    assert FlagsOf(RetractActionOrder, r.retractTransportActions) == c.retractTransportActions by {
      FlagBitsComplete(RetractActionOrder, c.retractTransportActions);
    }
    assert FlagsOf(RetractActionOrder, r.retractStackerActions) == c.retractStackerActions by {
      FlagBitsComplete(RetractActionOrder, c.retractStackerActions);
    }
    assert FlagsOf(MoveItemOrder, r.moveItems) == c.moveItems by {
      FlagBitsComplete(MoveItemOrder, c.moveItems);
    }
    assert FlagsOf(DispenserPositionOrder, r.positions) == c.outputPositions - {CashPositions.Default} by {
      PositionOrderNamesAllButDefault();
      FlagBitsRoundTrip(DispenserPositionOrder, c.outputPositions);
    }
  }

  /** The positions record names every output position but Default. */
  lemma PositionOrderNamesAllButDefault()
    ensures forall p: CashPositions.OutputPosition :: p in DispenserPositionOrder <==> p != CashPositions.Default
  {
    forall p: CashPositions.OutputPosition ensures p in DispenserPositionOrder <==> p != CashPositions.Default {
      match p
      case Left => assert DispenserPositionOrder[0] == p;
      case Right => assert DispenserPositionOrder[1] == p;
      case Center => assert DispenserPositionOrder[2] == p;
      case Top => assert DispenserPositionOrder[3] == p;
      case Bottom => assert DispenserPositionOrder[4] == p;
      case Front => assert DispenserPositionOrder[5] == p;
      case Rear => assert DispenserPositionOrder[6] == p;
      case Default =>
    }
  }

  // ---- Cash management ----

  datatype ManagementCaps = ManagementCaps(
    safeDoor: bool,
    cashBox: bool,
    exchangeTypes: set<ExchangeType>,
    itemInfoTypes: set<ItemInfoType>,
    classificationList: bool)

  datatype ManagementRecord = ManagementRecord(
    safeDoor: bool,
    cashBox: bool,
    exchangeType: seq<bool>,
    itemInfoTypes: seq<bool>,
    classificationList: bool)

  function ManagementRecordOf(c: ManagementCaps): (r: ManagementRecord)
    ensures r.exchangeType == [ByHand in c.exchangeTypes]
    ensures r.itemInfoTypes == FlagBits(ItemInfoTypeOrder, c.itemInfoTypes)
    ensures r.safeDoor == c.safeDoor && r.cashBox == c.cashBox && r.classificationList == c.classificationList
  {
    ManagementRecord(c.safeDoor, c.cashBox, FlagBits(ExchangeTypeOrder, c.exchangeTypes),
                     FlagBits(ItemInfoTypeOrder, c.itemInfoTypes), c.classificationList)
  }

  /** The management records lose no reported flag. */
  lemma ManagementFlagsRoundTrip(c: ManagementCaps)
    ensures FlagsOf(ExchangeTypeOrder, ManagementRecordOf(c).exchangeType) == c.exchangeTypes
    ensures FlagsOf(ItemInfoTypeOrder, ManagementRecordOf(c).itemInfoTypes) == c.itemInfoTypes
  {
    OrdersNameEveryFlag();
    FlagBitsComplete(ExchangeTypeOrder, c.exchangeTypes);
    FlagBitsComplete(ItemInfoTypeOrder, c.itemInfoTypes);
  }
}
