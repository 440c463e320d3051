/** One order: its lines, money, parcels and timeline, and the steps that touch nothing else. */
module Orders {
  import opened Outcomes
  import Inventory

  datatype Status = Pending | Confirmed | Processing | Shipped | Delivered | Cancelled | Refunded {

    function AllowedNext(): set<Status> {
      match this
      case Pending => {Confirmed, Cancelled}
      case Confirmed => {Processing, Cancelled}
      case Processing => {Shipped, Cancelled}
      case Shipped => {Delivered, Cancelled}
      case Delivered => {Refunded}
      case Cancelled => {Refunded}
      case Refunded => {}
    }
  }

  datatype Line = Line(item: nat, variant: nat, quantity: nat, unitPrice: nat, lineTotal: nat)

  datatype PaymentStatus = PaymentPending | PaymentPaid | PaymentFailed | PaymentRefunded

  datatype Payment = Payment(amount: int, status: PaymentStatus, reference: Option<string>)

  datatype ParcelStatus = ParcelPending | Packed | ParcelShipped | ParcelDelivered | ParcelFailed

  /** One consignment; an order has one per fulfillment strategy among its lines. */
  datatype Parcel = Parcel(id: nat, strategy: Inventory.Strategy, status: ParcelStatus)

  datatype NoticeKind = FulfillmentUpdated | FinancialAdjustmentRequired

  datatype NoticeKey = DeliveredAwaitingShipped | AllConsignmentsFailed | PartialFailure(ids: seq<nat>)

  datatype Event =
    | StatusChanged(from: Option<Status>, to: Status)
    | PaymentRecorded
    | RefundRecorded(restocked: bool)
    | RefundRequired
    | ParcelReported(status: ParcelStatus)
    | Notice(kind: NoticeKind, key: NoticeKey)
    | ItemAdded | ItemUpdated | ItemRemoved
    | PriceAdjusted | DiscountAdjusted | ShippingUpdated

  datatype Order = Order(
    status: Status, lines: seq<Line>, parcels: seq<Parcel>,
    shipping: int, tax: int, discount: int, subtotal: int, grandTotal: int,
    payments: seq<Payment>, events: seq<Event>, expiresAt: int)
  {
    function Logged(e: Event): Order {
      this.(events := events + [e])
    }

    function AmountPaid(): int {
      AmountOf(payments, PaymentPaid)
    }

    function AmountRefunded(): int {
      AmountOf(payments, PaymentRefunded)
    }

    /** The status column moves and the timeline says so; a cancelled order that was paid asks for a refund. */
    function Moved(to: Status): Order {
      var moved := this.(status := to);
      var flagged := if to == Cancelled && AmountPaid() > 0 then moved.Logged(RefundRequired) else moved;
      flagged.Logged(StatusChanged(Some(status), to))
    }
  }

  function AmountOf(payments: seq<Payment>, status: PaymentStatus): int {
    if payments == [] then 0
    else (if payments[0].status == status then payments[0].amount else 0) + AmountOf(payments[1..], status)
  }

  function SumOfLines(lines: seq<Line>): int {
    if lines == [] then 0 else lines[0].lineTotal + SumOfLines(lines[1..])
  }

  /** unit price x quantity at scale 3, plus one half, truncated. */
  function LineTotal(unitPrice: nat, quantity: nat): nat {
    (unitPrice * quantity + 500) / 1000
  }

  /** Derives subtotal and grand total, refusing an impossible or overpaid result. */
  function Recalculated(o: Order): Result<Order> {
    var subtotal := SumOfLines(o.lines);
    var grandTotal := subtotal + o.shipping + o.tax - o.discount;
    if o.discount > subtotal then Failure(InvalidState)
    else if grandTotal < o.AmountPaid() then Failure(InvalidState)
    else Success(o.(subtotal := subtotal, grandTotal := grandTotal))
  }

  /** The position of an order item, |lines| when the item is on another order. */
  function IndexOf(lines: seq<Line>, item: nat): (i: nat)
    ensures i <= |lines|
    ensures i < |lines| ==> lines[i].item == item
    ensures forall j :: 0 <= j < i ==> lines[j].item != item
  {
    if lines == [] || lines[0].item == item then 0 else 1 + IndexOf(lines[1..], item)
  }

  predicate HasReference(orders: seq<Order>, reference: Option<string>) {
    reference.Some? &&
    exists k, i :: 0 <= k < |orders| && 0 <= i < |orders[k].payments|
      && orders[k].payments[i].reference == reference
  }

  // Parcels

  function ParcelIndex(parcels: seq<Parcel>, id: nat): (i: nat)
    ensures i <= |parcels|
    ensures i < |parcels| ==> parcels[i].id == id
    ensures forall j :: 0 <= j < i ==> parcels[j].id != id
  {
    if parcels == [] || parcels[0].id == id then 0 else 1 + ParcelIndex(parcels[1..], id)
  }

  /** The position of the order a parcel belongs to, |orders| when there is none. */
  function OrderOfParcel(orders: seq<Order>, id: nat): (k: nat)
    ensures k <= |orders|
    ensures k < |orders| ==> ParcelIndex(orders[k].parcels, id) < |orders[k].parcels|
    ensures forall j :: 0 <= j < k ==> ParcelIndex(orders[j].parcels, id) == |orders[j].parcels|
  {
    if orders == [] || ParcelIndex(orders[0].parcels, id) < |orders[0].parcels| then 0
    else 1 + OrderOfParcel(orders[1..], id)
  }

  predicate AllDelivered(parcels: seq<Parcel>) {
    forall i :: 0 <= i < |parcels| ==> parcels[i].status == ParcelDelivered
  }

  function FailedIds(parcels: seq<Parcel>): seq<nat> {
    if parcels == [] then []
    else (if parcels[0].status == ParcelFailed then [parcels[0].id] else []) + FailedIds(parcels[1..])
  }

  function NoticedOnce(o: Order, kind: NoticeKind, key: NoticeKey): Order {
    if Notice(kind, key) in o.events then o else o.Logged(Notice(kind, key))
  }

  /** What all consignments together say about the order. */
  function Propagated(o: Order): Order {
    var failed := FailedIds(o.parcels);
    if o.status in {Delivered, Refunded, Cancelled} || o.parcels == [] then o
    else if AllDelivered(o.parcels) then
      if o.status != Shipped then NoticedOnce(o, FulfillmentUpdated, DeliveredAwaitingShipped)
      else o.Moved(Delivered)
    else if failed == [] then o
    else if |failed| == |o.parcels| then NoticedOnce(o, FinancialAdjustmentRequired, AllConsignmentsFailed)
    else NoticedOnce(o, FinancialAdjustmentRequired, PartialFailure(failed))
  }

  function Reported(o: Order, i: nat, status: ParcelStatus): Order
    requires i < |o.parcels|
  {
    Propagated(o.(parcels := o.parcels[i := o.parcels[i].(status := status)]).Logged(ParcelReported(status)))
  }
}
