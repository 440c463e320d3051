/** The order service: what every call does to the inventory tables and the orders together. */
module Engine {
  import opened Outcomes
  import opened Inventory
  import opened Orders
  import Text

  /** What stays fixed while orders hold variants, and the auto-confirm switch. */
  datatype Config = Config(catalog: Catalog, autoConfirm: bool)

  /** An order's id is its position; ids of lines and parcels are drawn from two counters. */
  datatype State = State(tables: Tables, orders: seq<Order>, nextItem: nat, nextParcel: nat)

  // Inventory calls for the lines of an order

  datatype Action = Hold | Unhold | Sell | Return

  /** One inventory call; lines whose variant is gone are skipped. */
  function Apply(c: Catalog, s: Tables, a: Action, l: Line): Result<Tables> {
    if l.variant !in c then Success(s)
    else match a
      case Hold => Reserve(c, s, l.variant, l.quantity)
      case Unhold => ReleaseHold(c, s, l.variant, l.quantity)
      case Sell => Commit(c, s, l.variant, l.quantity, l.item)
      case Return => TakeBack(c, s, l.variant, l.quantity, l.item)
  }

  function ApplyAll(c: Catalog, s: Tables, a: Action, lines: seq<Line>): Result<Tables>
    decreases lines
  {
    if lines == [] then Success(s)
    else
      var s1 :- Apply(c, s, a, lines[0]);
      ApplyAll(c, s1, a, lines[1..])
  }

  // Placing an order

  /** Unit price and line total come from the pricing service, as any amounts. */
  datatype Request = Request(variant: nat, quantity: nat, unitPrice: nat, lineTotal: nat)

  datatype Source = Website | Admin

  /** The checks made before anything is written; only the admin form rejects a zero quantity here. */
  function Vetted(c: Catalog, s: Tables, source: Source, requests: seq<Request>): Result<()>
    requires forall r :: r in requests ==> r.variant in c
  {
    if requests == [] then Success(())
    else if source == Admin && requests[0].quantity == 0 then Failure(InvalidArgument)
    else if !Purchasable(c, s, requests[0].variant, requests[0].quantity) then Failure(InsufficientStock)
    else Vetted(c, s, source, requests[1..])
  }

  function NewLines(requests: seq<Request>, nextItem: nat): (lines: seq<Line>)
    ensures |lines| == |requests|
    ensures forall i :: 0 <= i < |lines| ==>
              lines[i].item == nextItem + i && lines[i].variant == requests[i].variant
              && lines[i].quantity == requests[i].quantity && lines[i].lineTotal == requests[i].lineTotal
  {
    seq(|requests|, i requires 0 <= i < |requests| =>
      Line(nextItem + i, requests[i].variant, requests[i].quantity, requests[i].unitPrice, requests[i].lineTotal))
  }

  /** The fulfillment strategies among the requests, in order of first appearance. */
  function Strategies(c: Catalog, requests: seq<Request>): seq<Strategy>
    requires forall r :: r in requests ==> r.variant in c
  {
    if requests == [] then []
    else
      var last := |requests| - 1;
      var before := Strategies(c, requests[..last]);
      var strategy := c[requests[last].variant].strategy;
      if strategy in before then before else before + [strategy]
  }

  function NewParcels(strategies: seq<Strategy>, nextParcel: nat): seq<Parcel> {
    seq(|strategies|, i requires 0 <= i < |strategies| => Parcel(nextParcel + i, strategies[i], ParcelPending))
  }

  function Place(cfg: Config, st: State, source: Source, requests: seq<Request>,
                 shipping: nat, tax: nat, discount: nat, expiresAt: int): Result<State>
  {
    var c := cfg.catalog;
    if requests == [] then Failure(InvalidArgument)
    else if exists i :: 0 <= i < |requests| && requests[i].variant !in c then Failure(InvalidState)
    else
      var _ :- Vetted(c, st.tables, source, requests);
      var lines := NewLines(requests, st.nextItem);
      var parcels := NewParcels(Strategies(c, requests), st.nextParcel);
      var tables :- ApplyAll(c, st.tables, Hold, lines);
      var granted := if source == Admin then 0 else discount;
      var order :- Recalculated(Order(Pending, lines, parcels, shipping, tax, granted, 0, 0, [], [], expiresAt));
      Success(State(tables, st.orders + [order.Logged(StatusChanged(None, Pending))],
                    st.nextItem + |lines|, st.nextParcel + |parcels|))
  }

  // Editing a pending order

  function Editable(st: State, k: nat): Result<Order> {
    if k >= |st.orders| then Failure(NotFound)
    else if st.orders[k].status != Pending then Failure(InvalidState)
    else Success(st.orders[k])
  }

  /** The rewritten order with its totals recalculated and the edit on its timeline. */
  function Edited(st: State, k: nat, tables: Tables, o: Order, e: Event): Result<State>
    requires k < |st.orders|
  {
    var o1 :- Recalculated(o);
    Success(st.(tables := tables, orders := st.orders[k := o1.Logged(e)]))
  }

  function AddItem(cfg: Config, st: State, k: nat, r: Request): Result<State> {
    var o :- Editable(st, k);
    if r.quantity == 0 then Failure(InvalidArgument)
    else if r.variant !in cfg.catalog then Failure(NotFound)
    else
      var l := Line(st.nextItem, r.variant, r.quantity, r.unitPrice, r.lineTotal);
      var tables :- Apply(cfg.catalog, st.tables, Hold, l);
      var st1 :- Edited(st, k, tables, o.(lines := o.lines + [l]), ItemAdded);
      Success(st1.(nextItem := st.nextItem + 1))
  }

  function UpdateItemQuantity(cfg: Config, st: State, k: nat, item: nat, quantity: nat): Result<State> {
    var o :- Editable(st, k);
    var i := IndexOf(o.lines, item);
    if i == |o.lines| then Failure(InvalidState)
    else
      var l := o.lines[i];
      if quantity == 0 then Failure(InvalidArgument)
      else if quantity == l.quantity then Success(st)
      else if l.variant !in cfg.catalog then Failure(InvalidState)
      else
        var tables :- if quantity > l.quantity
          then Apply(cfg.catalog, st.tables, Hold, l.(quantity := quantity - l.quantity))
          else Apply(cfg.catalog, st.tables, Unhold, l.(quantity := l.quantity - quantity));
        var l1 := l.(quantity := quantity, lineTotal := LineTotal(l.unitPrice, quantity));
        Edited(st, k, tables, o.(lines := o.lines[i := l1]), ItemUpdated)
  }

  function RemoveItem(cfg: Config, st: State, k: nat, item: nat): Result<State> {
    var o :- Editable(st, k);
    var i := IndexOf(o.lines, item);
    if i == |o.lines| then Failure(InvalidState)
    else
      var tables :- Apply(cfg.catalog, st.tables, Unhold, o.lines[i]);
      Edited(st, k, tables, o.(lines := o.lines[..i] + o.lines[i + 1..]), ItemRemoved)
  }

  function ChangeItemVariant(cfg: Config, st: State, k: nat, item: nat, to: nat,
                             unitPrice: nat, lineTotal: nat): Result<State>
  {
    var o :- Editable(st, k);
    var i := IndexOf(o.lines, item);
    if i == |o.lines| then Failure(InvalidState)
    else if to !in cfg.catalog then Failure(NotFound)
    else
      var l := o.lines[i];
      if l.variant == to then Success(st)
      else
        var l1 := l.(variant := to, unitPrice := unitPrice, lineTotal := lineTotal);
        var released :- Apply(cfg.catalog, st.tables, Unhold, l);
        var tables :- Apply(cfg.catalog, released, Hold, l1);
        Edited(st, k, tables, o.(lines := o.lines[i := l1]), ItemUpdated)
  }

  function AdjustItemUnitPrice(st: State, k: nat, item: nat, unitPrice: int, reason: string): Result<State> {
    var o :- Editable(st, k);
    var i := IndexOf(o.lines, item);
    if i == |o.lines| then Failure(InvalidState)
    else if Text.Trim(reason) == "" || unitPrice < 0 then Failure(InvalidArgument)
    else
      var l := o.lines[i];
      if l.unitPrice == unitPrice then Success(st)
      else
        var l1 := l.(unitPrice := unitPrice, lineTotal := LineTotal(unitPrice, l.quantity));
        Edited(st, k, st.tables, o.(lines := o.lines[i := l1]), PriceAdjusted)
  }

  function ApplyOrderDiscount(st: State, k: nat, discount: int, reason: string): Result<State> {
    var o :- Editable(st, k);
    if Text.Trim(reason) == "" || discount < 0 then Failure(InvalidArgument)
    else Edited(st, k, st.tables, o.(discount := discount), DiscountAdjusted)
  }

  function UpdateShipping(st: State, k: nat, shipping: int): Result<State> {
    var o :- Editable(st, k);
    if shipping < 0 then Failure(InvalidArgument)
    else Edited(st, k, st.tables, o.(shipping := shipping), ShippingUpdated)
  }

  // Moving an order along

  function Transition(cfg: Config, st: State, k: nat, to: Status): Result<State>
    requires k < |st.orders|
  {
    var o := st.orders[k];
    var tables :-
      if to == Confirmed then ApplyAll(cfg.catalog, st.tables, Sell, o.lines)
      else if to == Cancelled && o.status == Pending then ApplyAll(cfg.catalog, st.tables, Unhold, o.lines)
      else if to == Cancelled && o.status in {Confirmed, Processing, Shipped}
        then ApplyAll(cfg.catalog, st.tables, Return, o.lines)
      else Success(st.tables);
    Success(st.(tables := tables, orders := st.orders[k := o.Moved(to)]))
  }

  function UpdateStatus(cfg: Config, st: State, k: nat, to: Status): Result<State> {
    if k >= |st.orders| then Failure(NotFound)
    else if to !in st.orders[k].status.AllowedNext() then Failure(InvalidTransition)
    else Transition(cfg, st, k, to)
  }

  /** Cancels the order when it is still pending, and otherwise does nothing. */
  function ClaimPending(cfg: Config, st: State, k: nat): Result<State> {
    if k < |st.orders| && st.orders[k].status == Pending then Transition(cfg, st, k, Cancelled) else Success(st)
  }

  predicate Expired(o: Order, now: int) {
    o.status == Pending && o.expiresAt < now
  }

  /** The sweep over the orders from position `k` on. */
  function ReleaseExpired(cfg: Config, st: State, now: int, k: nat): Result<State>
    requires k <= |st.orders|
    decreases |st.orders| - k
  {
    if k == |st.orders| then Success(st)
    else if !Expired(st.orders[k], now) then ReleaseExpired(cfg, st, now, k + 1)
    else
      var st1 :- ClaimPending(cfg, st, k);
      ReleaseExpired(cfg, st1, now, k + 1)
  }

  // Money

  function RecordPayment(cfg: Config, st: State, k: nat, amount: int, status: PaymentStatus,
                         reference: Option<string>): Result<State>
  {
    if k >= |st.orders| then Failure(NotFound)
    else
      var o := st.orders[k];
      var paid := o.AmountPaid();
      if amount <= 0 || o.status == Cancelled then Failure(InvalidState)
      else if status == PaymentPaid && amount > o.grandTotal - paid then Failure(InvalidState)
      else if HasReference(st.orders, reference) then Failure(DuplicateReference)
      else
        var o1 := o.(payments := o.payments + [Payment(amount, status, reference)]).Logged(PaymentRecorded);
        var st1 := st.(orders := st.orders[k := o1]);
        if status == PaymentPaid && o.status == Pending && cfg.autoConfirm && paid + amount >= o.grandTotal
        then UpdateStatus(cfg, st1, k, Confirmed)
        else Success(st1)
  }

  function CodReference(parcel: nat): Option<string> {
    Some("cod:" + Text.Decimal(parcel))
  }

  /** Cash collected for one consignment; booking it again changes nothing. */
  function RecordCodCollection(cfg: Config, st: State, parcel: nat, amount: int): Result<State> {
    var k := OrderOfParcel(st.orders, parcel);
    if k == |st.orders| then Failure(NotFound)
    else if HasReference([st.orders[k]], CodReference(parcel)) then Success(st)
    else
      var r := RecordPayment(cfg, st, k, amount, PaymentPaid, CodReference(parcel));
      if r == Failure(DuplicateReference) then Success(st) else r
  }

  function Refund(cfg: Config, st: State, k: nat, amount: int, reason: string,
                  reference: Option<string>, restock: bool): Result<State>
  {
    if Text.Trim(reason) == "" then Failure(InvalidArgument)
    else if k >= |st.orders| then Failure(NotFound)
    else
      var o := st.orders[k];
      var paid, refunded := o.AmountPaid(), o.AmountRefunded();
      var full := refunded + amount >= paid;
      if amount <= 0 || amount > paid - refunded then Failure(InvalidState)
      else if restock && (o.status != Delivered || !full) then Failure(InvalidState)
      else if HasReference(st.orders, reference) then Failure(DuplicateReference)
      else
        var tables :- if restock then ApplyAll(cfg.catalog, st.tables, Return, o.lines) else Success(st.tables);
        var o1 := o.(payments := o.payments + [Payment(amount, PaymentRefunded, reference)])
                   .Logged(RefundRecorded(restock));
        var st1 := st.(tables := tables, orders := st.orders[k := o1]);
        if full && o.status in {Cancelled, Delivered} then UpdateStatus(cfg, st1, k, Refunded) else Success(st1)
  }

  // Couriers

  function UpdateFulfillment(st: State, parcel: nat, status: ParcelStatus): Result<State> {
    var k := OrderOfParcel(st.orders, parcel);
    if k == |st.orders| then Failure(NotFound)
    else
      var o := st.orders[k];
      Success(st.(orders := st.orders[k := Reported(o, ParcelIndex(o.parcels, parcel), status)]))
  }

  // Payment gateway

  /** State after a callback and the exception that reached the webhook, if any. */
  datatype Delivery = Delivery(state: State, thrown: Option<Error>)

  /** Keeps `before` when the transaction rolled back. */
  function Committed(before: State, r: Result<State>): Delivery {
    match r
    case Success(st) => Delivery(st, None)
    case Failure(e) => Delivery(before, Some(e))
  }

  function HandleCallback(cfg: Config, st: State, k: nat, tran: string, valid: bool,
                          amount: Option<int>): Delivery
  {
    if k >= |st.orders| || HasReference(st.orders, Some(tran)) then Delivery(st, None)
    else
      var o := st.orders[k];
      var reported := if amount.Some? then amount.value else 0;
      var booked := if amount.Some? then amount.value else o.grandTotal;
      var status := if valid && reported == o.grandTotal then PaymentPaid else PaymentFailed;
      match RecordPayment(cfg, st, k, booked, status, Some(tran))
      case Failure(e) => Delivery(st, if e in {DuplicateReference, InvalidState} then None else Some(e))
      case Success(st1) =>
        if status == PaymentFailed then Committed(st1, ClaimPending(cfg, st1, k))
        else if o.status == Pending then Committed(st1, UpdateStatus(cfg, st1, k, Confirmed))
        else Delivery(st1, None)
  }

  function MarkFailed(cfg: Config, st: State, k: nat, tran: string): Delivery {
    if k >= |st.orders| || HasReference(st.orders, Some(tran)) then Delivery(st, None)
    else
      match RecordPayment(cfg, st, k, st.orders[k].grandTotal, PaymentFailed, Some(tran))
      case Failure(e) => Delivery(st, if e in {DuplicateReference, InvalidState} then None else Some(e))
      case Success(st1) => Committed(st1, ClaimPending(cfg, st1, k))
  }

  // Runs

  datatype Op =
    | OpPlace(source: Source, requests: seq<Request>, shipping: nat, tax: nat, discount: nat, expiresAt: int)
    | OpAddItem(k: nat, request: Request)
    | OpUpdateItemQuantity(k: nat, item: nat, quantity: nat)
    | OpRemoveItem(k: nat, item: nat)
    | OpChangeItemVariant(k: nat, item: nat, to: nat, unitPrice: nat, lineTotal: nat)
    | OpAdjustItemUnitPrice(k: nat, item: nat, price: int, reason: string)
    | OpApplyOrderDiscount(k: nat, amount: int, reason: string)
    | OpUpdateShipping(k: nat, amount: int)
    | OpUpdateStatus(k: nat, status: Status)
    | OpClaimPending(k: nat)
    | OpReleaseExpired(now: int)
    | OpRecordPayment(k: nat, amount: int, how: PaymentStatus, reference: Option<string>)
    | OpRecordCodCollection(parcel: nat, amount: int)
    | OpRefund(k: nat, amount: int, reason: string, reference: Option<string>, restock: bool)
    | OpUpdateFulfillment(parcel: nat, report: ParcelStatus)
    | OpHandleCallback(k: nat, tran: string, valid: bool, received: Option<int>)
    | OpMarkFailed(k: nat, tran: string)
    | OpRestock(variant: nat, change: int)
    | OpAdjust(variant: nat, change: int)
    | OpReceiveSerial(variant: nat)

  function WithTables(st: State, r: Result<Tables>): Result<State> {
    var tables :- r;
    Success(st.(tables := tables))
  }

  function Call(cfg: Config, st: State, op: Op): Delivery {
    match op
    case OpPlace(source, requests, shipping, tax, discount, expiresAt) =>
      Committed(st, Place(cfg, st, source, requests, shipping, tax, discount, expiresAt))
    case OpAddItem(k, r) => Committed(st, AddItem(cfg, st, k, r))
    case OpUpdateItemQuantity(k, item, quantity) => Committed(st, UpdateItemQuantity(cfg, st, k, item, quantity))
    case OpRemoveItem(k, item) => Committed(st, RemoveItem(cfg, st, k, item))
    case OpChangeItemVariant(k, item, to, unitPrice, lineTotal) =>
      Committed(st, ChangeItemVariant(cfg, st, k, item, to, unitPrice, lineTotal))
    case OpAdjustItemUnitPrice(k, item, price, reason) => Committed(st, AdjustItemUnitPrice(st, k, item, price, reason))
    case OpApplyOrderDiscount(k, amount, reason) => Committed(st, ApplyOrderDiscount(st, k, amount, reason))
    case OpUpdateShipping(k, amount) => Committed(st, UpdateShipping(st, k, amount))
    case OpUpdateStatus(k, to) => Committed(st, UpdateStatus(cfg, st, k, to))
    case OpClaimPending(k) => Committed(st, ClaimPending(cfg, st, k))
    case OpReleaseExpired(now) => Committed(st, ReleaseExpired(cfg, st, now, 0))
    case OpRecordPayment(k, amount, how, reference) => Committed(st, RecordPayment(cfg, st, k, amount, how, reference))
    case OpRecordCodCollection(parcel, amount) => Committed(st, RecordCodCollection(cfg, st, parcel, amount))
    case OpRefund(k, amount, reason, reference, restock) =>
      Committed(st, Refund(cfg, st, k, amount, reason, reference, restock))
    case OpUpdateFulfillment(parcel, report) => Committed(st, UpdateFulfillment(st, parcel, report))
    case OpHandleCallback(k, tran, valid, received) => HandleCallback(cfg, st, k, tran, valid, received)
    case OpMarkFailed(k, tran) => MarkFailed(cfg, st, k, tran)
    case OpRestock(v, change) => Committed(st, WithTables(st, Restock(cfg.catalog, st.tables, v, change)))
    case OpAdjust(v, change) => Committed(st, WithTables(st, Adjust(cfg.catalog, st.tables, v, change)))
    case OpReceiveSerial(v) => Delivery(st.(tables := ReceiveSerial(st.tables, v)), None)
  }

  function Step(cfg: Config, st: State, op: Op): State {
    Call(cfg, st, op).state
  }

  /** The state after a run of calls, whatever each of them threw. */
  function Run(cfg: Config, st: State, ops: seq<Op>): State
    decreases ops
  {
    if ops == [] then st else Run(cfg, Step(cfg, st, ops[0]), ops[1..])
  }
}
