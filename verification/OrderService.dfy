/**
 The order service and the gateway service as they run: order rows updated in place, loops over
 an order's lines, and a rollback when an exception leaves the transaction.
 */
module OrderService {
  import opened Outcomes
  import opened Inventory
  import opened Orders
  import opened Engine
  import InventoryService
  import Text

  /** A call either commits its result, or throws and leaves the database as it was. */
  predicate Ends(before: State, r: Result<State>, outcome: Outcome, after: State) {
    match r
    case Success(st) => outcome == Done && after == st
    case Failure(e) => outcome == Thrown(e) && after == before
  }

  /** The same before the rollback: what an exception left behind does not matter. */
  predicate Throws(r: Result<State>, outcome: Outcome, after: State) {
    match r
    case Success(st) => outcome == Done && after == st
    case Failure(e) => outcome == Thrown(e)
  }

  class Service {
    const autoConfirm: bool
    const inventory: InventoryService.Service
    var orders: seq<Order>
    var nextItem: nat
    var nextParcel: nat

    constructor (cfg: Config, st: State)
      ensures fresh(inventory) && Cfg() == cfg && Now() == st
    {
      autoConfirm := cfg.autoConfirm;
      inventory := new InventoryService.Service(cfg.catalog, st.tables);
      orders, nextItem, nextParcel := st.orders, st.nextItem, st.nextParcel;
    }

    function Cfg(): Config {
      Config(inventory.catalog, autoConfirm)
    }

    function Now(): State
      reads this, inventory
    {
      State(inventory.Now(), orders, nextItem, nextParcel)
    }

    method RollBack(st: State)
      modifies this, inventory
      ensures Now() == st
    {
      inventory.RollBack(st.tables);
      orders, nextItem, nextParcel := st.orders, st.nextItem, st.nextParcel;
    }

    // Steps inside a transaction

    method Act(a: Action, l: Line) returns (outcome: Outcome)
      modifies inventory
      ensures InventoryService.Ends(old(inventory.Now()), Apply(inventory.catalog, old(inventory.Now()), a, l),
                                    outcome, inventory.Now())
    {
      if l.variant !in inventory.catalog {
        return Done;
      }
      match a
      case Hold => outcome := inventory.Reserve(l.variant, l.quantity);
      case Unhold => outcome := inventory.Release(l.variant, l.quantity);
      case Sell => outcome := inventory.Commit(l.variant, l.quantity, l.item);
      case Return => outcome := inventory.RestockFromCancellation(l.variant, l.quantity, l.item);
    }

    /** The loop over the items of an order, stopped by the first exception. */
    method ActOnItems(a: Action, lines: seq<Line>) returns (outcome: Outcome)
      modifies inventory
      ensures match ApplyAll(inventory.catalog, old(inventory.Now()), a, lines)
              case Success(s) => outcome == Done && inventory.Now() == s
              case Failure(e) => outcome == Thrown(e)
    {
      var i := 0;
      while i < |lines|
        invariant 0 <= i <= |lines|
        invariant ApplyAll(inventory.catalog, inventory.Now(), a, lines[i..])
               == ApplyAll(inventory.catalog, old(inventory.Now()), a, lines)
      {
        assert lines[i..][1..] == lines[i + 1..];
        outcome := Act(a, lines[i]);
        if outcome.Thrown? {
          return;
        }
        i := i + 1;
      }
      return Done;
    }

    method LogEvent(k: nat, e: Event)
      requires k < |orders|
      modifies this`orders
      ensures orders == old(orders)[k := old(orders[k]).Logged(e)]
    {
      orders := orders[k := orders[k].(events := orders[k].events + [e])];
    }

    method RecalculateTotals(k: nat) returns (outcome: Outcome)
      requires k < |orders|
      modifies this`orders
      ensures match Recalculated(old(orders[k]))
              case Success(o) => outcome == Done && orders == old(orders)[k := o]
              case Failure(e) => outcome == Thrown(e)
    {
      var o := orders[k];
      var subtotal := SumOfLines(o.lines);
      if o.discount > subtotal {
        return Thrown(InvalidState);
      }
      var grandTotal := subtotal + o.shipping + o.tax - o.discount;
      if grandTotal < o.AmountPaid() {
        return Thrown(InvalidState);
      }
      orders := orders[k := o.(subtotal := subtotal, grandTotal := grandTotal)];
      return Done;
    }

    method ApplyStatusTransition(k: nat, to: Status) returns (outcome: Outcome)
      requires k < |orders|
      modifies this, inventory
      ensures Throws(Transition(Cfg(), old(Now()), k, to), outcome, Now())
    {
      var from := orders[k].status;
      var lines := orders[k].lines;
      orders := orders[k := orders[k].(status := to)];
      outcome := Done;
      if to == Confirmed {
        outcome := ActOnItems(Sell, lines);
      } else if to == Cancelled && from == Pending {
        outcome := ActOnItems(Unhold, lines);
      } else if to == Cancelled && from in {Confirmed, Processing, Shipped} {
        outcome := ActOnItems(Return, lines);
      }
      if outcome.Thrown? {
        return;
      }
      if to == Cancelled && orders[k].AmountPaid() > 0 {
        LogEvent(k, RefundRequired);
      }
      LogEvent(k, StatusChanged(Some(from), to));
    }

    // Placing an order

    method CheckPurchasable(source: Source, requests: seq<Request>) returns (outcome: Outcome)
      requires forall r :: r in requests ==> r.variant in inventory.catalog
      ensures match Vetted(inventory.catalog, inventory.Now(), source, requests)
              case Success(_) => outcome == Done
              case Failure(e) => outcome == Thrown(e)
    {
      var i := 0;
      while i < |requests|
        invariant 0 <= i <= |requests|
        invariant Vetted(inventory.catalog, inventory.Now(), source, requests[i..])
               == Vetted(inventory.catalog, inventory.Now(), source, requests)
      {
        assert requests[i..][1..] == requests[i + 1..];
        assert requests[i] in requests;
        if source == Admin && requests[i].quantity == 0 {
          return Thrown(InvalidArgument);
        }
        if !Purchasable(inventory.catalog, inventory.Now(), requests[i].variant, requests[i].quantity) {
          return Thrown(InsufficientStock);
        }
        i := i + 1;
      }
      return Done;
    }

    /** One consignment per fulfillment strategy, in the order the strategies appear. */
    method CreateFulfillments(requests: seq<Request>) returns (parcels: seq<Parcel>)
      requires forall r :: r in requests ==> r.variant in inventory.catalog
      ensures parcels == NewParcels(Strategies(inventory.catalog, requests), nextParcel)
    {
      parcels := [];
      ghost var strategies := [];
      var i := 0;
      while i < |requests|
        invariant 0 <= i <= |requests|
        invariant strategies == Strategies(inventory.catalog, requests[..i])
        invariant parcels == NewParcels(strategies, nextParcel)
      {
        assert requests[..i + 1][..i] == requests[..i] && requests[i] in requests;
        var strategy := inventory.catalog[requests[i].variant].strategy;
        var known := false;
        var j := 0;
        while j < |parcels|
          invariant 0 <= j <= |parcels|
          invariant known <==> strategy in strategies[..j]
        {
          if parcels[j].strategy == strategy {
            known := true;
          }
          j := j + 1;
        }
        assert strategies[..|parcels|] == strategies;
        if !known {
          parcels := parcels + [Parcel(nextParcel + |parcels|, strategy, ParcelPending)];
          strategies := strategies + [strategy];
        }
        i := i + 1;
      }
      assert requests[..|requests|] == requests;
    }

    /** Creates the items and reserves each of them. */
    method CreateItems(requests: seq<Request>) returns (outcome: Outcome, lines: seq<Line>)
      modifies inventory
      ensures match ApplyAll(inventory.catalog, old(inventory.Now()), Hold, NewLines(requests, nextItem))
              case Success(s) => outcome == Done && lines == NewLines(requests, nextItem) && inventory.Now() == s
              case Failure(e) => outcome == Thrown(e)
    {
      lines := [];
      ghost var all := NewLines(requests, nextItem);
      var i := 0;
      while i < |requests|
        invariant 0 <= i <= |requests| && lines == all[..i]
        invariant ApplyAll(inventory.catalog, inventory.Now(), Hold, all[i..])
               == ApplyAll(inventory.catalog, old(inventory.Now()), Hold, all)
      {
        var r := requests[i];
        var l := Line(nextItem + i, r.variant, r.quantity, r.unitPrice, r.lineTotal);
        assert l == all[i] && all[i..][1..] == all[i + 1..];
        lines := lines + [l];
        outcome := Act(Hold, l);
        if outcome.Thrown? {
          return;
        }
        i := i + 1;
      }
      outcome := Done;
    }

    method Place(source: Source, requests: seq<Request>, shipping: nat, tax: nat, discount: nat, expiresAt: int)
      returns (outcome: Outcome)
      modifies this, inventory
      ensures Ends(old(Now()), Engine.Place(Cfg(), old(Now()), source, requests, shipping, tax, discount, expiresAt),
                   outcome, Now())
    {
      if requests == [] {
        return Thrown(InvalidArgument);
      }
      if exists i :: 0 <= i < |requests| && requests[i].variant !in inventory.catalog {
        return Thrown(InvalidState);
      }
      outcome := CheckPurchasable(source, requests);
      if outcome.Thrown? {
        return;
      }
      var before := Now();
      var parcels := CreateFulfillments(requests);
      var lines;
      outcome, lines := CreateItems(requests);
      if outcome.Thrown? {
        RollBack(before);
        return;
      }
      var granted := if source == Admin then 0 else discount;
      outcome := FinishOrder(Order(Pending, lines, parcels, shipping, tax, granted, 0, 0, [], [], expiresAt), before);
    }

    /** Stores the order with its items and consignments, and derives its totals. */
    method FinishOrder(o: Order, before: State) returns (outcome: Outcome)
      modifies this, inventory
      ensures match Recalculated(o)
              case Success(o1) =>
                outcome == Done &&
                Now() == State(old(inventory.Now()), old(orders) + [o1.Logged(StatusChanged(None, Pending))],
                               old(nextItem) + |o.lines|, old(nextParcel) + |o.parcels|)
              case Failure(e) => outcome == Thrown(e) && Now() == before
    {
      orders, nextItem, nextParcel := orders + [o], nextItem + |o.lines|, nextParcel + |o.parcels|;
      outcome := RecalculateTotals(|orders| - 1);
      if outcome.Thrown? {
        RollBack(before);
        return;
      }
      LogEvent(|orders| - 1, StatusChanged(None, Pending));
    }

    // Editing a pending order

    method FinishEdit(k: nat, e: Event, before: State) returns (outcome: Outcome)
      requires k < |orders|
      modifies this, inventory
      ensures match Recalculated(old(orders[k]))
              case Success(o) => outcome == Done && Now() == old(Now()).(orders := old(orders)[k := o.Logged(e)])
              case Failure(error) => outcome == Thrown(error) && Now() == before
    {
      outcome := RecalculateTotals(k);
      if outcome.Thrown? {
        RollBack(before);
        return;
      }
      LogEvent(k, e);
    }

    method AddItem(k: nat, r: Request) returns (outcome: Outcome)
      modifies this, inventory
      ensures Ends(old(Now()), Engine.AddItem(Cfg(), old(Now()), k, r), outcome, Now())
    {
      if k >= |orders| {
        return Thrown(NotFound);
      }
      if orders[k].status != Pending {
        return Thrown(InvalidState);
      }
      if r.quantity == 0 {
        return Thrown(InvalidArgument);
      }
      if r.variant !in inventory.catalog {
        return Thrown(NotFound);
      }
      var before := Now();
      var l := Line(nextItem, r.variant, r.quantity, r.unitPrice, r.lineTotal);
      outcome := Act(Hold, l);
      if outcome.Thrown? {
        return;
      }
      orders := orders[k := orders[k].(lines := orders[k].lines + [l])];
      nextItem := nextItem + 1;
      outcome := FinishEdit(k, ItemAdded, before);
    }

    method UpdateItemQuantity(k: nat, item: nat, quantity: nat) returns (outcome: Outcome)
      modifies this, inventory
      ensures Ends(old(Now()), Engine.UpdateItemQuantity(Cfg(), old(Now()), k, item, quantity), outcome, Now())
    {
      if k >= |orders| {
        return Thrown(NotFound);
      }
      var o := orders[k];
      var i := IndexOf(o.lines, item);
      if o.status != Pending || i == |o.lines| {
        return Thrown(InvalidState);
      }
      var l := o.lines[i];
      if quantity == 0 {
        return Thrown(InvalidArgument);
      }
      if quantity == l.quantity {
        return Done;
      }
      if l.variant !in inventory.catalog {
        return Thrown(InvalidState);
      }
      var before := Now();
      if quantity > l.quantity {
        outcome := Act(Hold, l.(quantity := quantity - l.quantity));
      } else {
        outcome := Act(Unhold, l.(quantity := l.quantity - quantity));
      }
      if outcome.Thrown? {
        return;
      }
      var l1 := l.(quantity := quantity, lineTotal := LineTotal(l.unitPrice, quantity));
      orders := orders[k := o.(lines := o.lines[i := l1])];
      outcome := FinishEdit(k, ItemUpdated, before);
    }

    method RemoveItem(k: nat, item: nat) returns (outcome: Outcome)
      modifies this, inventory
      ensures Ends(old(Now()), Engine.RemoveItem(Cfg(), old(Now()), k, item), outcome, Now())
    {
      if k >= |orders| {
        return Thrown(NotFound);
      }
      var o := orders[k];
      var i := IndexOf(o.lines, item);
      if o.status != Pending || i == |o.lines| {
        return Thrown(InvalidState);
      }
      var before := Now();
      outcome := Act(Unhold, o.lines[i]);
      if outcome.Thrown? {
        return;
      }
      orders := orders[k := o.(lines := o.lines[..i] + o.lines[i + 1..])];
      outcome := FinishEdit(k, ItemRemoved, before);
    }

    method ChangeItemVariant(k: nat, item: nat, to: nat, unitPrice: nat, lineTotal: nat) returns (outcome: Outcome)
      modifies this, inventory
      ensures Ends(old(Now()), Engine.ChangeItemVariant(Cfg(), old(Now()), k, item, to, unitPrice, lineTotal), outcome, Now())
    {
      if k >= |orders| {
        return Thrown(NotFound);
      }
      var o := orders[k];
      var i := IndexOf(o.lines, item);
      if o.status != Pending || i == |o.lines| {
        return Thrown(InvalidState);
      }
      if to !in inventory.catalog {
        return Thrown(NotFound);
      }
      var l := o.lines[i];
      if l.variant == to {
        return Done;
      }
      var before := Now();
      var l1 := l.(variant := to, unitPrice := unitPrice, lineTotal := lineTotal);
      outcome := Act(Unhold, l);
      if outcome.Done? {
        outcome := Act(Hold, l1);
      }
      if outcome.Thrown? {
        RollBack(before);
        return;
      }
      orders := orders[k := o.(lines := o.lines[i := l1])];
      outcome := FinishEdit(k, ItemUpdated, before);
    }

    method AdjustItemUnitPrice(k: nat, item: nat, unitPrice: int, reason: string) returns (outcome: Outcome)
      modifies this, inventory
      ensures Ends(old(Now()), Engine.AdjustItemUnitPrice(old(Now()), k, item, unitPrice, reason), outcome, Now())
    {
      if k >= |orders| {
        return Thrown(NotFound);
      }
      var o := orders[k];
      var i := IndexOf(o.lines, item);
      if o.status != Pending || i == |o.lines| {
        return Thrown(InvalidState);
      }
      if Text.Trim(reason) == "" || unitPrice < 0 {
        return Thrown(InvalidArgument);
      }
      var l := o.lines[i];
      if l.unitPrice == unitPrice {
        return Done;
      }
      var before := Now();
      var l1 := l.(unitPrice := unitPrice, lineTotal := LineTotal(unitPrice, l.quantity));
      orders := orders[k := o.(lines := o.lines[i := l1])];
      outcome := FinishEdit(k, PriceAdjusted, before);
    }

    method ApplyOrderDiscount(k: nat, discount: int, reason: string) returns (outcome: Outcome)
      modifies this, inventory
      ensures Ends(old(Now()), Engine.ApplyOrderDiscount(old(Now()), k, discount, reason), outcome, Now())
    {
      if k >= |orders| {
        return Thrown(NotFound);
      }
      if orders[k].status != Pending {
        return Thrown(InvalidState);
      }
      if Text.Trim(reason) == "" || discount < 0 {
        return Thrown(InvalidArgument);
      }
      var before := Now();
      orders := orders[k := orders[k].(discount := discount)];
      outcome := FinishEdit(k, DiscountAdjusted, before);
    }

    method UpdateShipping(k: nat, shipping: int) returns (outcome: Outcome)
      modifies this, inventory
      ensures Ends(old(Now()), Engine.UpdateShipping(old(Now()), k, shipping), outcome, Now())
    {
      if k >= |orders| {
        return Thrown(NotFound);
      }
      if orders[k].status != Pending {
        return Thrown(InvalidState);
      }
      if shipping < 0 {
        return Thrown(InvalidArgument);
      }
      var before := Now();
      orders := orders[k := orders[k].(shipping := shipping)];
      outcome := FinishEdit(k, ShippingUpdated, before);
    }

    // Moving an order along

    method UpdateStatus(k: nat, to: Status) returns (outcome: Outcome)
      modifies this, inventory
      ensures Ends(old(Now()), Engine.UpdateStatus(Cfg(), old(Now()), k, to), outcome, Now())
    {
      if k >= |orders| {
        return Thrown(NotFound);
      }
      if to !in orders[k].status.AllowedNext() {
        return Thrown(InvalidTransition);
      }
      var before := Now();
      outcome := ApplyStatusTransition(k, to);
      if outcome.Thrown? {
        RollBack(before);
      }
    }

    method ClaimPendingOrder(k: nat) returns (outcome: Outcome)
      modifies this, inventory
      ensures Ends(old(Now()), ClaimPending(Cfg(), old(Now()), k), outcome, Now())
    {
      if k >= |orders| || orders[k].status != Pending {
        return Done;
      }
      var before := Now();
      outcome := ApplyStatusTransition(k, Cancelled);
      if outcome.Thrown? {
        RollBack(before);
      }
    }

    method ReleaseExpiredReservations(now: int) returns (outcome: Outcome)
      modifies this, inventory
      ensures Ends(old(Now()), ReleaseExpired(Cfg(), old(Now()), now, 0), outcome, Now())
    {
      var before := Now();
      var k := 0;
      while k < |orders|
        invariant 0 <= k <= |orders|
        invariant ReleaseExpired(Cfg(), Now(), now, k) == ReleaseExpired(Cfg(), before, now, 0)
        decreases |orders| - k
      {
        if Expired(orders[k], now) {
          ghost var n := |orders|;
          outcome := ClaimPendingOrder(k);
          if outcome.Thrown? {
            RollBack(before);
            return;
          }
          assert |orders| == n;
        }
        k := k + 1;
      }
      return Done;
    }

    // Money

    method RecordPayment(k: nat, amount: int, status: PaymentStatus, reference: Option<string>) returns (outcome: Outcome)
      modifies this, inventory
      ensures Ends(old(Now()), Engine.RecordPayment(Cfg(), old(Now()), k, amount, status, reference), outcome, Now())
    {
      if k >= |orders| {
        return Thrown(NotFound);
      }
      if amount <= 0 || orders[k].status == Cancelled {
        return Thrown(InvalidState);
      }
      var paid := orders[k].AmountPaid();
      var grandTotal := orders[k].grandTotal;
      if status == PaymentPaid && amount > grandTotal - paid {
        return Thrown(InvalidState);
      }
      if HasReference(orders, reference) {
        return Thrown(DuplicateReference);
      }
      var before := Now();
      orders := orders[k := orders[k].(payments := orders[k].payments + [Payment(amount, status, reference)])];
      LogEvent(k, PaymentRecorded);
      if status == PaymentPaid && orders[k].status == Pending && autoConfirm && paid + amount >= grandTotal {
        outcome := UpdateStatus(k, Confirmed);
        if outcome.Thrown? {
          RollBack(before);
        }
        return;
      }
      return Done;
    }

    method RecordCodCollection(parcel: nat, amount: int) returns (outcome: Outcome)
      modifies this, inventory
      ensures Ends(old(Now()), Engine.RecordCodCollection(Cfg(), old(Now()), parcel, amount), outcome, Now())
    {
      var k := OrderOfParcel(orders, parcel);
      if k == |orders| {
        return Thrown(NotFound);
      }
      if HasReference([orders[k]], CodReference(parcel)) {
        return Done;
      }
      outcome := RecordPayment(k, amount, PaymentPaid, CodReference(parcel));
      if outcome == Thrown(DuplicateReference) {
        return Done;
      }
    }

    method Refund(k: nat, amount: int, reason: string, reference: Option<string>, restock: bool) returns (outcome: Outcome)
      modifies this, inventory
      ensures Ends(old(Now()), Engine.Refund(Cfg(), old(Now()), k, amount, reason, reference, restock), outcome, Now())
    {
      if Text.Trim(reason) == "" {
        return Thrown(InvalidArgument);
      }
      if k >= |orders| {
        return Thrown(NotFound);
      }
      var paid, refunded := orders[k].AmountPaid(), orders[k].AmountRefunded();
      if amount <= 0 || amount > paid - refunded {
        return Thrown(InvalidState);
      }
      var full := refunded + amount >= paid;
      if restock && (orders[k].status != Delivered || !full) {
        return Thrown(InvalidState);
      }
      if HasReference(orders, reference) {
        return Thrown(DuplicateReference);
      }
      var before := Now();
      outcome := BookRefund(k, amount, reference, restock);
      if outcome.Done? && full && orders[k].status in {Cancelled, Delivered} {
        outcome := UpdateOrRollBack(k, Refunded, before);
      }
    }

    /** The refund row, and the goods when they are taken back. */
    method BookRefund(k: nat, amount: int, reference: Option<string>, restock: bool) returns (outcome: Outcome)
      requires k < |orders|
      modifies this, inventory
      ensures var o, before := old(orders[k]), old(Now());
              match (if restock then ApplyAll(Cfg().catalog, before.tables, Return, o.lines) else Success(before.tables))
              case Failure(e) => outcome == Thrown(e) && Now() == before
              case Success(tables) =>
                && outcome == Done
                && var o1 := o.(payments := o.payments + [Payment(amount, PaymentRefunded, reference)]);
                   Now() == before.(tables := tables, orders := before.orders[k := o1.Logged(RefundRecorded(restock))])
    {
      var before := Now();
      orders := orders[k := orders[k].(payments := orders[k].payments + [Payment(amount, PaymentRefunded, reference)])];
      if restock {
        outcome := ActOnItems(Return, orders[k].lines);
        if outcome.Thrown? {
          RollBack(before);
          return;
        }
      }
      LogEvent(k, RefundRecorded(restock));
      outcome := Done;
    }

    /** A transition at the end of a transaction that began in `before`. */
    method UpdateOrRollBack(k: nat, to: Status, before: State) returns (outcome: Outcome)
      modifies this, inventory
      ensures match Engine.UpdateStatus(Cfg(), old(Now()), k, to)
              case Success(st) => outcome == Done && Now() == st
              case Failure(e) => outcome == Thrown(e) && Now() == before
    {
      outcome := UpdateStatus(k, to);
      if outcome.Thrown? {
        RollBack(before);
      }
    }

    // Couriers

    method LogPropagationOnce(k: nat, kind: NoticeKind, key: NoticeKey)
      requires k < |orders|
      modifies this`orders
      ensures orders == old(orders)[k := NoticedOnce(old(orders[k]), kind, key)]
    {
      if Notice(kind, key) !in orders[k].events {
        LogEvent(k, Notice(kind, key));
      }
    }

    method PropagateFulfillment(k: nat)
      requires k < |orders|
      modifies this, inventory
      ensures Now() == old(Now()).(orders := old(orders)[k := Propagated(old(orders[k]))])
    {
      var o := orders[k];
      if o.status in {Delivered, Refunded, Cancelled} || o.parcels == [] {
        return;
      }
      if AllDelivered(o.parcels) {
        if o.status != Shipped {
          LogPropagationOnce(k, FulfillmentUpdated, DeliveredAwaitingShipped);
        } else {
          var _ := ApplyStatusTransition(k, Delivered);
        }
        return;
      }
      var failed := FailedIds(o.parcels);
      if failed == [] {
        return;
      }
      if |failed| == |o.parcels| {
        LogPropagationOnce(k, FinancialAdjustmentRequired, AllConsignmentsFailed);
      } else {
        LogPropagationOnce(k, FinancialAdjustmentRequired, PartialFailure(failed));
      }
    }

    method UpdateFulfillment(parcel: nat, status: ParcelStatus) returns (outcome: Outcome)
      modifies this, inventory
      ensures Ends(old(Now()), Engine.UpdateFulfillment(old(Now()), parcel, status), outcome, Now())
    {
      var k := OrderOfParcel(orders, parcel);
      if k == |orders| {
        return Thrown(NotFound);
      }
      var i := ParcelIndex(orders[k].parcels, parcel);
      orders := orders[k := orders[k].(parcels := orders[k].parcels[i := orders[k].parcels[i].(status := status)])];
      LogEvent(k, ParcelReported(status));
      PropagateFulfillment(k);
      return Done;
    }

    // Payment gateway: one transaction after the other, and some exceptions are swallowed

    /** What reached the webhook. */
    static function Escaped(outcome: Outcome): Option<Error> {
      if outcome.Thrown? then Some(outcome.error) else None
    }

    method HandleCallback(k: nat, tran: string, valid: bool, amount: Option<int>) returns (thrown: Option<Error>)
      modifies this, inventory
      ensures Delivery(Now(), thrown) == Engine.HandleCallback(Cfg(), old(Now()), k, tran, valid, amount)
    {
      if k >= |orders| || HasReference(orders, Some(tran)) {
        return None;
      }
      var wasPending := orders[k].status == Pending;
      var grandTotal := orders[k].grandTotal;
      var reported := if amount.Some? then amount.value else 0;
      var booked := if amount.Some? then amount.value else grandTotal;
      var status := if valid && reported == grandTotal then PaymentPaid else PaymentFailed;
      var outcome := RecordPayment(k, booked, status, Some(tran));
      if outcome.Thrown? {
        return if outcome.error in {DuplicateReference, InvalidState} then None else Some(outcome.error);
      }
      if status == PaymentFailed {
        outcome := ClaimPendingOrder(k);
      } else if wasPending {
        outcome := UpdateStatus(k, Confirmed);
      }
      return Escaped(outcome);
    }

    method MarkFailed(k: nat, tran: string) returns (thrown: Option<Error>)
      modifies this, inventory
      ensures Delivery(Now(), thrown) == Engine.MarkFailed(Cfg(), old(Now()), k, tran)
    {
      if k >= |orders| || HasReference(orders, Some(tran)) {
        return None;
      }
      var outcome := RecordPayment(k, orders[k].grandTotal, PaymentFailed, Some(tran));
      if outcome.Thrown? {
        return if outcome.error in {DuplicateReference, InvalidState} then None else Some(outcome.error);
      }
      outcome := ClaimPendingOrder(k);
      return Escaped(outcome);
    }

    // Runs

    method Edit(op: Op)
      requires op.OpPlace? || op.OpAddItem? || op.OpUpdateItemQuantity? || op.OpRemoveItem? || op.OpChangeItemVariant?
            || op.OpAdjustItemUnitPrice? || op.OpApplyOrderDiscount? || op.OpUpdateShipping?
      modifies this, inventory
      ensures Now() == Step(Cfg(), old(Now()), op)
    {
      var outcome;
      match op
      case OpPlace(source, requests, shipping, tax, discount, expiresAt) =>
        outcome := Place(source, requests, shipping, tax, discount, expiresAt);
      case OpAddItem(k, r) => outcome := AddItem(k, r);
      case OpUpdateItemQuantity(k, item, quantity) => outcome := UpdateItemQuantity(k, item, quantity);
      case OpRemoveItem(k, item) => outcome := RemoveItem(k, item);
      case OpChangeItemVariant(k, item, to, unitPrice, lineTotal) =>
        outcome := ChangeItemVariant(k, item, to, unitPrice, lineTotal);
      case OpAdjustItemUnitPrice(k, item, price, reason) => outcome := AdjustItemUnitPrice(k, item, price, reason);
      case OpApplyOrderDiscount(k, amount, reason) => outcome := ApplyOrderDiscount(k, amount, reason);
      case OpUpdateShipping(k, amount) => outcome := UpdateShipping(k, amount);
    }

    method Book(op: Op)
      requires op.OpRecordPayment? || op.OpRecordCodCollection? || op.OpRefund?
      modifies this, inventory
      ensures Now() == Step(Cfg(), old(Now()), op)
    {
      var outcome := Done;
      match op
      case OpRecordPayment(k, amount, how, reference) => outcome := RecordPayment(k, amount, how, reference);
      case OpRecordCodCollection(parcel, amount) => outcome := RecordCodCollection(parcel, amount);
      case OpRefund(k, amount, reason, reference, restock) => outcome := Refund(k, amount, reason, reference, restock);
    }

    /** Any call, whatever it throws. */
    method Execute(op: Op)
      modifies this, inventory
      ensures Now() == Step(Cfg(), old(Now()), op)
    {
      var outcome := Done;
      match op
      case OpUpdateStatus(k, to) => outcome := UpdateStatus(k, to);
      case OpClaimPending(k) => outcome := ClaimPendingOrder(k);
      case OpReleaseExpired(now) => outcome := ReleaseExpiredReservations(now);
      case OpRecordPayment(_, _, _, _) => Book(op);
      case OpRecordCodCollection(_, _) => Book(op);
      case OpRefund(_, _, _, _, _) => Book(op);
      case OpHandleCallback(k, tran, valid, received) => var thrown := HandleCallback(k, tran, valid, received);
      case OpMarkFailed(k, tran) => var thrown := MarkFailed(k, tran);
      case OpUpdateFulfillment(parcel, report) => outcome := UpdateFulfillment(parcel, report);
      case OpRestock(v, change) => outcome := inventory.Restock(v, change);
      case OpAdjust(v, change) => outcome := inventory.Adjust(v, change);
      case OpReceiveSerial(v) => inventory.ReceiveSerial(v);
      case _ => Edit(op);
    }

    /** What the theorems about runs say of this object. */
    method Serve(ops: seq<Op>)
      modifies this, inventory
      ensures Now() == Run(Cfg(), old(Now()), ops)
    {
      var i := 0;
      while i < |ops|
        invariant 0 <= i <= |ops|
        invariant Run(Cfg(), Now(), ops[i..]) == Run(Cfg(), old(Now()), ops)
      {
        assert ops[i..][1..] == ops[i + 1..];
        Execute(ops[i]);
        i := i + 1;
      }
    }
  }
}
