/**
 Where the counters and the ledger stop being exact.

 Each promise above asks a run to respect something. Here is what happens otherwise: a run that
 breaks the promise, and the condition under which the single call keeps it.
 */
module Limits {
  import opened Outcomes
  import opened Inventory
  import opened Orders
  import opened Engine
  import opened Meters
  import opened Counters
  import opened Gateway
  import opened Shortages
  import opened StockLedger
  import opened Timeline

  // Fractional quantities of serialized goods

  /**
   Committing a serialized line releases exactly its reservation and takes exactly its serials
   if and only if both the line and what is reserved are whole: PHP truncates, MySQL rounds.
   */
  lemma SerialCommitExactIffWhole(c: Catalog, s: Tables, v: nat, quantity: nat, item: nat)
    requires v in c && c[v].tracking == Serialized && v in s.stock && s.stock[v].reserved >= quantity
    requires CommitSerialized(c, s, v, quantity, item).Success?
    ensures var s1 := CommitSerialized(c, s, v, quantity, item).value;
            && v in s1.stock
            && (s1.stock[v].reserved == s.stock[v].reserved - quantity
                && 1000 * Count(s1.serials, v, Sold(item)) == 1000 * Count(s.serials, v, Sold(item)) + quantity
                <==> quantity % 1000 == 0 && s.stock[v].reserved % 1000 == 0)
  {
    ReassignMoves(s, v, Available, Sold(item), WholeUnits(quantity), v, Sold(item));
  }

  /** A store with one stocked variant and an empty row. */
  function Shop(product: nat, tracking: Tracking, backorder: Backorder): Config {
    Config(map[0 := Variant(product, Stock, tracking, backorder, false)], false)
  }

  function EmptyShop(): State {
    State(Tables(map[0 := StockRow(0, 0)], [], map[], []), [], 0, 0)
  }

  function SampleOrder(status: Status, quantity: nat, price: nat, events: seq<Event>): Order {
    Order(status, [Line(0, 0, quantity, price, price)], [Parcel(0, Stock, ParcelPending)], 0, 0, 0, price, price, [], events, 0)
  }

  /** Placing `quantity` of the variant, at that price for the line. */
  function SamplePlace(quantity: nat, price: nat): Op {
    OpPlace(Website, [Request(0, quantity, price, price)], 0, 0, 0, 0)
  }

  lemma SampleTotals(lines: seq<Line>, price: nat)
    requires |lines| == 1 && lines[0].lineTotal == price
    ensures var o := Order(Pending, lines, [Parcel(0, Stock, ParcelPending)], 0, 0, 0, 0, 0, [], [], 0);
            Recalculated(o) == Success(o.(subtotal := price, grandTotal := price))
  {
    var o := Order(Pending, lines, [Parcel(0, Stock, ParcelPending)], 0, 0, 0, 0, 0, [], [], 0);
    assert o.payments == [];
    assert o.AmountPaid() == AmountOf([], PaymentPaid) == 0;
    assert lines[1..] == [] && SumOfLines([]) == 0;
    assert SumOfLines(lines) == price;
  }

  lemma SamplePlaced(cfg: Config, s: Tables, s1: Tables, quantity: nat, price: nat)
    requires 0 in cfg.catalog && cfg.catalog[0].strategy == Stock && Purchasable(cfg.catalog, s, 0, quantity)
    requires Reserve(cfg.catalog, s, 0, quantity) == Success(s1)
    ensures Step(cfg, State(s, [], 0, 0), SamplePlace(quantity, price))
         == State(s1, [SampleOrder(Pending, quantity, price, [StatusChanged(None, Pending)])], 1, 1)
  {
    var c, requests := cfg.catalog, [Request(0, quantity, price, price)];
    var lines := NewLines(requests, 0);
    assert lines == [Line(0, 0, quantity, price, price)];
    assert ApplyAll(c, s, Hold, lines) == Success(s1);
    assert Strategies(c, requests[..0]) == [] && Strategies(c, requests) == [Stock];
    assert NewParcels([Stock], 0) == [Parcel(0, Stock, ParcelPending)];
    assert Vetted(c, s, Website, requests) == Success(());
    SampleTotals(lines, price);
    var o := SampleOrder(Pending, quantity, price, []);
    assert o.Logged(StatusChanged(None, Pending)).events == [StatusChanged(None, Pending)];
    assert [] + [o.Logged(StatusChanged(None, Pending))]
        == [SampleOrder(Pending, quantity, price, [StatusChanged(None, Pending)])];
  }

  lemma SampleMoved(cfg: Config, s: Tables, s1: Tables, a: Action, status: Status, to: Status, quantity: nat, price: nat,
                    events: seq<Event>)
    requires (status == Pending && to == Confirmed && a == Sell) || (status == Confirmed && to == Cancelled && a == Return)
    requires Apply(cfg.catalog, s, a, Line(0, 0, quantity, price, price)) == Success(s1)
    ensures Step(cfg, State(s, [SampleOrder(status, quantity, price, events)], 1, 1), OpUpdateStatus(0, to))
         == State(s1, [SampleOrder(to, quantity, price, events + [StatusChanged(Some(status), to)])], 1, 1)
  {
    var o := SampleOrder(status, quantity, price, events);
    assert ApplyAll(cfg.catalog, s, a, o.lines) == Success(s1);
    assert o.AmountPaid() == 0 && to in status.AllowedNext();
    assert [o][0 := o.Moved(to)] == [SampleOrder(to, quantity, price, events + [StatusChanged(Some(status), to)])];
  }

  lemma ThreeSteps(cfg: Config, st: State, a: Op, b: Op, c: Op)
    ensures Run(cfg, st, [a, b, c]) == Step(cfg, Step(cfg, Step(cfg, st, a), b), c)
  {
    assert [a, b, c][1..] == [b, c] && [b, c][1..] == [c] && [c][1..] == [];
    var st1 := Step(cfg, st, a);
    var st2 := Step(cfg, st1, b);
    assert Run(cfg, st2, [c]) == Run(cfg, Step(cfg, st2, c), []);
    assert Run(cfg, st1, [b, c]) == Run(cfg, st2, [c]);
  }

  lemma TwoSteps(cfg: Config, st: State, a: Op, b: Op)
    ensures Run(cfg, st, [a, b]) == Step(cfg, Step(cfg, st, a), b)
  {
    assert [a, b][1..] == [b] && [b][1..] == [];
    var st1 := Step(cfg, st, a);
    assert Run(cfg, st1, [b]) == Run(cfg, Step(cfg, st1, b), []);
  }

  lemma HalfAUnit(cfg: Config, s1: Tables) returns (s3: Tables, events: seq<Event>)
    requires 0 in cfg.catalog && cfg.catalog[0].strategy == Stock && cfg.catalog[0].tracking == Serialized
    requires !cfg.catalog[0].discontinued
    requires 0 in s1.stock && s1.stock[0] == StockRow(1000, 0)
    ensures var st2 := Step(cfg, State(s1, [], 0, 0), SamplePlace(500, 0));
            Step(cfg, st2, OpUpdateStatus(0, Confirmed)) == State(s3, [SampleOrder(Confirmed, 500, 0, events)], 1, 1)
    ensures 0 in s3.stock && s3.stock[0].reserved == 1000
  {
    var s2 := Reserve(cfg.catalog, s1, 0, 500).value;
    SamplePlaced(cfg, s1, s2, 500, 0);
    s3 := Apply(cfg.catalog, s2, Sell, Line(0, 0, 500, 0, 0)).value;
    events := [StatusChanged(None, Pending)] + [StatusChanged(Some(Pending), Confirmed)];
    SampleMoved(cfg, s2, s3, Sell, Pending, Confirmed, 500, 0, [StatusChanged(None, Pending)]);
  }

  lemma OneReceived(cfg: Config) returns (s1: Tables)
    ensures Step(cfg, EmptyShop(), OpReceiveSerial(0)) == State(s1, [], 0, 0)
    ensures 0 in s1.stock && s1.stock[0] == StockRow(1000, 0) && Count(s1.serials, 0, Available) == 1
  {
    s1 := ReceiveSerial(EmptyShop().tables, 0);
    assert s1.serials == [Serial(0, Available)] && Count(s1.serials, 0, Available) == 1;
  }

  /** Half a serialized unit is ordered and confirmed: one whole unit stays reserved for nobody. */
  lemma FractionalLinesDrift(product: nat)
    ensures var cfg := Shop(product, Serialized, Deny);
            var end := Run(cfg, EmptyShop(),
                           [OpReceiveSerial(0), SamplePlace(500, 0),
                            OpUpdateStatus(0, Confirmed)]);
            && 0 in end.tables.stock && end.tables.stock[0].reserved == 1000
            && Total(cfg.catalog, end.orders, Reserving, OfVariant(0)) == 0
  {
    var cfg := Shop(product, Serialized, Deny);
    var s1 := OneReceived(cfg);
    var s3, events := HalfAUnit(cfg, s1);
    ThreeSteps(cfg, EmptyShop(), OpReceiveSerial(0), SamplePlace(500, 0),
               OpUpdateStatus(0, Confirmed));
  }

  // Purchasable, but not reservable

  /**
   What the shop shows as purchasable can be reserved if and only if it is not serialized stock
   that pending orders already hold: that check counts the serials and ignores the reservations.
   */
  lemma PurchasableReservableIff(c: Catalog, s: Tables, v: nat, quantity: nat)
    requires v in c && v in s.stock && quantity > 0 && WholeFor(c, v, quantity)
    requires c[v].tracking == Serialized ==> s.stock[v].quantity == 1000 * Count(s.serials, v, Available)
    requires Purchasable(c, s, v, quantity)
    ensures Reserve(c, s, v, quantity).Success? <==>
              !(Denied(c, v) && c[v].tracking == Serialized && s.stock[v].quantity - s.stock[v].reserved < quantity)
  {
  }

  /** The only serial is held by a pending order: it still shows as purchasable, and cannot be reserved. */
  lemma HeldSerialShowsAsPurchasable(product: nat)
    ensures var cfg := Shop(product, Serialized, Deny);
            var end := Run(cfg, EmptyShop(),
                           [OpReceiveSerial(0), SamplePlace(1000, 0)]);
            && Purchasable(cfg.catalog, end.tables, 0, 1000)
            && Reserve(cfg.catalog, end.tables, 0, 1000) == Failure(InsufficientStock)
  {
    var cfg := Shop(product, Serialized, Deny);
    var s1 := OneReceived(cfg);
    var s2 := Reserve(cfg.catalog, s1, 0, 1000).value;
    SamplePlaced(cfg, s1, s2, 1000, 0);
    TwoSteps(cfg, EmptyShop(), OpReceiveSerial(0), SamplePlace(1000, 0));
  }

  /** Whatever can be reserved without a backorder is shown as purchasable, unless it is discontinued. */
  lemma ReservableIsPurchasable(c: Catalog, s: Tables, v: nat, quantity: nat)
    requires Denied(c, v) && v in s.stock && WholeFor(c, v, quantity)
    requires c[v].tracking == Serialized ==> s.stock[v].quantity == 1000 * Count(s.serials, v, Available)
    requires Reserve(c, s, v, quantity).Success?
    ensures Purchasable(c, s, v, quantity) <==> !c[v].discontinued
  {
  }

  // Backorders

  /** Selling and taking back a counted line leaves what was there if and only if it was there. */
  lemma SaleUndoneIffCovered(c: Catalog, s: Tables, v: nat, quantity: nat, item: nat)
    requires v in c && c[v].strategy == Stock && c[v].tracking != Serialized && v in s.stock
    ensures var s1 := Commit(c, s, v, quantity, item);
            && s1.Success? && TakeBack(c, s1.value, v, quantity, item).Success?
            && TakeBack(c, s1.value, v, quantity, item).value.QuantityOf(v) == Max(s.QuantityOf(v), quantity)
            && (TakeBack(c, s1.value, v, quantity, item).value.QuantityOf(v) == s.QuantityOf(v)
                <==> quantity <= s.QuantityOf(v))
  {
  }

  lemma BackorderedUnit(cfg: Config, s: Tables) returns (s3: Tables, events: seq<Event>)
    requires 0 in cfg.catalog && cfg.catalog[0].strategy == Stock && cfg.catalog[0].tracking != Serialized
    requires cfg.catalog[0].backorder == Allow && !cfg.catalog[0].discontinued
    requires 0 in s.stock && s.stock[0] == StockRow(0, 0) && s.movements == []
    ensures var st1 := Step(cfg, State(s, [], 0, 0), SamplePlace(1000, 0));
            && Step(cfg, Step(cfg, st1, OpUpdateStatus(0, Confirmed)), OpUpdateStatus(0, Cancelled))
                 == State(s3, [SampleOrder(Cancelled, 1000, 0, events)], 1, 1)
            && Step(cfg, st1, OpUpdateStatus(0, Confirmed)).tables.QuantityOf(0) == 0
    ensures s3.QuantityOf(0) == 1000
    ensures s3.movements == [Movement(0, Reservation, -1000, 0)] + [Movement(0, Sale, -1000, 0)] + [Movement(0, Returned, 1000, 1000)]
  {
    var l := Line(0, 0, 1000, 0, 0);
    var s1 := Reserve(cfg.catalog, s, 0, 1000).value;
    var s2 := Apply(cfg.catalog, s1, Sell, l).value;
    s3 := Apply(cfg.catalog, s2, Return, l).value;
    var placed := [StatusChanged(None, Pending)];
    var confirmed := placed + [StatusChanged(Some(Pending), Confirmed)];
    events := confirmed + [StatusChanged(Some(Confirmed), Cancelled)];
    SamplePlaced(cfg, s, s1, 1000, 0);
    SampleMoved(cfg, s1, s2, Sell, Pending, Confirmed, 1000, 0, placed);
    SampleMoved(cfg, s2, s3, Return, Confirmed, Cancelled, 1000, 0, confirmed);
  }

  /** A backordered unit that is cancelled appears in stock, though none was ever supplied. */
  lemma CancelledBackordersCreateStock(product: nat)
    ensures var cfg := Shop(product, Tracked, Allow);
            var end := Run(cfg, EmptyShop(),
                           [SamplePlace(1000, 0),
                            OpUpdateStatus(0, Confirmed), OpUpdateStatus(0, Cancelled)]);
            end.tables.QuantityOf(0) == 1000 && Ledger(end.tables.movements, 0, SUPPLY) == 0
  {
    var cfg := Shop(product, Tracked, Allow);
    var held, sale, back := Movement(0, Reservation, -1000, 0), Movement(0, Sale, -1000, 0), Movement(0, Returned, 1000, 1000);
    var s3, events := BackorderedUnit(cfg, EmptyShop().tables);
    ThreeSteps(cfg, EmptyShop(), SamplePlace(1000, 0),
               OpUpdateStatus(0, Confirmed), OpUpdateStatus(0, Cancelled));
    LedgerSnoc([held] + [sale], back, 0, SUPPLY);
    LedgerSnoc([held], sale, 0, SUPPLY);
    LedgerSnoc([], held, 0, SUPPLY);
    assert [] + [held] == [held];
  }

  // Untracked variants

  /**
   restockFromCancellation() is documented as a no-op for preorder, dropship and untracked variants.
   It is one if and only if the variant is not stocked, however it is tracked.
   */
  lemma ReturnIsNoOpIffNotStocked(c: Catalog, s: Tables, v: nat, quantity: nat, item: nat)
    requires v in c
    ensures TakeBack(c, s, v, quantity, item) == Success(s) <==> c[v].strategy != Stock
  {
    if c[v].strategy == Stock && TakeBack(c, s, v, quantity, item).Success? {
      if c[v].tracking == Serialized {
        ReassignMoves(s, v, Sold(item), Available, WholeUnits(quantity), v, Available);
      }
      assert |TakeBack(c, s, v, quantity, item).value.movements| == |s.movements| + 1;
    }
  }

  /** Cancelling an order of an untracked variant puts a unit on a row that held none. */
  lemma UntrackedGoodsAreRestocked(product: nat)
    ensures var cfg := Shop(product, NotTracked, Allow);
            var before := Run(cfg, EmptyShop(), [SamplePlace(1000, 0), OpUpdateStatus(0, Confirmed)]);
            && before.tables.QuantityOf(0) == 0
            && Step(cfg, before, OpUpdateStatus(0, Cancelled)).tables.QuantityOf(0) == 1000
  {
    var cfg := Shop(product, NotTracked, Allow);
    var s3, events := BackorderedUnit(cfg, EmptyShop().tables);
    TwoSteps(cfg, EmptyShop(), SamplePlace(1000, 0), OpUpdateStatus(0, Confirmed));
  }

  // Serials that are not there

  /** Two units of a serialized variant are ordered, and one serial is on file. */
  function TwoOnOne(price: nat): seq<Op> {
    [OpReceiveSerial(0), SamplePlace(1000, price), OpUpdateItemQuantity(0, 0, 2000)]
  }

  /** A serialized variant that allows backorders can be ordered beyond its serials, and then not confirmed. */
  lemma BackorderedSerialRunsShort(product: nat, price: nat)
    ensures var cfg := Shop(product, Serialized, Allow);
            var end := Run(cfg, EmptyShop(), TwoOnOne(price));
            && |end.orders| == 1 && end.orders[0].status == Pending
            && end.orders[0].payments == [] && end.orders[0].grandTotal == 2 * price
            && UpdateStatus(cfg, end, 0, Confirmed) == Failure(InsufficientStock)
  {
    var cfg := Shop(product, Serialized, Allow);
    var s1 := OneReceived(cfg);
    var s2 := Reserve(cfg.catalog, s1, 0, 1000).value;
    SamplePlaced(cfg, s1, s2, 1000, price);
    ThreeSteps(cfg, EmptyShop(), OpReceiveSerial(0), SamplePlace(1000, price), OpUpdateItemQuantity(0, 0, 2000));
    TwoUnitsOnOne(cfg, s2, price);
  }

  lemma TwoUnitsOnOne(cfg: Config, s: Tables, price: nat)
    requires 0 in cfg.catalog && cfg.catalog[0].strategy == Stock && cfg.catalog[0].tracking == Serialized
    requires cfg.catalog[0].backorder == Allow && 0 in s.stock && Count(s.serials, 0, Available) == 1
    ensures var st := State(s, [SampleOrder(Pending, 1000, price, [StatusChanged(None, Pending)])], 1, 1);
            var end := Step(cfg, st, OpUpdateItemQuantity(0, 0, 2000));
            && |end.orders| == 1 && end.orders[0].status == Pending
            && end.orders[0].payments == [] && end.orders[0].grandTotal == 2 * price
            && UpdateStatus(cfg, end, 0, Confirmed) == Failure(InsufficientStock)
  {
    var o := SampleOrder(Pending, 1000, price, [StatusChanged(None, Pending)]);
    var l1 := Line(0, 0, 2000, price, LineTotal(price, 2000));
    var s1 := Reserve(cfg.catalog, s, 0, 1000).value;
    var o1 := o.(lines := [l1]);
    var o2 := o1.(subtotal := 2 * price, grandTotal := 2 * price);
    assert LineTotal(price, 2000) == 2 * price;
    assert o.lines[0 := l1] == [l1] && IndexOf(o.lines, 0) == 0;
    assert o1.AmountPaid() == AmountOf([], PaymentPaid) == 0 && [l1][1..] == [] && SumOfLines([l1]) == 2 * price;
    assert Recalculated(o1) == Success(o2);
    var end := Step(cfg, State(s, [o], 1, 1), OpUpdateItemQuantity(0, 0, 2000));
    assert end == State(s1, [o2.Logged(ItemUpdated)], 1, 1);
    ReassignMoves(s1, 0, Available, Sold(0), 2, 0, Available);
    assert ApplyAll(cfg.catalog, s1, Sell, [l1]) == Failure(InsufficientStock);
  }

  /**
   With the default configuration too the webhook of a customer who paid in full can end in an
   exception: the serials are not there. The payment is on file, the order stays pending, and when the
   missing serial arrives, delivering the callback again still changes nothing.
   */
  lemma PaidInFullStaysPending(product: nat, price: nat, tran: string)
    requires price > 0
    ensures var cfg := Shop(product, Serialized, Allow);
            var end := Run(cfg, EmptyShop(), TwoOnOne(price));
            var d := HandleCallback(cfg, end, 0, tran, true, Some(2 * price));
            && d.thrown == Some(InsufficientStock) && d.state.orders != []
            && d.state.orders[0].status == Pending && d.state.orders[0].AmountPaid() == d.state.orders[0].grandTotal
            && var later := Step(cfg, d.state, OpReceiveSerial(0));
               HandleCallback(cfg, later, 0, tran, true, Some(2 * price)) == Delivery(later, None)
  {
    var cfg := Shop(product, Serialized, Allow);
    var end := Run(cfg, EmptyShop(), TwoOnOne(price));
    var d := HandleCallback(cfg, end, 0, tran, true, Some(2 * price));
    BackorderedSerialRunsShort(product, price);
    assert end.orders[0].AmountPaid() == AmountOf([], PaymentPaid) == 0;
    ConfirmSucceedsIff(cfg, EmptyShop(), TwoOnOne(price), 0);
    CallbackThrowsIff(cfg, EmptyShop(), TwoOnOne(price), 0, tran, true, Some(2 * price));
    assert Step(cfg, d.state, OpReceiveSerial(0)).orders == d.state.orders;
  }

  // Confirmed twice

  /** With automatic confirmation the webhook of a customer who paid in full ends in an exception. */
  lemma PaidInFullThrows(product: nat, price: nat, tran: string)
    requires price > 0
    ensures var cfg := Shop(product, Tracked, Allow).(autoConfirm := true);
            var end := Run(cfg, EmptyShop(), [SamplePlace(1000, price)]);
            var d := HandleCallback(cfg, end, 0, tran, true, Some(price));
            && d.thrown == Some(InvalidTransition)
            && d.state.orders != [] && d.state.orders[0].status == Confirmed && d.state.orders[0].AmountPaid() == price
  {
    var cfg := Shop(product, Tracked, Allow).(autoConfirm := true);
    var s1 := Reserve(cfg.catalog, EmptyShop().tables, 0, 1000).value;
    var place := SamplePlace(1000, price);
    SamplePlaced(cfg, EmptyShop().tables, s1, 1000, price);
    assert [place][1..] == [] && Run(cfg, EmptyShop(), [place]) == Run(cfg, Step(cfg, EmptyShop(), place), []);
    var o := SampleOrder(Pending, 1000, price, [StatusChanged(None, Pending)]);
    assert Run(cfg, EmptyShop(), [place]) == State(s1, [o], 1, 1);
    assert o.AmountPaid() == AmountOf([], PaymentPaid) == 0 && o.AmountRefunded() == AmountOf([], PaymentRefunded) == 0;
    assert o.lines[1..] == [] && SumOfLines(o.lines) == price + SumOfLines([]);
    CallbackThrowsIff(cfg, EmptyShop(), [place], 0, tran, true, Some(price));
    CallbacksConfirmOnlyPaidOrders(cfg, State(s1, [o], 1, 1), 0, tran, true, Some(price));
  }

  // Manual adjustments, registered serials, refunds booked as payments

  /** An adjustment keeps the ledger in step with the row if and only if it does not go below zero. */
  lemma AdjustmentReplaysIffNotClamped(c: Catalog, s: Tables, v: nat, change: int)
    requires v in c && c[v].tracking != Serialized && v in s.stock && Replays(s, v)
    ensures Adjust(c, s, v, change).Success? && v in Adjust(c, s, v, change).value.stock
    ensures Replays(Adjust(c, s, v, change).value, v) <==> s.stock[v].quantity + change >= 0
  {
    var s1 := Adjust(c, s, v, change).value;
    var row := Movement(v, Adjustment, change, s1.stock[v].quantity);
    assert s1.movements == s.movements + [row];
    LedgerSnoc(s.movements, row, v, ON_HAND);
    if s.stock[v].quantity + change >= 0 {
      ReplaysSnoc(s, s1, v, row);
    }
  }

  /** Taking one off an empty row logs a movement that the row did not make. */
  lemma ClampedAdjustment(product: nat)
    ensures var cfg := Shop(product, Tracked, Deny);
            var end := Run(cfg, EmptyShop(), [OpAdjust(0, -1000)]);
            && 0 in end.tables.stock && end.tables.stock[0].quantity == 0
            && Ledger(end.tables.movements, 0, ON_HAND) == -1000 && !Replays(end.tables, 0)
  {
    var cfg := Shop(product, Tracked, Deny);
    var row := Movement(0, Adjustment, -1000, 0);
    assert [OpAdjust(0, -1000)][1..] == [];
    assert Run(cfg, EmptyShop(), [OpAdjust(0, -1000)]) == Run(cfg, Step(cfg, EmptyShop(), OpAdjust(0, -1000)), []);
    assert Step(cfg, EmptyShop(), OpAdjust(0, -1000)).tables.movements == [] + [row];
    LedgerSnoc([], row, 0, ON_HAND);
  }

  /** Registering a serial of a variant counted by quantity overwrites the count. */
  lemma SerialsOverwriteCountedStock(s: Tables, v: nat)
    requires v in s.stock && Replays(s, v)
    ensures Replays(ReceiveSerial(s, v), v)
        <==> s.stock[v].quantity == 1000 * (Count(s.serials, v, Available) + 1)
  {
    CountSnoc(s.serials, Serial(v, Available), v, Available);
    assert Ledger(s.movements, v, ON_HAND) == s.stock[v].quantity;
  }

  /** Five units are restocked, one serial is registered, and one unit is left on the row. */
  lemma RegisteredSerialLosesStock(product: nat)
    ensures var cfg := Shop(product, Tracked, Deny);
            var end := Run(cfg, EmptyShop(), [OpRestock(0, 5000), OpReceiveSerial(0)]);
            && 0 in end.tables.stock && end.tables.stock[0].quantity == 1000
            && Ledger(end.tables.movements, 0, ON_HAND) == 5000 && !Replays(end.tables, 0)
  {
    var cfg := Shop(product, Tracked, Deny);
    var row := Movement(0, Restocked, 5000, 5000);
    var st1 := Step(cfg, EmptyShop(), OpRestock(0, 5000));
    assert st1.tables.movements == [] + [row];
    LedgerSnoc([], row, 0, ON_HAND);
    CountSnoc([], Serial(0, Available), 0, Available);
    TwoSteps(cfg, EmptyShop(), OpRestock(0, 5000), OpReceiveSerial(0));
  }

  /** Recording a refund through recordPayment skips refund()'s guard. */
  lemma PaymentAsRefundSoundIffCovered(cfg: Config, st: State, k: nat, amount: int, reference: Option<string>)
    requires k < |st.orders| && MoneySound(st.orders[k])
    requires RecordPayment(cfg, st, k, amount, PaymentRefunded, reference).Success?
    ensures var o := st.orders[k]; var r := RecordPayment(cfg, st, k, amount, PaymentRefunded, reference);
            MoneySound(r.value.orders[k]) <==> amount <= o.AmountPaid() - o.AmountRefunded()
  {
    var o, p := st.orders[k], Payment(amount, PaymentRefunded, reference);
    AmountSnoc(o.payments, p, PaymentPaid);
    AmountSnoc(o.payments, p, PaymentRefunded);
  }

  /** One minor unit is refunded on an order that nobody paid. */
  lemma UnpaidOrderRefunded(product: nat)
    ensures var cfg := Shop(product, Tracked, Allow);
            var end := Run(cfg, EmptyShop(),
                           [SamplePlace(1000, 0),
                            OpRecordPayment(0, 1, PaymentRefunded, None)]);
            && |end.orders| == 1 && end.orders[0].AmountPaid() == 0 && end.orders[0].AmountRefunded() == 1
            && !RefundsCovered(end.orders[0])
  {
    var cfg := Shop(product, Tracked, Allow);
    var place, refund := SamplePlace(1000, 0), OpRecordPayment(0, 1, PaymentRefunded, None);
    var s1 := Reserve(cfg.catalog, EmptyShop().tables, 0, 1000).value;
    var o := SampleOrder(Pending, 1000, 0, [StatusChanged(None, Pending)]);
    var p := Payment(1, PaymentRefunded, None);
    SamplePlaced(cfg, EmptyShop().tables, s1, 1000, 0);
    TwoSteps(cfg, EmptyShop(), place, refund);
    var st1 := State(s1, [o], 1, 1);
    assert Step(cfg, EmptyShop(), place) == st1;
    assert Step(cfg, st1, refund).orders == [o.(payments := [] + [p]).Logged(PaymentRecorded)];
    AmountSnoc([], p, PaymentPaid);
    AmountSnoc([], p, PaymentRefunded);
  }
}
