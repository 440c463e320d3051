/** What each call on the stock and the orders leaves behind, field by field, and exactly when it is refused. */
module Effects {
  import opened Outcomes
  import opened Inventory
  import opened Orders
  import opened Engine
  import opened Meters
  import opened Counters
  import opened Rounding
  import opened Rows
  import opened Shortages
  import opened Timeline
  import Attribution
  import Text

  // Inventory calls on one stocked variant

  /** Nothing but the row, the serials, the ledger and the sold counter may have changed, and only where said. */
  predicate OnlyRow(s: Tables, s1: Tables, v: nat, row: StockRow, m: Movement) {
    s1.stock == s.stock[v := row] && s1.movements == s.movements + [m]
  }

  /** A reservation is refused exactly when no policy allows a backorder and too little is free. */
  lemma ReservableIff(c: Catalog, s: Tables, v: nat, quantity: nat)
    requires v in c && c[v].strategy == Stock && v in s.stock && quantity > 0
    ensures var row := s.stock[v]; var r := Reserve(c, s, v, quantity);
            && (r.Success? <==> c[v].backorder in {Allow, Notify} || row.quantity - row.reserved >= quantity)
            && (r.Failure? ==> r == Failure(InsufficientStock))
            && (r.Success? ==>
                  && OnlyRow(s, r.value, v, StockRow(row.quantity, row.reserved + quantity),
                             Movement(v, Reservation, -(quantity as int), row.quantity))
                  && r.value.serials == s.serials && r.value.sold == s.sold)
  {
  }

  /** A release gives back at most what is reserved. */
  lemma ReleaseGivesBack(c: Catalog, s: Tables, v: nat, quantity: nat)
    requires v in c && c[v].strategy == Stock && v in s.stock
    ensures var row := s.stock[v]; var r := ReleaseHold(c, s, v, quantity);
            && r.Success? && r.value.serials == s.serials && r.value.sold == s.sold
            && OnlyRow(s, r.value, v,
                       StockRow(row.quantity, if row.reserved >= quantity then row.reserved - quantity else 0),
                       Movement(v, Release, quantity, row.quantity))
  {
  }

  /** A counted line that is committed leaves the shelf as far as it is there, and counts as sold in full. */
  lemma CommitCountedMoves(c: Catalog, s: Tables, v: nat, quantity: nat, item: nat)
    requires v in c && c[v].strategy == Stock && c[v].tracking != Serialized && v in s.stock
    ensures var row := s.stock[v]; var r := Commit(c, s, v, quantity, item); var p := c[v].product;
            var left := if row.quantity >= quantity then row.quantity - quantity else 0;
            && r.Success? && r.value.serials == s.serials
            && OnlyRow(s, r.value, v, StockRow(left, if row.reserved >= quantity then row.reserved - quantity else 0),
                       Movement(v, Sale, -(quantity as int), left))
            && r.value.sold == s.sold[p := (if p in s.sold then s.sold[p] else 0) + quantity]
  {
  }

  lemma {:induction false} PickHas(serials: seq<Serial>, v: nat, h: Holder, limit: nat, from: nat, i: nat)
    requires from <= |serials|
    ensures i in Pick(serials, v, h, limit, from) <==>
              from <= i < |serials| && serials[i] == Serial(v, h) && Count(serials[from..i], v, h) < limit
    decreases |serials| - from
  {
    if limit > 0 && from < |serials| {
      PickHas(serials, v, h, if serials[from] == Serial(v, h) then limit - 1 else limit, from + 1, i);
      if from < i < |serials| {
        assert serials[from..i][1..] == serials[from + 1..i];
      } else {
        assert from == i ==> serials[from..i] == [];
      }
    }
  }

  lemma FirstReassigned(s: Tables, v: nat, from: Holder, to: Holder, n: nat, i: nat)
    requires Reassign(s, v, from, to, n).Success? && i < |s.serials|
    ensures var serials := Reassign(s, v, from, to, n).value.serials;
            && |serials| == |s.serials|
            && serials[i] == if s.serials[i] == Serial(v, from) && Count(s.serials[..i], v, from) < n
                             then Serial(v, to) else s.serials[i]
  {
    PickHas(s.serials, v, from, n, 0, i);
    assert s.serials[0..i] == s.serials[..i];
    Attribution.AssignAt(s.serials, Pick(s.serials, v, from, n, 0), to, i);
  }

  /** Of the available serials exactly the first ones by id are sold to the line, as many as its whole units. */
  lemma FirstSerialsAreSold(c: Catalog, s: Tables, v: nat, quantity: nat, item: nat, i: nat)
    requires v in c && c[v].strategy == Stock && c[v].tracking == Serialized && v in s.stock
    requires Commit(c, s, v, quantity, item).Success? && i < |s.serials|
    ensures var serials := Commit(c, s, v, quantity, item).value.serials;
            && |serials| == |s.serials|
            && serials[i] == if s.serials[i] == Serial(v, Available) && Count(s.serials[..i], v, Available) < quantity / 1000
                             then Serial(v, Sold(item)) else s.serials[i]
  {
    FirstReassigned(s, v, Available, Sold(item), quantity / 1000, i);
  }

  /** And the first of those sold to the line come back. */
  lemma FirstSerialsComeBack(c: Catalog, s: Tables, v: nat, quantity: nat, item: nat, i: nat)
    requires v in c && c[v].strategy == Stock && c[v].tracking == Serialized && v in s.stock
    requires TakeBack(c, s, v, quantity, item).Success? && i < |s.serials|
    ensures var serials := TakeBack(c, s, v, quantity, item).value.serials;
            && |serials| == |s.serials|
            && serials[i] == if s.serials[i] == Serial(v, Sold(item)) && Count(s.serials[..i], v, Sold(item)) < quantity / 1000
                             then Serial(v, Available) else s.serials[i]
  {
    FirstReassigned(s, v, Sold(item), Available, quantity / 1000, i);
  }

  lemma ReassignedRow(s: Tables, v: nat, from: Holder, to: Holder, n: nat)
    requires from != to && v in s.stock
    ensures var r := Reassign(s, v, from, to, n); var left := Count(s.serials, v, Available);
            && (r.Success? <==> Count(s.serials, v, from) >= n) && (r.Failure? ==> r == Failure(InsufficientStock))
            && (r.Success? ==>
                  var left1 := left + (if to == Available then n else 0) - (if from == Available then n else 0);
                  && left1 >= 0 && r.value.sold == s.sold && r.value.movements == s.movements
                  && r.value.stock ==
                     s.stock[v := StockRow(if n == 0 then s.stock[v].quantity else 1000 * left1, s.stock[v].reserved)])
  {
    ReassignMoves(s, v, from, to, n, v, Available);
  }

  /** A serialized line takes its whole units in serials; the reservation is rounded to units on the way. */
  lemma CommitSerializedMoves(c: Catalog, s: Tables, v: nat, quantity: nat, item: nat)
    requires v in c && c[v].strategy == Stock && c[v].tracking == Serialized && v in s.stock
    ensures var r := Commit(c, s, v, quantity, item); var n := quantity / 1000; var p := c[v].product;
            && (r.Success? <==> Count(s.serials, v, Available) >= n)
            && (r.Failure? ==> r == Failure(InsufficientStock))
            && (r.Success? ==>
                  var left := Count(s.serials, v, Available) - n;
                  var quantity1 := if n == 0 then s.stock[v].quantity else 1000 * left;
                  var units := (s.stock[v].reserved + 500) / 1000;
                  && OnlyRow(s, r.value, v, StockRow(quantity1, if units >= n then 1000 * (units - n) else 0),
                             Movement(v, Sale, -1000 * n, quantity1))
                  && r.value.sold == s.sold[p := (if p in s.sold then s.sold[p] else 0) + quantity])
  {
    ReassignedRow(s, v, Available, Sold(item), quantity / 1000);
  }

  /** A counted line that comes back is added in full, and no product's sold counter goes below zero. */
  lemma ReturnCountedMoves(c: Catalog, s: Tables, v: nat, quantity: nat, item: nat)
    requires v in c && c[v].strategy == Stock && c[v].tracking != Serialized && v in s.stock
    ensures var row := s.stock[v]; var r := TakeBack(c, s, v, quantity, item); var p := c[v].product;
            var sold := if p in s.sold then s.sold[p] else 0;
            && r.Success? && r.value.serials == s.serials
            && OnlyRow(s, r.value, v, StockRow(row.quantity + quantity, row.reserved),
                       Movement(v, Returned, quantity, row.quantity + quantity))
            && r.value.sold == s.sold[p := if sold >= quantity then sold - quantity else 0]
  {
  }

  /** A serialized line gives back the serials sold to it, and fails when they are not on file. */
  lemma ReturnSerializedMoves(c: Catalog, s: Tables, v: nat, quantity: nat, item: nat)
    requires v in c && c[v].strategy == Stock && c[v].tracking == Serialized && v in s.stock
    ensures var r := TakeBack(c, s, v, quantity, item); var n := quantity / 1000; var p := c[v].product;
            var sold := if p in s.sold then s.sold[p] else 0;
            && (r.Success? <==> Count(s.serials, v, Sold(item)) >= n)
            && (r.Failure? ==> r == Failure(InsufficientStock))
            && (r.Success? ==>
                  var quantity1 := if n == 0 then s.stock[v].quantity else 1000 * (Count(s.serials, v, Available) + n);
                  && OnlyRow(s, r.value, v, StockRow(quantity1, s.stock[v].reserved), Movement(v, Returned, quantity, quantity1))
                  && r.value.sold == s.sold[p := if sold >= quantity then sold - quantity else 0])
  {
    ReassignedRow(s, v, Sold(item), Available, quantity / 1000);
  }

  /** Manual restocks and adjustments reach the row of every variant that is not serialized, and no other. */
  lemma SupplyMoves(cfg: Config, st: State, v: nat, change: int)
    ensures var open := v in cfg.catalog && cfg.catalog[v].tracking != Serialized && v in st.tables.stock;
            var restocked, adjusted := Step(cfg, st, OpRestock(v, change)), Step(cfg, st, OpAdjust(v, change));
            if !open then restocked == st && adjusted == st
            else
              var row := st.tables.stock[v];
              var up := row.quantity + change;
              var to := if up >= 0 then up else 0;
              && restocked == st.(tables := restocked.tables) && adjusted == st.(tables := adjusted.tables)
              && OnlyRow(st.tables, restocked.tables, v, StockRow(up, row.reserved), Movement(v, Restocked, change, up))
              && OnlyRow(st.tables, adjusted.tables, v, StockRow(to, row.reserved), Movement(v, Adjustment, change, to))
              && restocked.tables.serials == adjusted.tables.serials == st.tables.serials
              && restocked.tables.sold == adjusted.tables.sold == st.tables.sold
  {
  }

  /** A received serial is available, and the row counts it. */
  lemma ReceivedSerial(cfg: Config, st: State, v: nat)
    ensures var st1 := Step(cfg, st, OpReceiveSerial(v));
            && st1 == st.(tables := st1.tables) && st1.tables.serials == st.tables.serials + [Serial(v, Available)]
            && st1.tables.sold == st.tables.sold && st1.tables.movements == st.tables.movements
            && st1.tables.stock.Keys == st.tables.stock.Keys
            && (forall u :: u in st.tables.stock ==>
                  st1.tables.stock[u] == if u != v then st.tables.stock[u]
                    else StockRow(1000 * (Count(st.tables.serials, v, Available) + 1), st.tables.stock[v].reserved))
  {
    CountSnoc(st.tables.serials, Serial(v, Available), v, Available);
  }

  /** What counts as purchasable, policy by policy. */
  lemma PurchasableIff(c: Catalog, s: Tables, v: nat, quantity: nat)
    requires v in c
    ensures Purchasable(c, s, v, quantity) <==>
              && !c[v].discontinued
              && (c[v].strategy == Stock && c[v].tracking == Serialized ==> Count(s.serials, v, Available) >= quantity / 1000)
              && (c[v].strategy == Stock && c[v].tracking != Serialized ==>
                    || c[v].backorder in {Allow, Notify} || quantity == 0
                    || (v in s.stock && s.stock[v].quantity - s.stock[v].reserved >= quantity))
  {
  }

  // Transitions

  /** One step ahead at a time, cancelled until delivered, refunded once delivered or cancelled. */
  lemma TransitionsAre(from: Status, to: Status)
    ensures to in from.AllowedNext() <==>
              match to
              case Pending => false
              case Cancelled => Rank(from) < 4
              case Refunded => Rank(from) == 4
              case _ => Rank(to) == Rank(from) + 1
  {
  }

  /** The order with the new status, and what its timeline then says. */
  function WithStatus(o: Order, to: Status): Order {
    var asked := if to == Cancelled && AmountOf(o.payments, PaymentPaid) > 0 then [RefundRequired] else [];
    o.(status := to, events := o.events + asked + [StatusChanged(Some(o.status), to)])
  }

  /** The one inventory action that goes with a transition. */
  function GoodsAction(from: Status, to: Status): Option<Action> {
    if to == Confirmed then Some(Sell)
    else if to != Cancelled then None
    else if from == Pending then Some(Unhold) else Some(Return)
  }

  function Acted(c: Catalog, s: Tables, a: Option<Action>, lines: seq<Line>): Result<Tables> {
    match a
    case None => Success(s)
    case Some(action) => ApplyAll(c, s, action, lines)
  }

  /** A legal transition changes the status, moves the goods that go with it and touches no other order. */
  lemma StatusMoves(cfg: Config, st: State, k: nat, to: Status)
    ensures var r := UpdateStatus(cfg, st, k, to);
            if k >= |st.orders| then r == Failure(NotFound)
            else if to !in st.orders[k].status.AllowedNext() then r == Failure(InvalidTransition)
            else
              var o := st.orders[k];
              match Acted(cfg.catalog, st.tables, GoodsAction(o.status, to), o.lines)
              case Failure(e) => r == Failure(e)
              case Success(tables) => r == Success(State(tables, st.orders[k := WithStatus(o, to)], st.nextItem, st.nextParcel))
  {
    if k < |st.orders| {
      assert st.orders[k].events + [] == st.orders[k].events;
    }
  }

  /** Only a pending order is claimed, and then it is cancelled and its lines are released. */
  lemma ClaimCancels(cfg: Config, st: State, k: nat)
    ensures var r := ClaimPending(cfg, st, k);
            if k >= |st.orders| || st.orders[k].status != Pending then r == Success(st)
            else
              match ApplyAll(cfg.catalog, st.tables, Unhold, st.orders[k].lines)
              case Failure(e) => r == Failure(e)
              case Success(tables) =>
                r == Success(State(tables, st.orders[k := WithStatus(st.orders[k], Cancelled)], st.nextItem, st.nextParcel))
  {
    if k < |st.orders| {
      assert st.orders[k].events + [] == st.orders[k].events;
    }
  }

  // Placing an order

  predicate Totalled(o: Order) {
    && o.subtotal == SumOfLines(o.lines) && o.grandTotal == o.subtotal + o.shipping + o.tax - o.discount
    && o.discount <= o.subtotal && o.AmountPaid() <= o.grandTotal
  }

  /** The line is the request, under a new id. */
  predicate Writes(l: Line, r: Request, item: nat) {
    && l.item == item && l.variant == r.variant && l.quantity == r.quantity
    && l.unitPrice == r.unitPrice && l.lineTotal == r.lineTotal
  }

  /** The position of the first request with this strategy, |requests| when there is none. */
  function FirstUse(c: Catalog, requests: seq<Request>, strategy: Strategy): (i: nat)
    requires forall r :: r in requests ==> r.variant in c
    ensures i <= |requests|
  {
    if requests == [] || c[requests[0].variant].strategy == strategy then 0 else 1 + FirstUse(c, requests[1..], strategy)
  }

  lemma {:induction false} FirstUseSnoc(c: Catalog, requests: seq<Request>, last: Request, strategy: Strategy)
    requires forall r :: r in requests + [last] ==> r.variant in c
    ensures forall r :: r in requests ==> r.variant in c
    ensures FirstUse(c, requests + [last], strategy)
         == if FirstUse(c, requests, strategy) < |requests| then FirstUse(c, requests, strategy)
            else if c[last.variant].strategy == strategy then |requests| else |requests| + 1
  {
    assert forall r :: r in requests ==> r in requests + [last];
    assert last in requests + [last];
    if requests != [] {
      assert (requests + [last])[1..] == requests[1..] + [last];
      FirstUseSnoc(c, requests[1..], last, strategy);
    }
  }

  /** Every strategy in use once, in the order in which the requests first use it. */
  predicate InOrderOfUse(c: Catalog, requests: seq<Request>, strategies: seq<Strategy>)
    requires forall r :: r in requests ==> r.variant in c
  {
    && (forall s :: s in strategies <==> FirstUse(c, requests, s) < |requests|)
    && (forall i, j :: 0 <= i < j < |strategies| ==>
          FirstUse(c, requests, strategies[i]) < FirstUse(c, requests, strategies[j]))
  }

  lemma {:induction false} StrategiesInOrderOfUse(c: Catalog, requests: seq<Request>)
    requires forall r :: r in requests ==> r.variant in c
    ensures InOrderOfUse(c, requests, Strategies(c, requests))
  {
    if requests != [] {
      var n := |requests| - 1;
      var last := requests[n];
      assert requests == requests[..n] + [last];
      StrategiesInOrderOfUse(c, requests[..n]);
      forall s: Strategy
        ensures FirstUse(c, requests, s)
             == if FirstUse(c, requests[..n], s) < n then FirstUse(c, requests[..n], s)
                else if c[last.variant].strategy == s then n else n + 1
      {
        FirstUseSnoc(c, requests[..n], last, s);
      }
    }
  }

  predicate Known(c: Catalog, requests: seq<Request>) {
    forall i :: 0 <= i < |requests| ==> requests[i].variant in c
  }

  predicate Passes(c: Catalog, s: Tables, source: Source, r: Request)
    requires r.variant in c
  {
    (source == Admin ==> r.quantity > 0) && Purchasable(c, s, r.variant, r.quantity)
  }

  /** What the checks before the first write let through. */
  predicate Sellable(c: Catalog, s: Tables, source: Source, requests: seq<Request>)
    requires Known(c, requests)
  {
    forall i :: 0 <= i < |requests| ==> Passes(c, s, source, requests[i])
  }

  lemma {:induction false} VettedIff(c: Catalog, s: Tables, source: Source, requests: seq<Request>)
    requires Known(c, requests)
    ensures Vetted(c, s, source, requests).Success? <==> Sellable(c, s, source, requests)
  {
    if requests != [] {
      VettedIff(c, s, source, requests[1..]);
      assert Passes(c, s, source, requests[0]) || !Sellable(c, s, source, requests);
      if Sellable(c, s, source, requests) {
        forall i | 0 <= i < |requests[1..]| ensures Passes(c, s, source, requests[1..][i]) {
          assert requests[1..][i] == requests[i + 1];
        }
      }
    }
  }

  predicate NewParcelsFor(c: Catalog, requests: seq<Request>, parcels: seq<Parcel>, nextParcel: nat)
    requires Known(c, requests)
  {
    && (forall i :: 0 <= i < |parcels| ==> parcels[i].id == nextParcel + i && parcels[i].status == ParcelPending)
    && (forall r :: r in requests ==> r.variant in c)
    && InOrderOfUse(c, requests, StrategiesOf(parcels))
  }

  function StrategiesOf(parcels: seq<Parcel>): (strategies: seq<Strategy>)
    ensures |strategies| == |parcels| && forall i :: 0 <= i < |parcels| ==> strategies[i] == parcels[i].strategy
  {
    seq(|parcels|, i requires 0 <= i < |parcels| => parcels[i].strategy)
  }

  /** The order as it is written: the lines asked for, one parcel per strategy, the totals, and nothing paid. */
  predicate Opens(c: Catalog, st: State, o: Order, source: Source, requests: seq<Request>,
                  shipping: nat, tax: nat, discount: nat, expiresAt: int)
    requires Known(c, requests)
  {
    && o.status == Pending && o.payments == [] && o.events == [StatusChanged(None, Pending)] && o.expiresAt == expiresAt
    && |o.lines| == |requests| && (forall i :: 0 <= i < |requests| ==> Writes(o.lines[i], requests[i], st.nextItem + i))
    && NewParcelsFor(c, requests, o.parcels, st.nextParcel)
    && o.shipping == shipping && o.tax == tax && o.discount == (if source == Website then discount else 0)
    && Totalled(o)
  }

  lemma NewLinesWrite(requests: seq<Request>, nextItem: nat)
    ensures var lines := NewLines(requests, nextItem);
            |lines| == |requests| && forall i :: 0 <= i < |requests| ==> Writes(lines[i], requests[i], nextItem + i)
  {
  }

  lemma NewParcelsOpen(c: Catalog, requests: seq<Request>, nextParcel: nat)
    requires Known(c, requests)
    ensures forall r :: r in requests ==> r.variant in c
    ensures NewParcelsFor(c, requests, NewParcels(Strategies(c, requests), nextParcel), nextParcel)
  {
    StrategiesInOrderOfUse(c, requests);
    assert StrategiesOf(NewParcels(Strategies(c, requests), nextParcel)) == Strategies(c, requests);
  }

  /** An order is refused exactly when it is empty, not sellable, not reservable, or its discount exceeds its lines. */
  lemma PlaceIff(cfg: Config, st: State, source: Source, requests: seq<Request>,
                 shipping: nat, tax: nat, discount: nat, expiresAt: int)
    ensures var r := Place(cfg, st, source, requests, shipping, tax, discount, expiresAt);
            var lines := NewLines(requests, st.nextItem);
            r.Success? <==>
              && requests != [] && Known(cfg.catalog, requests) && Sellable(cfg.catalog, st.tables, source, requests)
              && ApplyAll(cfg.catalog, st.tables, Hold, lines).Success?
              && (source == Website ==> discount <= SumOfLines(lines))
  {
    var c, lines := cfg.catalog, NewLines(requests, st.nextItem);
    if Known(c, requests) {
      VettedIff(c, st.tables, source, requests);
      NatTotals(lines, requests);
      assert AmountOf([], PaymentPaid) == 0;
    }
  }

  lemma {:induction false} NatTotals(lines: seq<Line>, requests: seq<Request>)
    ensures SumOfLines(lines) >= 0
  {
    if lines != [] {
      NatTotals(lines[1..], requests);
    }
  }

  /** And this is what a placed order is, and what placing it does to everything else. */
  lemma PlaceOpens(cfg: Config, st: State, source: Source, requests: seq<Request>,
                   shipping: nat, tax: nat, discount: nat, expiresAt: int)
    requires Place(cfg, st, source, requests, shipping, tax, discount, expiresAt).Success?
    ensures var st1 := Place(cfg, st, source, requests, shipping, tax, discount, expiresAt).value;
            && |st1.orders| == |st.orders| + 1 && st1.orders[..|st.orders|] == st.orders
            && var o := st1.orders[|st.orders|];
               && Known(cfg.catalog, requests)
               && Opens(cfg.catalog, st, o, source, requests, shipping, tax, discount, expiresAt)
               && ApplyAll(cfg.catalog, st.tables, Hold, o.lines) == Success(st1.tables)
               && st1.nextItem == st.nextItem + |requests| && st1.nextParcel == st.nextParcel + |o.parcels|
  {
    var c := cfg.catalog;
    NewLinesWrite(requests, st.nextItem);
    NewParcelsOpen(c, requests, st.nextParcel);
  }

  // Editing a pending order

  /** The edit of one pending order: its new lines, discount and shipping, the totals, and one event. */
  predicate EditsTo(st: State, st1: State, k: nat, lines: seq<Line>, discount: int, shipping: int, e: Event)
    requires k < |st.orders|
  {
    var o := st.orders[k];
    && |st1.orders| == |st.orders| && st1.orders == st.orders[k := st1.orders[k]] && st1.nextParcel == st.nextParcel
    && var o1 := st1.orders[k];
       && o.status == Pending && Totalled(o1) && o1.lines == lines && o1.discount == discount && o1.shipping == shipping
       && o1 == o.(lines := lines, discount := discount, shipping := shipping, subtotal := o1.subtotal,
                   grandTotal := o1.grandTotal, events := o.events + [e])
  }

  /** The totals that the new lines, discount and shipping would give are acceptable. */
  predicate Affordable(o: Order, lines: seq<Line>, discount: int, shipping: int) {
    discount <= SumOfLines(lines) && o.AmountPaid() <= SumOfLines(lines) + shipping + o.tax - discount
  }

  lemma EditedIff(st: State, k: nat, tables: Tables, lines: seq<Line>, discount: int, shipping: int, e: Event)
    requires k < |st.orders| && st.orders[k].status == Pending
    ensures var o := st.orders[k];
            var r := Edited(st, k, tables, o.(lines := lines, discount := discount, shipping := shipping), e);
            && (r.Success? <==> Affordable(o, lines, discount, shipping))
            && (r.Success? ==> r.value.tables == tables && EditsTo(st, r.value, k, lines, discount, shipping, e)
                               && r.value.nextItem == st.nextItem)
  {
  }

  lemma AddItemIff(cfg: Config, st: State, k: nat, r: Request)
    ensures var s1 := AddItem(cfg, st, k, r);
            s1.Success? ==>
              && k < |st.orders| && r.quantity > 0 && r.variant in cfg.catalog && s1.value.nextItem == st.nextItem + 1
              && var o := st.orders[k]; var l := Line(st.nextItem, r.variant, r.quantity, r.unitPrice, r.lineTotal);
                 && EditsTo(st, s1.value, k, o.lines + [l], o.discount, o.shipping, ItemAdded)
                 && Reserve(cfg.catalog, st.tables, r.variant, r.quantity) == Success(s1.value.tables)
    ensures k < |st.orders| && st.orders[k].status == Pending && r.quantity > 0 && r.variant in cfg.catalog ==>
              var o := st.orders[k]; var l := Line(st.nextItem, r.variant, r.quantity, r.unitPrice, r.lineTotal);
              (AddItem(cfg, st, k, r).Success? <==>
                 && Reserve(cfg.catalog, st.tables, r.variant, r.quantity).Success?
                 && Affordable(o, o.lines + [l], o.discount, o.shipping))
  {
  }

  /** A line total is the price rounded half up. */
  predicate PricedAt(l: Line, unitPrice: nat, quantity: nat) {
    && l.unitPrice == unitPrice && l.quantity == quantity
    && -500 < 1000 * l.lineTotal - unitPrice * quantity <= 500
  }

  /** The line at `i` is rewritten, everything else of the order's lines stays. */
  predicate Rewrites(lines: seq<Line>, lines1: seq<Line>, i: nat) {
    && i < |lines| && |lines1| == |lines| && lines1[i].item == lines[i].item
    && forall j :: 0 <= j < |lines| && j != i ==> lines1[j] == lines[j]
  }

  /** The pending order has the line. */
  predicate HasLine(st: State, k: nat, item: nat) {
    k < |st.orders| && st.orders[k].status == Pending && IndexOf(st.orders[k].lines, item) < |st.orders[k].lines|
  }

  /** Changing a quantity reserves or releases the difference and prices the line anew. */
  lemma QuantityEdit(cfg: Config, st: State, k: nat, item: nat, quantity: nat)
    ensures var r := UpdateItemQuantity(cfg, st, k, item, quantity);
            r.Success? ==>
              && HasLine(st, k, item) && quantity > 0
              && var o, i := st.orders[k], IndexOf(st.orders[k].lines, item);
                 var l := o.lines[i];
                 if quantity == l.quantity then r.value == st
                 else
                   && EditsTo(st, r.value, k, r.value.orders[k].lines, o.discount, o.shipping, ItemUpdated)
                   && Rewrites(o.lines, r.value.orders[k].lines, i) && r.value.nextItem == st.nextItem
                   && r.value.orders[k].lines[i].variant == l.variant
                   && PricedAt(r.value.orders[k].lines[i], l.unitPrice, quantity)
                   && Success(r.value.tables) ==
                        if quantity > l.quantity then Reserve(cfg.catalog, st.tables, l.variant, quantity - l.quantity)
                        else ReleaseHold(cfg.catalog, st.tables, l.variant, l.quantity - quantity)
  {
    if UpdateItemQuantity(cfg, st, k, item, quantity).Success? {
      var l := st.orders[k].lines[IndexOf(st.orders[k].lines, item)];
      HalfUp(l.unitPrice, quantity);
    }
  }

  /** Removing a line releases it. */
  lemma RemovalEdit(cfg: Config, st: State, k: nat, item: nat)
    ensures var r := RemoveItem(cfg, st, k, item);
            r.Success? ==>
              && HasLine(st, k, item)
              && var o, i := st.orders[k], IndexOf(st.orders[k].lines, item);
                 && EditsTo(st, r.value, k, o.lines[..i] + o.lines[i + 1..], o.discount, o.shipping, ItemRemoved)
                 && Apply(cfg.catalog, st.tables, Unhold, o.lines[i]) == Success(r.value.tables)
                 && r.value.nextItem == st.nextItem
  {
  }

  /** Changing the variant releases the old goods, reserves the new ones, and takes over the new price. */
  lemma VariantEdit(cfg: Config, st: State, k: nat, item: nat, to: nat, unitPrice: nat, lineTotal: nat)
    ensures var r := ChangeItemVariant(cfg, st, k, item, to, unitPrice, lineTotal);
            r.Success? ==>
              && HasLine(st, k, item) && to in cfg.catalog
              && var o, i := st.orders[k], IndexOf(st.orders[k].lines, item);
                 var l := o.lines[i];
                 if l.variant == to then r.value == st
                 else
                   var l1 := Line(l.item, to, l.quantity, unitPrice, lineTotal);
                   && EditsTo(st, r.value, k, o.lines[i := l1], o.discount, o.shipping, ItemUpdated)
                   && r.value.nextItem == st.nextItem
                   && var released := Apply(cfg.catalog, st.tables, Unhold, l);
                      released.Success? && Reserve(cfg.catalog, released.value, to, l.quantity) == Success(r.value.tables)
  {
  }

  /** Changing a unit price prices the line anew and moves no goods; it asks for a reason. */
  lemma PriceEdit(st: State, k: nat, item: nat, price: int, reason: string)
    ensures var r := AdjustItemUnitPrice(st, k, item, price, reason);
            r.Success? ==>
              && HasLine(st, k, item) && Text.Trim(reason) != "" && price >= 0
              && var o, i := st.orders[k], IndexOf(st.orders[k].lines, item);
                 if o.lines[i].unitPrice == price then r.value == st
                 else
                   && EditsTo(st, r.value, k, r.value.orders[k].lines, o.discount, o.shipping, PriceAdjusted)
                   && Rewrites(o.lines, r.value.orders[k].lines, i) && r.value.nextItem == st.nextItem
                   && r.value.orders[k].lines[i].variant == o.lines[i].variant
                   && PricedAt(r.value.orders[k].lines[i], price, o.lines[i].quantity)
                   && r.value.tables == st.tables
  {
    if AdjustItemUnitPrice(st, k, item, price, reason).Success? {
      HalfUp(price, st.orders[k].lines[IndexOf(st.orders[k].lines, item)].quantity);
    }
  }

  /** The discount and the shipping cost are set as given, exactly when the totals allow it. */
  lemma DiscountAndShippingEdits(st: State, k: nat, amount: int, reason: string)
    ensures var r := ApplyOrderDiscount(st, k, amount, reason);
            && (r.Success? <==>
                  && k < |st.orders| && st.orders[k].status == Pending && Text.Trim(reason) != "" && amount >= 0
                  && Affordable(st.orders[k], st.orders[k].lines, amount, st.orders[k].shipping))
            && (r.Success? ==>
                  && r.value.tables == st.tables && r.value.nextItem == st.nextItem
                  && EditsTo(st, r.value, k, st.orders[k].lines, amount, st.orders[k].shipping, DiscountAdjusted))
    ensures var r := UpdateShipping(st, k, amount);
            && (r.Success? <==>
                  && k < |st.orders| && st.orders[k].status == Pending && amount >= 0
                  && Affordable(st.orders[k], st.orders[k].lines, st.orders[k].discount, amount))
            && (r.Success? ==>
                  && r.value.tables == st.tables && r.value.nextItem == st.nextItem
                  && EditsTo(st, r.value, k, st.orders[k].lines, st.orders[k].discount, amount, ShippingUpdated))
  {
  }

  /** Edits that name a line are refused exactly for these reasons. */
  lemma LineEditsIff(cfg: Config, st: State, k: nat, item: nat, quantity: nat)
    requires HasLine(st, k, item)
    ensures var o, i := st.orders[k], IndexOf(st.orders[k].lines, item);
            var l := o.lines[i];
            var l1 := l.(quantity := quantity, lineTotal := LineTotal(l.unitPrice, quantity));
            var tables := if quantity > l.quantity then Apply(cfg.catalog, st.tables, Hold, l.(quantity := quantity - l.quantity))
                          else Apply(cfg.catalog, st.tables, Unhold, l.(quantity := l.quantity - quantity));
            UpdateItemQuantity(cfg, st, k, item, quantity).Success? <==>
              && quantity > 0
              && (quantity == l.quantity ||
                    (l.variant in cfg.catalog && tables.Success? && Affordable(o, o.lines[i := l1], o.discount, o.shipping)))
    ensures var o, i := st.orders[k], IndexOf(st.orders[k].lines, item);
            RemoveItem(cfg, st, k, item).Success? <==>
              && Apply(cfg.catalog, st.tables, Unhold, o.lines[i]).Success?
              && Affordable(o, o.lines[..i] + o.lines[i + 1..], o.discount, o.shipping)
  {
  }

  lemma VariantEditIff(cfg: Config, st: State, k: nat, item: nat, to: nat, unitPrice: nat, lineTotal: nat)
    requires HasLine(st, k, item)
    ensures var o, i := st.orders[k], IndexOf(st.orders[k].lines, item);
            var l := o.lines[i];
            var released := Apply(cfg.catalog, st.tables, Unhold, l);
            ChangeItemVariant(cfg, st, k, item, to, unitPrice, lineTotal).Success? <==>
              && to in cfg.catalog
              && (l.variant != to ==>
                    && released.Success? && Reserve(cfg.catalog, released.value, to, l.quantity).Success?
                    && Affordable(o, o.lines[i := Line(l.item, to, l.quantity, unitPrice, lineTotal)], o.discount, o.shipping))
  {
  }

  lemma PriceEditIff(st: State, k: nat, item: nat, price: int, reason: string)
    requires HasLine(st, k, item)
    ensures var o, i := st.orders[k], IndexOf(st.orders[k].lines, item);
            var l := o.lines[i];
            AdjustItemUnitPrice(st, k, item, price, reason).Success? <==>
              && Text.Trim(reason) != "" && price >= 0
              && (l.unitPrice == price || Affordable(o, o.lines[i := Line(l.item, l.variant, l.quantity, price,
                                                                          LineTotal(price, l.quantity))], o.discount, o.shipping))
  {
  }

  // Money

  /** The payment row and its event. */
  function WithPayment(o: Order, p: Payment): Order {
    o.(payments := o.payments + [p], events := o.events + [PaymentRecorded])
  }

  /** A recorded payment adds its row to its order, and confirms a pending order it completes when that is configured. */
  lemma PaymentLeaves(cfg: Config, st: State, k: nat, amount: int, how: PaymentStatus, reference: Option<string>)
    requires RecordPayment(cfg, st, k, amount, how, reference).Success?
    ensures k < |st.orders| && amount > 0 && st.orders[k].status != Cancelled
    ensures var st1 := RecordPayment(cfg, st, k, amount, how, reference).value;
            var o := st.orders[k]; var paid := WithPayment(o, Payment(amount, how, reference));
            if how == PaymentPaid && o.status == Pending && cfg.autoConfirm && o.AmountPaid() + amount >= o.grandTotal
            then ApplyAll(cfg.catalog, st.tables, Sell, o.lines) == Success(st1.tables)
                 && st1 == State(st1.tables, st.orders[k := WithStatus(paid, Confirmed)], st.nextItem, st.nextParcel)
            else st1 == State(st.tables, st.orders[k := paid], st.nextItem, st.nextParcel)
  {
    var paid := WithPayment(st.orders[k], Payment(amount, how, reference));
    assert paid.events + [] == paid.events;
  }

  predicate HasParcel(o: Order, parcel: nat) {
    exists i :: 0 <= i < |o.parcels| && o.parcels[i].id == parcel
  }

  /** Cash collected for a consignment is a payment on the first order that has the consignment, under its own reference. */
  lemma CollectionBooks(cfg: Config, st: State, k: nat, parcel: nat, amount: int)
    requires k < |st.orders| && HasParcel(st.orders[k], parcel) && forall j :: 0 <= j < k ==> !HasParcel(st.orders[j], parcel)
    ensures var reference := Some("cod:" + Text.Decimal(parcel));
            var r := RecordCodCollection(cfg, st, parcel, amount);
            if HasReference(st.orders, reference) then r == Success(st) || r.Failure?
            else r == RecordPayment(cfg, st, k, amount, PaymentPaid, reference)
  {
    ParcelOrder(st.orders, k, parcel);
    var reference := Some("cod:" + Text.Decimal(parcel));
    OneOfThem(st.orders, k, reference);
    if !HasReference(st.orders, reference) && RecordPayment(cfg, st, k, amount, PaymentPaid, reference).Failure? {
      assert RecordPayment(cfg, st, k, amount, PaymentPaid, reference) != Failure(DuplicateReference) by {
        SellErrors(cfg.catalog, st.tables, st.orders[k].lines);
      }
    }
  }

  lemma OneOfThem(orders: seq<Order>, k: nat, reference: Option<string>)
    requires k < |orders|
    ensures HasReference([orders[k]], reference) ==> HasReference(orders, reference)
  {
    if HasReference([orders[k]], reference) {
      var j, i :| 0 <= j < |[orders[k]]| && 0 <= i < |[orders[k]][j].payments|
                  && [orders[k]][j].payments[i].reference == reference;
      assert orders[k].payments[i].reference == reference;
    }
  }

  /** Selling goods fails for want of a row or of serials, never for a reference. */
  lemma {:induction false} SellErrors(c: Catalog, s: Tables, lines: seq<Line>)
    ensures ApplyAll(c, s, Sell, lines).Failure? ==> ApplyAll(c, s, Sell, lines).error in {NotFound, InsufficientStock}
    decreases lines
  {
    if lines != [] && Apply(c, s, Sell, lines[0]).Success? {
      SellErrors(c, Apply(c, s, Sell, lines[0]).value, lines[1..]);
    }
  }

  lemma ParcelOrder(orders: seq<Order>, k: nat, parcel: nat)
    requires k < |orders| && HasParcel(orders[k], parcel) && forall j :: 0 <= j < k ==> !HasParcel(orders[j], parcel)
    ensures OrderOfParcel(orders, parcel) == k
  {
    var i := OrderOfParcel(orders, parcel);
    if i < |orders| {
      var j := ParcelIndex(orders[i].parcels, parcel);
      assert HasParcel(orders[i], parcel) by { assert orders[i].parcels[j].id == parcel; }
    }
    var j :| 0 <= j < |orders[k].parcels| && orders[k].parcels[j].id == parcel;
    assert ParcelIndex(orders[k].parcels, parcel) < |orders[k].parcels|;
  }

  /** A refund adds its row; with the goods they come back, and a full one of a finished order ends it. */
  lemma RefundLeaves(cfg: Config, st: State, k: nat, amount: int, reason: string, reference: Option<string>, restock: bool)
    requires Refund(cfg, st, k, amount, reason, reference, restock).Success?
    ensures k < |st.orders|
    ensures var st1 := Refund(cfg, st, k, amount, reason, reference, restock).value;
            var o := st.orders[k];
            var booked := o.(payments := o.payments + [Payment(amount, PaymentRefunded, reference)],
                             events := o.events + [RefundRecorded(restock)]);
            var full := o.AmountRefunded() + amount == o.AmountPaid();
            && (if restock then ApplyAll(cfg.catalog, st.tables, Return, o.lines) == Success(st1.tables)
                else st1.tables == st.tables)
            && st1.nextItem == st.nextItem && st1.nextParcel == st.nextParcel
            && st1.orders == st.orders[k := if full && o.status in {Cancelled, Delivered} then WithStatus(booked, Refunded)
                                            else booked]
  {
    var o := st.orders[k];
    var booked := o.(payments := o.payments + [Payment(amount, PaymentRefunded, reference)],
                     events := o.events + [RefundRecorded(restock)]);
    assert booked.events + [] == booked.events;
  }

  // Gateway

  /**
   A failed payment of `amount` was delivered: its row is filed, and a pending order is cancelled with
   its lines released. A cancelled order is left alone, and so is one for an amount that is not positive.
   */
  predicate FailedDelivery(cfg: Config, st: State, k: nat, amount: int, tran: string, d: Delivery)
    requires k < |st.orders|
  {
    var o := st.orders[k];
    var filed := WithPayment(o, Payment(amount, PaymentFailed, Some(tran)));
    && d.thrown == None
    && if amount <= 0 || o.status == Cancelled then d.state == st
       else if o.status != Pending then d.state == State(st.tables, st.orders[k := filed], st.nextItem, st.nextParcel)
       else
         && ApplyAll(cfg.catalog, st.tables, Unhold, o.lines) == Success(d.state.tables)
         && d.state == State(d.state.tables, st.orders[k := WithStatus(filed, Cancelled)], st.nextItem, st.nextParcel)
  }

  lemma FailedPaymentLeaves(cfg: Config, st: State, k: nat, amount: int, tran: string)
    requires Counted(cfg.catalog, {}, st) && Rowed(cfg.catalog, st)
    requires k < |st.orders| && !HasReference(st.orders, Some(tran))
    ensures var r := RecordPayment(cfg, st, k, amount, PaymentFailed, Some(tran));
            && (r.Failure? ==> r == Failure(InvalidState) && (amount <= 0 || st.orders[k].status == Cancelled))
            && (r.Success? ==> FailedDelivery(cfg, st, k, amount, tran, Committed(r.value, ClaimPending(cfg, r.value, k))))
  {
    var r := RecordPayment(cfg, st, k, amount, PaymentFailed, Some(tran));
    if r.Success? {
      PaymentLeaves(cfg, st, k, amount, PaymentFailed, Some(tran));
      FailedPaymentClaims(cfg, st, k, amount, tran);
      ClaimCancels(cfg, r.value, k);
      var filed := WithPayment(st.orders[k], Payment(amount, PaymentFailed, Some(tran)));
      assert st.orders[k := filed][k := WithStatus(filed, Cancelled)] == st.orders[k := WithStatus(filed, Cancelled)];
    }
  }

  /** In every reachable state a failure callback files the whole total as failed and cancels a pending order. */
  lemma FailureCancels(cfg: Config, st: State, ops: seq<Op>, k: nat, tran: string)
    requires Fresh(st)
    requires var end := Run(cfg, st, ops); k < |end.orders| && !HasReference(end.orders, Some(tran))
    ensures var end := Run(cfg, st, ops);
            FailedDelivery(cfg, end, k, end.orders[k].grandTotal, tran, MarkFailed(cfg, end, k, tran))
  {
    var end := Run(cfg, st, ops);
    NothingAsked(cfg, st, ops);
    RunCounts(cfg, {}, st, ops);
    RunRows(cfg, st, ops);
    FailedPaymentLeaves(cfg, end, k, end.orders[k].grandTotal, tran);
  }

  /** And so does a callback that is not valid or not over the whole total, for the amount it reports. */
  lemma BadCallbackCancels(cfg: Config, st: State, ops: seq<Op>, k: nat, tran: string, valid: bool, received: Option<int>)
    requires Fresh(st)
    requires var end := Run(cfg, st, ops); k < |end.orders| && !HasReference(end.orders, Some(tran))
    requires !(valid && received == Some(Run(cfg, st, ops).orders[k].grandTotal))
    ensures var end := Run(cfg, st, ops);
            var amount := if received.Some? then received.value else end.orders[k].grandTotal;
            FailedDelivery(cfg, end, k, amount, tran, HandleCallback(cfg, end, k, tran, valid, received))
  {
    var end := Run(cfg, st, ops);
    NothingAsked(cfg, st, ops);
    RunCounts(cfg, {}, st, ops);
    RunRows(cfg, st, ops);
    FailedPaymentLeaves(cfg, end, k, if received.Some? then received.value else end.orders[k].grandTotal, tran);
  }

  /** A valid callback over the whole total books it, and confirms a pending order whose serials are there. */
  lemma GoodCallbackConfirms(cfg: Config, st: State, ops: seq<Op>, k: nat, tran: string)
    requires Fresh(st)
    requires var end := Run(cfg, st, ops); k < |end.orders| && !HasReference(end.orders, Some(tran))
    ensures var end := Run(cfg, st, ops); var o := end.orders[k];
            var st1 := HandleCallback(cfg, end, k, tran, true, Some(o.grandTotal)).state;
            var paid := WithPayment(o, Payment(o.grandTotal, PaymentPaid, Some(tran)));
            if !PaymentAccepted(end, k, o.grandTotal, PaymentPaid, Some(tran)) then st1 == end
            else if o.status != Pending then st1 == State(end.tables, end.orders[k := paid], end.nextItem, end.nextParcel)
            else if Servable(cfg, end, k) then
              && ApplyAll(cfg.catalog, end.tables, Sell, o.lines) == Success(st1.tables)
              && st1 == State(st1.tables, end.orders[k := WithStatus(paid, Confirmed)], end.nextItem, end.nextParcel)
            else if cfg.autoConfirm then st1 == end
            else st1 == State(end.tables, end.orders[k := paid], end.nextItem, end.nextParcel)
  {
    var end := Run(cfg, st, ops);
    var o := end.orders[k];
    var paid := WithPayment(o, Payment(o.grandTotal, PaymentPaid, Some(tran)));
    GoodsCanLeaveIff(cfg, st, ops, k);
    OrdersStaySound(cfg, st, ops);
    PaymentSucceedsIff(cfg, st, ops, k, o.grandTotal, PaymentPaid, Some(tran));
    var r := RecordPayment(cfg, end, k, o.grandTotal, PaymentPaid, Some(tran));
    assert TotalsSound(o);
    if r.Success? {
      PaymentLeaves(cfg, end, k, o.grandTotal, PaymentPaid, Some(tran));
      StatusMoves(cfg, r.value, k, Confirmed);
      assert end.orders[k := paid][k := WithStatus(paid, Confirmed)] == end.orders[k := WithStatus(paid, Confirmed)];
    }
  }

  // Which exception

  /** The first line that does not pass decides what is thrown. */
  lemma {:induction false} FirstBadLineThrows(c: Catalog, s: Tables, source: Source, requests: seq<Request>, i: nat)
    requires Known(c, requests) && i < |requests| && !Passes(c, s, source, requests[i])
    requires forall j :: 0 <= j < i ==> Passes(c, s, source, requests[j])
    ensures Vetted(c, s, source, requests)
         == Failure(if source == Admin && requests[i].quantity == 0 then InvalidArgument else InsufficientStock)
  {
    if i > 0 {
      assert Passes(c, s, source, requests[0]);
      FirstBadLineThrows(c, s, source, requests[1..], i - 1);
    }
  }

  /** What a refused checkout throws once its lines passed the first checks, and what it throws before them. */
  lemma PlaceThrows(cfg: Config, st: State, source: Source, requests: seq<Request>,
                    shipping: nat, tax: nat, discount: nat, expiresAt: int)
    ensures var r := Place(cfg, st, source, requests, shipping, tax, discount, expiresAt);
            var reserved := ApplyAll(cfg.catalog, st.tables, Hold, NewLines(requests, st.nextItem));
            && (requests == [] ==> r == Failure(InvalidArgument))
            && (requests != [] && !Known(cfg.catalog, requests) ==> r == Failure(InvalidState))
            && (requests != [] && Known(cfg.catalog, requests) && Sellable(cfg.catalog, st.tables, source, requests)
                  && r.Failure? ==>
                  r == Failure(if reserved.Failure? then reserved.error else InvalidState))
  {
    if Known(cfg.catalog, requests) {
      VettedIff(cfg.catalog, st.tables, source, requests);
    }
  }

  /** Payments and refunds: a missing order, then the amounts and the status, then the reference. */
  lemma MoneyThrows(cfg: Config, st: State, k: nat, amount: int, how: PaymentStatus, reason: string,
                    reference: Option<string>, restock: bool)
    ensures var r := RecordPayment(cfg, st, k, amount, how, reference);
            && (k >= |st.orders| ==> r == Failure(NotFound))
            && (k < |st.orders| ==>
                  var o := st.orders[k];
                  var refused := amount <= 0 || o.status == Cancelled || (how == PaymentPaid && amount > o.grandTotal - o.AmountPaid());
                  && (refused ==> r == Failure(InvalidState))
                  && (!refused && HasReference(st.orders, reference) ==> r == Failure(DuplicateReference)))
    ensures var r := Refund(cfg, st, k, amount, reason, reference, restock);
            && (Text.Trim(reason) == "" ==> r == Failure(InvalidArgument))
            && (Text.Trim(reason) != "" && k >= |st.orders| ==> r == Failure(NotFound))
            && (Text.Trim(reason) != "" && k < |st.orders| ==>
                  var o := st.orders[k]; var due := o.AmountPaid() - o.AmountRefunded();
                  var refused := amount <= 0 || amount > due || (restock && (o.status != Delivered || amount < due));
                  && (refused ==> r == Failure(InvalidState))
                  && (!refused && HasReference(st.orders, reference) ==> r == Failure(DuplicateReference)))
  {
  }

  /** Edits: a missing order, then its status, then the line, then the arguments. */
  lemma EditsThrow(cfg: Config, st: State, k: nat, request: Request, item: nat, quantity: nat, price: int, reason: string)
    ensures var added := AddItem(cfg, st, k, request); var updated := UpdateItemQuantity(cfg, st, k, item, quantity);
            var removed := RemoveItem(cfg, st, k, item); var repriced := AdjustItemUnitPrice(st, k, item, price, reason);
            var discounted := ApplyOrderDiscount(st, k, price, reason);
            if k >= |st.orders| then
              {added, updated, removed, repriced, discounted, UpdateShipping(st, k, price)} == {Failure(NotFound)}
            else if st.orders[k].status != Pending then
              {added, updated, removed, repriced, discounted, UpdateShipping(st, k, price)} == {Failure(InvalidState)}
            else
              && (request.quantity == 0 ==> added == Failure(InvalidArgument))
              && (request.quantity > 0 && request.variant !in cfg.catalog ==> added == Failure(NotFound))
              && (Text.Trim(reason) == "" || price < 0 ==> discounted == Failure(InvalidArgument))
              && (price < 0 ==> UpdateShipping(st, k, price) == Failure(InvalidArgument))
              && (!HasLine(st, k, item) ==> {updated, removed, repriced} == {Failure(InvalidState)})
              && (HasLine(st, k, item) ==>
                    && (quantity == 0 ==> updated == Failure(InvalidArgument))
                    && (Text.Trim(reason) == "" || price < 0 ==> repriced == Failure(InvalidArgument)))
  {
  }

  // Couriers

  /** A report sets the status of the consignment it names, on the first order that has it, and of no other. */
  lemma ReportSets(st: State, k: nat, parcel: nat, status: ParcelStatus)
    requires k < |st.orders| && HasParcel(st.orders[k], parcel) && forall j :: 0 <= j < k ==> !HasParcel(st.orders[j], parcel)
    ensures var r := UpdateFulfillment(st, parcel, status);
            && r.Success? && r.value == st.(orders := r.value.orders) && |r.value.orders| == |st.orders|
            && (forall j :: 0 <= j < |st.orders| && j != k ==> r.value.orders[j] == st.orders[j])
            && var o, o1 := st.orders[k], r.value.orders[k];
               && |o1.parcels| == |o.parcels| && o1.lines == o.lines && o1.payments == o.payments
               && o.events + [ParcelReported(status)] <= o1.events
               && exists i :: 0 <= i < |o.parcels| && o.parcels[i].id == parcel
                    && o1.parcels == o.parcels[i := o.parcels[i].(status := status)]
  {
    ParcelOrder(st.orders, k, parcel);
    var o := st.orders[k];
    var i := ParcelIndex(o.parcels, parcel);
    var o1 := UpdateFulfillment(st, parcel, status).value.orders[k];
    assert o1.parcels == o.parcels[i := o.parcels[i].(status := status)];
  }

  function Once(events: seq<Event>, n: Event): seq<Event> {
    if n in events then events else events + [n]
  }

  lemma {:induction false} NoneFailed(parcels: seq<Parcel>)
    requires forall j :: 0 <= j < |parcels| ==> parcels[j].status != ParcelFailed
    ensures FailedIds(parcels) == []
  {
    if parcels != [] {
      NoneFailed(parcels[1..]);
    }
  }

  /** What a report makes of an order: one of these five, and nothing else of the order changes. */
  lemma ReportWrites(o: Order, i: nat, status: ParcelStatus)
    requires i < |o.parcels|
    ensures var o1 := Reported(o, i, status);
            var parcels := o.parcels[i := o.parcels[i].(status := status)];
            var seen := o.events + [ParcelReported(status)];
            && o1 == o.(parcels := parcels, status := o1.status, events := o1.events)
            && if o.status in {Delivered, Refunded, Cancelled} then o1.status == o.status && o1.events == seen
               else if forall j :: 0 <= j < |parcels| ==> parcels[j].status == ParcelDelivered then
                 if o.status == Shipped
                 then o1.status == Delivered && o1.events == seen + [StatusChanged(Some(Shipped), Delivered)]
                 else o1.status == o.status && o1.events == Once(seen, Notice(FulfillmentUpdated, DeliveredAwaitingShipped))
               else if forall j :: 0 <= j < |parcels| ==> parcels[j].status != ParcelFailed
               then o1.status == o.status && o1.events == seen
               else o1.status == o.status && exists n :: NoticeFor(parcels, n) && o1.events == Once(seen, n)
  {
    var parcels := o.parcels[i := o.parcels[i].(status := status)];
    var seen := o.events + [ParcelReported(status)];
    var failed := FailedIds(parcels);
    forall id: nat ensures id in failed <==> HasFailed(parcels, id) {
      FailedAreListed(parcels, id);
    }
    FailedAreListed(parcels, 0);
    if j :| 0 <= j < |parcels| && parcels[j].status == ParcelFailed {
      assert HasFailed(parcels, parcels[j].id);
      var n := Notice(FinancialAdjustmentRequired,
                      if |failed| == |parcels| then AllConsignmentsFailed else PartialFailure(failed));
      assert NoticeFor(parcels, n);
    } else {
      NoneFailed(parcels);
    }
  }

  /** A report on a consignment of no order is refused. */
  lemma UnknownParcelRefused(st: State, parcel: nat, status: ParcelStatus)
    requires forall j :: 0 <= j < |st.orders| ==> !HasParcel(st.orders[j], parcel)
    ensures UpdateFulfillment(st, parcel, status) == Failure(NotFound)
  {
    var i := OrderOfParcel(st.orders, parcel);
    if i < |st.orders| {
      assert st.orders[i].parcels[ParcelIndex(st.orders[i].parcels, parcel)].id == parcel;
      assert HasParcel(st.orders[i], parcel);
    }
  }
}
