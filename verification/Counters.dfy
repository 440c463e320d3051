/** Over every run the reserved, sold and serial counters stay exact, whatever the backorder policies. */
module Counters {
  import opened Outcomes
  import opened Inventory
  import opened Orders
  import opened Engine
  import opened Lifecycle
  import opened Meters

  /** What the timeline of an order must say for its status. */
  predicate GoodsLogged(o: Order) {
    var taken, back := Taken(o.events), BroughtBack(o.events);
    match o.status
    case Pending => taken == 0 && back == 0
    case Cancelled => back == taken <= 1
    case Refunded => back <= taken <= 1
    case _ => taken == 1 && back == 0
  }

  predicate AllLogged(orders: seq<Order>) {
    forall k :: 0 <= k < |orders| ==> GoodsLogged(orders[k])
  }

  ghost predicate Counted(c: Catalog, w: set<nat>, st: State) {
    Exact(c, w, st.tables, st.orders) && WholeOrders(c, w, st.orders) && AllLogged(st.orders)
  }

  function Signed(up: bool, units: nat): int {
    if up then units else -(units as int)
  }

  // One order acted on

  /** The order's weight on every meter moves as the action moves the meter. */
  ghost predicate Follows(c: Catalog, o: Order, o1: Order, a: Action, lines: seq<Line>) {
    forall m: Meter :: Weigh(c, o1, m.Phase(), m.Gauge())
                    == Weigh(c, o, m.Phase(), m.Gauge()) + m.Shift(a, Units(c, lines, m.Gauge()))
  }

  lemma ActOnOrder(c: Catalog, w: set<nat>, s: Tables, orders: seq<Order>, k: nat, a: Action, lines: seq<Line>, o1: Order)
    requires Exact(c, w, s, orders) && WholeOrders(c, w, orders) && WholeLines(c, w, lines)
    requires k < |orders| && Follows(c, orders[k], o1, a, lines)
    requires ApplyAll(c, s, a, lines).Success?
    ensures Exact(c, w, ApplyAll(c, s, a, lines).value, orders[k := o1])
  {
    forall m: Meter | m.Runs(c, w)
      ensures m.Read(ApplyAll(c, s, a, lines).value) == Total(c, orders[k := o1], m.Phase(), m.Gauge())
    {
      assert m.Read(s) == Total(c, orders, m.Phase(), m.Gauge());
      TotalReplace(c, orders, k, o1, m.Phase(), m.Gauge());
      if m.ReservedOf? && m.variant in c && c[m.variant].tracking == Serialized {
        TotalWhole(c, w, orders, Reserving, m.variant);
      }
      assert Weigh(c, o1, m.Phase(), m.Gauge())
          == Weigh(c, orders[k], m.Phase(), m.Gauge()) + m.Shift(a, Units(c, lines, m.Gauge()));
      ApplyAllReads(c, w, s, a, lines, m);
    }
  }

  /** A new order that reserves its lines. */
  lemma HoldForNewOrder(c: Catalog, w: set<nat>, s: Tables, orders: seq<Order>, o: Order)
    requires Exact(c, w, s, orders) && WholeOrders(c, w, orders) && WholeLines(c, w, o.lines)
    requires InPhase(o, Reserving) && !InPhase(o, Keeping)
    requires ApplyAll(c, s, Hold, o.lines).Success?
    ensures Exact(c, w, ApplyAll(c, s, Hold, o.lines).value, orders + [o])
  {
    forall m: Meter | m.Runs(c, w)
      ensures m.Read(ApplyAll(c, s, Hold, o.lines).value) == Total(c, orders + [o], m.Phase(), m.Gauge())
    {
      assert m.Read(s) == Total(c, orders, m.Phase(), m.Gauge());
      TotalConcat(c, orders, [o], m.Phase(), m.Gauge());
      assert Total(c, [o], m.Phase(), m.Gauge()) == Weigh(c, o, m.Phase(), m.Gauge());
      if m.ReservedOf? && m.variant in c && c[m.variant].tracking == Serialized {
        TotalWhole(c, w, orders, Reserving, m.variant);
      }
      ApplyAllReads(c, w, s, Hold, o.lines, m);
    }
  }

  /** An order whose lines and phase stay the same weighs the same. */
  lemma SameWeight(c: Catalog, w: set<nat>, s: Tables, orders: seq<Order>, k: nat, o1: Order)
    requires Exact(c, w, s, orders) && k < |orders| && o1.lines == orders[k].lines
    requires InPhase(o1, Reserving) == InPhase(orders[k], Reserving)
    requires InPhase(o1, Keeping) == InPhase(orders[k], Keeping)
    ensures Exact(c, w, s, orders[k := o1])
  {
    forall m: Meter | m.Runs(c, w) ensures m.Read(s) == Total(c, orders[k := o1], m.Phase(), m.Gauge()) {
      assert m.Read(s) == Total(c, orders, m.Phase(), m.Gauge());
      TotalReplace(c, orders, k, o1, m.Phase(), m.Gauge());
    }
  }

  lemma Logs(o: Order, e: Event)
    ensures Taken(o.Logged(e).events) == Taken(o.events) + (if TakesOut(e) then 1 else 0)
    ensures BroughtBack(o.Logged(e).events) == BroughtBack(o.events) + (if BringsBack(e) then 1 else 0)
  {
    assert (o.events + [e])[..|o.events + [e]| - 1] == o.events;
  }

  lemma MovedCounts(o: Order, to: Status)
    ensures o.Moved(to).lines == o.lines && o.Moved(to).status == to
    ensures Taken(o.Moved(to).events) == Taken(o.events) + (if to == Confirmed then 1 else 0)
    ensures BroughtBack(o.Moved(to).events) == BroughtBack(o.events)
              + (if to == Cancelled && o.status in {Confirmed, Processing, Shipped} then 1 else 0)
  {
    var moved := o.(status := to);
    var change := StatusChanged(Some(o.status), to);
    if to == Cancelled && o.AmountPaid() > 0 {
      Logs(moved, RefundRequired);
      Logs(moved.Logged(RefundRequired), change);
    } else {
      Logs(moved, change);
    }
  }

  lemma Moves(o: Order, to: Status)
    requires GoodsLogged(o) && to in o.status.AllowedNext()
    ensures GoodsLogged(o.Moved(to)) && o.Moved(to).lines == o.lines && o.Moved(to).status == to
    ensures InPhase(o.Moved(to), Keeping)
        <==> (to == Confirmed || (InPhase(o, Keeping) && to != Cancelled))
  {
    MovedCounts(o, to);
  }

  // The calls

  lemma TransitionCounts(cfg: Config, w: set<nat>, st: State, k: nat, to: Status)
    requires Counted(cfg.catalog, w, st) && k < |st.orders| && to in st.orders[k].status.AllowedNext()
    requires Transition(cfg, st, k, to).Success?
    ensures Counted(cfg.catalog, w, Transition(cfg, st, k, to).value)
  {
    var c, o := cfg.catalog, st.orders[k];
    var o1 := o.Moved(to);
    Moves(o, to);
    assert GoodsLogged(o) && WholeLines(c, w, o.lines);
    if to == Confirmed {
      ActOnOrder(c, w, st.tables, st.orders, k, Sell, o.lines, o1);
    } else if to == Cancelled && o.status == Pending {
      ActOnOrder(c, w, st.tables, st.orders, k, Unhold, o.lines, o1);
    } else if to == Cancelled {
      ActOnOrder(c, w, st.tables, st.orders, k, Return, o.lines, o1);
    } else {
      SameWeight(c, w, st.tables, st.orders, k, o1);
    }
  }

  lemma ClaimCounts(cfg: Config, w: set<nat>, st: State, k: nat)
    requires Counted(cfg.catalog, w, st)
    ensures ClaimPending(cfg, st, k).Success? ==> Counted(cfg.catalog, w, ClaimPending(cfg, st, k).value)
  {
    if k < |st.orders| && st.orders[k].status == Pending && ClaimPending(cfg, st, k).Success? {
      TransitionCounts(cfg, w, st, k, Cancelled);
    }
  }

  lemma UpdateStatusCounts(cfg: Config, w: set<nat>, st: State, k: nat, to: Status)
    requires Counted(cfg.catalog, w, st)
    ensures UpdateStatus(cfg, st, k, to).Success? ==> Counted(cfg.catalog, w, UpdateStatus(cfg, st, k, to).value)
  {
    if UpdateStatus(cfg, st, k, to).Success? {
      TransitionCounts(cfg, w, st, k, to);
    }
  }

  /** What placing an order makes. */
  lemma PlacedOrder(cfg: Config, st: State, source: Source, requests: seq<Request>,
                    shipping: nat, tax: nat, discount: nat, expiresAt: int) returns (o: Order)
    requires Place(cfg, st, source, requests, shipping, tax, discount, expiresAt).Success?
    ensures o.lines == NewLines(requests, st.nextItem) && o.status == Pending && o.events == [StatusChanged(None, Pending)]
    ensures var tables := ApplyAll(cfg.catalog, st.tables, Hold, o.lines);
            var st1 := Place(cfg, st, source, requests, shipping, tax, discount, expiresAt).value;
            tables.Success? && st1.tables == tables.value && st1.orders == st.orders + [o]
  {
    o := Place(cfg, st, source, requests, shipping, tax, discount, expiresAt).value.orders[|st.orders|];
  }

  lemma PlaceCounts(cfg: Config, w: set<nat>, st: State, source: Source, requests: seq<Request>,
                    shipping: nat, tax: nat, discount: nat, expiresAt: int)
    requires Counted(cfg.catalog, w, st)
    ensures var r := Place(cfg, st, source, requests, shipping, tax, discount, expiresAt);
            r.Success? && WholeOrders(cfg.catalog, w, r.value.orders) ==> Counted(cfg.catalog, w, r.value)
  {
    var c, r := cfg.catalog, Place(cfg, st, source, requests, shipping, tax, discount, expiresAt);
    if r.Success? && WholeOrders(c, w, r.value.orders) {
      var o := PlacedOrder(cfg, st, source, requests, shipping, tax, discount, expiresAt);
      assert r.value.orders[|st.orders|] == o;
      NewOrderCounts(c, w, st, o, r.value);
    }
  }

  lemma NewOrderCounts(c: Catalog, w: set<nat>, st: State, o: Order, st1: State)
    requires Counted(c, w, st) && WholeLines(c, w, o.lines)
    requires o.status == Pending && o.events == [StatusChanged(None, Pending)]
    requires ApplyAll(c, st.tables, Hold, o.lines) == Success(st1.tables) && st1.orders == st.orders + [o]
    ensures Counted(c, w, st1)
  {
    assert o.events == [] + [StatusChanged(None, Pending)];
    Logs(o.(events := []), StatusChanged(None, Pending));
    HoldForNewOrder(c, w, st.tables, st.orders, o);
  }

  /** While an order is pending its lines weigh on the reservations only. */
  lemma EditFollows(c: Catalog, o: Order, o1: Order, a: Action, change: Line)
    requires o.status == Pending && o1.status == Pending && (a == Hold || a == Unhold)
    requires !InPhase(o, Keeping) && !InPhase(o1, Keeping)
    requires forall v: nat :: Units(c, o1.lines, OfVariant(v))
                           == Units(c, o.lines, OfVariant(v)) + Signed(a == Hold, Share(c, OfVariant(v), change))
    ensures Follows(c, o, o1, a, [change])
  {
    forall m: Meter
      ensures Weigh(c, o1, m.Phase(), m.Gauge()) == Weigh(c, o, m.Phase(), m.Gauge()) + m.Shift(a, Units(c, [change], m.Gauge()))
    {
      if m.ReservedOf? {
        var g := OfVariant(m.variant);
        assert Units(c, [change], g) == Share(c, g, change);
        assert Units(c, o1.lines, g) == Units(c, o.lines, g) + Signed(a == Hold, Share(c, g, change));
      }
    }
  }

  /** The edit of one order by one inventory call on the line `change`. */
  lemma EditCounts(c: Catalog, w: set<nat>, st: State, k: nat, a: Action, change: Line, o1: Order, e: Event)
    requires Counted(c, w, st) && k < |st.orders| && st.orders[k].status == Pending
    requires o1.status == Pending && o1.events == st.orders[k].events
    requires !TakesOut(e) && !BringsBack(e)
    requires a == Hold || a == Unhold
    requires WholeLine(c, w, change) && WholeLines(c, w, o1.lines)
    requires forall v: nat :: Units(c, o1.lines, OfVariant(v)) == Units(c, st.orders[k].lines, OfVariant(v))
                              + Signed(a == Hold, Share(c, OfVariant(v), change))
    requires Apply(c, st.tables, a, change).Success?
    ensures var r := Edited(st, k, Apply(c, st.tables, a, change).value, o1, e);
            r.Success? ==> Counted(c, w, r.value)
  {
    var r := Edited(st, k, Apply(c, st.tables, a, change).value, o1, e);
    if r.Success? {
      var o2 := r.value.orders[k];
      assert GoodsLogged(st.orders[k]);
      Logs(Recalculated(o1).value, e);
      EditFollows(c, st.orders[k], o2, a, change);
      assert ApplyAll(c, st.tables, a, [change]) == Apply(c, st.tables, a, change);
      ActOnOrder(c, w, st.tables, st.orders, k, a, [change], o2);
    }
  }

  /** An edit that touches neither the goods nor the tables. */
  lemma NoteCounts(c: Catalog, w: set<nat>, st: State, k: nat, o1: Order)
    requires Counted(c, w, st) && k < |st.orders|
    requires o1.status == st.orders[k].status && WholeLines(c, w, o1.lines)
    requires Taken(o1.events) == Taken(st.orders[k].events)
    requires BroughtBack(o1.events) == BroughtBack(st.orders[k].events)
    requires forall g: Gauge :: Units(c, o1.lines, g) == Units(c, st.orders[k].lines, g)
    ensures Counted(c, w, st.(orders := st.orders[k := o1]))
  {
    assert GoodsLogged(st.orders[k]);
    forall m: Meter | m.Runs(c, w)
      ensures m.Read(st.tables) == Total(c, st.orders[k := o1], m.Phase(), m.Gauge())
    {
      assert m.Read(st.tables) == Total(c, st.orders, m.Phase(), m.Gauge());
      assert Units(c, o1.lines, m.Gauge()) == Units(c, st.orders[k].lines, m.Gauge());
      TotalReplace(c, st.orders, k, o1, m.Phase(), m.Gauge());
    }
  }

  lemma AddItemCounts(cfg: Config, w: set<nat>, st: State, k: nat, r: Request)
    requires Counted(cfg.catalog, w, st)
    ensures var r1 := AddItem(cfg, st, k, r);
            r1.Success? && WholeOrders(cfg.catalog, w, r1.value.orders) ==> Counted(cfg.catalog, w, r1.value)
  {
    var c := cfg.catalog;
    if AddItem(cfg, st, k, r).Success? && WholeOrders(c, w, AddItem(cfg, st, k, r).value.orders) {
      var o := st.orders[k];
      var l := Line(st.nextItem, r.variant, r.quantity, r.unitPrice, r.lineTotal);
      var o1 := o.(lines := o.lines + [l]);
      assert AddItem(cfg, st, k, r).value.orders[k].lines == o1.lines && o1.lines[|o.lines|] == l;
      assert WholeLines(c, w, o1.lines) && WholeLine(c, w, l);
      forall v: nat ensures Units(c, o1.lines, OfVariant(v)) == Units(c, o.lines, OfVariant(v)) + Share(c, OfVariant(v), l) {
        UnitsConcat(c, o.lines, [l], OfVariant(v));
        assert Units(c, [l], OfVariant(v)) == Share(c, OfVariant(v), l);
      }
      EditCounts(c, w, st, k, Hold, l, o1, ItemAdded);
    }
  }

  /** Resizing a line is reserving or releasing the difference. */
  lemma ResizeUnits(c: Catalog, lines: seq<Line>, i: nat, l1: Line, change: Line, g: Gauge)
    requires i < |lines| && !g.InUnits()
    requires l1 == lines[i].(quantity := l1.quantity, lineTotal := l1.lineTotal)
    requires change == lines[i].(quantity := change.quantity)
    requires change.quantity == (if l1.quantity > lines[i].quantity
                                 then l1.quantity - lines[i].quantity else lines[i].quantity - l1.quantity)
    ensures Units(c, lines[i := l1], g)
         == Units(c, lines, g) + Signed(l1.quantity > lines[i].quantity, Share(c, g, change))
  {
    assert lines[i := l1] == lines[..i] + [l1] + lines[i + 1..];
    UnitsSplice(c, lines, i, [l1], g);
    assert Units(c, [l1], g) == Share(c, g, l1);
  }

  /** The inventory call that makes line `l` into `l1`: reserving or releasing the difference. */
  predicate Resizes(l: Line, l1: Line, a: Action, change: Line) {
    && l1 == l.(quantity := l1.quantity, lineTotal := l1.lineTotal)
    && (if l1.quantity > l.quantity then a == Hold && change == l.(quantity := l1.quantity - l.quantity)
        else a == Unhold && change == l.(quantity := l.quantity - l1.quantity))
  }

  lemma ResizedUnits(c: Catalog, lines: seq<Line>, i: nat, l1: Line, a: Action, change: Line)
    requires i < |lines| && Resizes(lines[i], l1, a, change)
    ensures forall v: nat :: Units(c, lines[i := l1], OfVariant(v))
                          == Units(c, lines, OfVariant(v)) + Signed(a == Hold, Share(c, OfVariant(v), change))
  {
    forall v: nat
      ensures Units(c, lines[i := l1], OfVariant(v))
           == Units(c, lines, OfVariant(v)) + Signed(a == Hold, Share(c, OfVariant(v), change))
    {
      ResizeUnits(c, lines, i, l1, change, OfVariant(v));
    }
  }

  lemma ResizeIsWhole(c: Catalog, w: set<nat>, l: Line, l1: Line, a: Action, change: Line)
    requires Resizes(l, l1, a, change) && WholeLine(c, w, l) && WholeLine(c, w, l1)
    ensures WholeLine(c, w, change)
  {
    if l.variant in w && l.variant in c && c[l.variant].tracking == Serialized {
      Thousands(l1.quantity, l.quantity);
      Thousands(l.quantity, l1.quantity);
    }
  }

  lemma ResizeCounts(c: Catalog, w: set<nat>, st: State, k: nat, i: nat, l1: Line, a: Action, change: Line)
    requires Counted(c, w, st) && k < |st.orders| && st.orders[k].status == Pending && i < |st.orders[k].lines|
    requires Resizes(st.orders[k].lines[i], l1, a, change)
    requires WholeLines(c, w, st.orders[k].lines[i := l1]) && Apply(c, st.tables, a, change).Success?
    ensures var o1 := st.orders[k].(lines := st.orders[k].lines[i := l1]);
            var r := Edited(st, k, Apply(c, st.tables, a, change).value, o1, ItemUpdated);
            r.Success? ==> Counted(c, w, r.value)
  {
    var o := st.orders[k];
    assert WholeLines(c, w, o.lines) && WholeLine(c, w, o.lines[i]) && WholeLine(c, w, o.lines[i := l1][i]);
    ResizeIsWhole(c, w, o.lines[i], l1, a, change);
    ResizedUnits(c, o.lines, i, l1, a, change);
    EditCounts(c, w, st, k, a, change, o.(lines := o.lines[i := l1]), ItemUpdated);
  }

  lemma UpdateItemQuantityCounts(cfg: Config, w: set<nat>, st: State, k: nat, item: nat, quantity: nat)
    requires Counted(cfg.catalog, w, st)
    ensures var r := UpdateItemQuantity(cfg, st, k, item, quantity);
            r.Success? && WholeOrders(cfg.catalog, w, r.value.orders) ==> Counted(cfg.catalog, w, r.value)
  {
    var c, r := cfg.catalog, UpdateItemQuantity(cfg, st, k, item, quantity);
    if r.Success? && WholeOrders(c, w, r.value.orders) && r.value != st {
      var i := IndexOf(st.orders[k].lines, item);
      var l := st.orders[k].lines[i];
      var l1 := l.(quantity := quantity, lineTotal := LineTotal(l.unitPrice, quantity));
      var a := if quantity > l.quantity then Hold else Unhold;
      var change := l.(quantity := if quantity > l.quantity then quantity - l.quantity else l.quantity - quantity);
      assert r.value.orders[k].lines == st.orders[k].lines[i := l1];
      ResizeCounts(c, w, st, k, i, l1, a, change);
    }
  }

  lemma RemoveItemCounts(cfg: Config, w: set<nat>, st: State, k: nat, item: nat)
    requires Counted(cfg.catalog, w, st)
    ensures var r := RemoveItem(cfg, st, k, item); r.Success? ==> Counted(cfg.catalog, w, r.value)
  {
    var c := cfg.catalog;
    if RemoveItem(cfg, st, k, item).Success? {
      var o := st.orders[k];
      var i := IndexOf(o.lines, item);
      var o1 := o.(lines := o.lines[..i] + o.lines[i + 1..]);
      assert WholeLines(c, w, o.lines) && WholeLine(c, w, o.lines[i]);
      forall v: nat
        ensures Units(c, o1.lines, OfVariant(v)) == Units(c, o.lines, OfVariant(v)) - Share(c, OfVariant(v), o.lines[i])
      {
        assert o1.lines == o.lines[..i] + [] + o.lines[i + 1..];
        UnitsSplice(c, o.lines, i, [], OfVariant(v));
      }
      EditCounts(c, w, st, k, Unhold, o.lines[i], o1, ItemRemoved);
    }
  }

  lemma SwapUnits(c: Catalog, lines: seq<Line>, i: nat, l1: Line, g: Gauge)
    requires i < |lines|
    ensures Units(c, lines[..i] + lines[i + 1..], g) == Units(c, lines, g) - Share(c, g, lines[i])
    ensures Units(c, lines[i := l1], g) == Units(c, lines, g) - Share(c, g, lines[i]) + Share(c, g, l1)
    ensures Units(c, [lines[i]], g) == Share(c, g, lines[i])
  {
    assert lines[..i] + lines[i + 1..] == lines[..i] + [] + lines[i + 1..];
    UnitsSplice(c, lines, i, [], g);
    assert lines[i := l1] == lines[..i] + [l1] + lines[i + 1..];
    UnitsSplice(c, lines, i, [l1], g);
    assert Units(c, [l1], g) == Share(c, g, l1);
  }

  /** The swap releases the old line and then reserves the new one. */
  lemma ChangeItemVariantCounts(cfg: Config, w: set<nat>, st: State, k: nat, item: nat, to: nat, unitPrice: nat, lineTotal: nat)
    requires Counted(cfg.catalog, w, st)
    ensures var r := ChangeItemVariant(cfg, st, k, item, to, unitPrice, lineTotal);
            r.Success? && WholeOrders(cfg.catalog, w, r.value.orders) ==> Counted(cfg.catalog, w, r.value)
  {
    var c, r := cfg.catalog, ChangeItemVariant(cfg, st, k, item, to, unitPrice, lineTotal);
    if r.Success? && WholeOrders(c, w, r.value.orders) && r.value != st {
      var o := st.orders[k];
      var i := IndexOf(o.lines, item);
      var l := o.lines[i];
      var l1 := l.(variant := to, unitPrice := unitPrice, lineTotal := lineTotal);
      var without := o.(lines := o.lines[..i] + o.lines[i + 1..]);
      var o1 := o.(lines := o.lines[i := l1]);
      assert r.value.orders[k].lines == o1.lines && o1.lines[i] == l1;
      assert WholeLines(c, w, o.lines) && WholeLines(c, w, o1.lines) && WholeLine(c, w, l) && WholeLine(c, w, l1);
      assert GoodsLogged(o);
      forall v: nat
        ensures Units(c, without.lines, OfVariant(v)) == Units(c, o.lines, OfVariant(v)) - Share(c, OfVariant(v), l)
        ensures Units(c, o1.lines, OfVariant(v)) == Units(c, without.lines, OfVariant(v)) + Share(c, OfVariant(v), l1)
      {
        SwapUnits(c, o.lines, i, l1, OfVariant(v));
      }
      EditFollows(c, o, without, Unhold, l);
      var released := Apply(c, st.tables, Unhold, l).value;
      assert ApplyAll(c, st.tables, Unhold, [l]) == Success(released);
      ActOnOrder(c, w, st.tables, st.orders, k, Unhold, [l], without);
      var st1 := st.(tables := released, orders := st.orders[k := without]);
      EditCounts(c, w, st1, k, Hold, l1, o1, ItemUpdated);
      assert st1.orders[k := r.value.orders[k]] == st.orders[k := r.value.orders[k]];
    }
  }

  lemma RepricingCounts(c: Catalog, w: set<nat>, st: State, k: nat, o1: Order, e: Event)
    requires Counted(c, w, st) && k < |st.orders| && o1.status == st.orders[k].status && o1.events == st.orders[k].events
    requires !TakesOut(e) && !BringsBack(e)
    requires |o1.lines| == |st.orders[k].lines|
    requires forall i :: 0 <= i < |o1.lines| ==>
               var l := st.orders[k].lines[i];
               o1.lines[i] == l.(unitPrice := o1.lines[i].unitPrice, lineTotal := o1.lines[i].lineTotal)
    ensures var r := Edited(st, k, st.tables, o1, e); r.Success? ==> Counted(c, w, r.value)
  {
    if Recalculated(o1).Success? {
      var o2 := Recalculated(o1).value;
      Logs(o2, e);
      assert WholeLines(c, w, st.orders[k].lines);
      forall i | 0 <= i < |o1.lines| ensures WholeLine(c, w, o1.lines[i]) {
        assert WholeLine(c, w, st.orders[k].lines[i]);
      }
      forall g: Gauge ensures Units(c, o1.lines, g) == Units(c, st.orders[k].lines, g) {
        SameUnits(c, st.orders[k].lines, o1.lines, g);
      }
      NoteCounts(c, w, st, k, o2.Logged(e));
    }
  }

  lemma AdjustItemUnitPriceCounts(c: Catalog, w: set<nat>, st: State, k: nat, item: nat, price: int, reason: string)
    requires Counted(c, w, st)
    ensures var r := AdjustItemUnitPrice(st, k, item, price, reason); r.Success? ==> Counted(c, w, r.value)
  {
    if AdjustItemUnitPrice(st, k, item, price, reason).Success? {
      var o := st.orders[k];
      var i := IndexOf(o.lines, item);
      var l1 := o.lines[i].(unitPrice := price, lineTotal := LineTotal(price, o.lines[i].quantity));
      RepricingCounts(c, w, st, k, o.(lines := o.lines[i := l1]), PriceAdjusted);
    }
  }

  lemma {:induction false} SameUnits(c: Catalog, a: seq<Line>, b: seq<Line>, g: Gauge)
    requires |a| == |b|
    requires forall i :: 0 <= i < |a| ==> b[i] == a[i].(unitPrice := b[i].unitPrice, lineTotal := b[i].lineTotal)
    ensures Units(c, a, g) == Units(c, b, g)
  {
    if a != [] {
      assert b[0] == a[0].(unitPrice := b[0].unitPrice, lineTotal := b[0].lineTotal);
      SameUnits(c, a[1..], b[1..], g);
    }
  }

  lemma {:induction false} ReleaseExpiredCounts(cfg: Config, w: set<nat>, st: State, now: int, k: nat)
    requires Counted(cfg.catalog, w, st) && k <= |st.orders|
    ensures var r := ReleaseExpired(cfg, st, now, k); r.Success? ==> Counted(cfg.catalog, w, r.value)
    decreases |st.orders| - k
  {
    if k < |st.orders| {
      if Expired(st.orders[k], now) && ClaimPending(cfg, st, k).Success? {
        ClaimCounts(cfg, w, st, k);
        ReleaseExpiredCounts(cfg, w, ClaimPending(cfg, st, k).value, now, k + 1);
      } else {
        ReleaseExpiredCounts(cfg, w, st, now, k + 1);
      }
    }
  }

  lemma RecordPaymentCounts(cfg: Config, w: set<nat>, st: State, k: nat, amount: int, status: PaymentStatus, reference: Option<string>)
    requires Counted(cfg.catalog, w, st)
    ensures var r := RecordPayment(cfg, st, k, amount, status, reference); r.Success? ==> Counted(cfg.catalog, w, r.value)
  {
    if RecordPayment(cfg, st, k, amount, status, reference).Success? {
      var o := st.orders[k];
      var paid := o.(payments := o.payments + [Payment(amount, status, reference)]);
      Logs(paid, PaymentRecorded);
      assert WholeLines(cfg.catalog, w, o.lines);
      NoteCounts(cfg.catalog, w, st, k, paid.Logged(PaymentRecorded));
      var st1 := st.(orders := st.orders[k := paid.Logged(PaymentRecorded)]);
      if UpdateStatus(cfg, st1, k, Confirmed).Success? {
        TransitionCounts(cfg, w, st1, k, Confirmed);
      }
    }
  }

  lemma RestockingRefundCounts(cfg: Config, w: set<nat>, st: State, k: nat, o1: Order)
    requires Counted(cfg.catalog, w, st) && k < |st.orders| && st.orders[k].status == Delivered
    requires o1.status == Delivered && o1.lines == st.orders[k].lines
    requires Taken(o1.events) == Taken(st.orders[k].events)
    requires BroughtBack(o1.events) == BroughtBack(st.orders[k].events) + 1
    requires ApplyAll(cfg.catalog, st.tables, Return, o1.lines).Success?
    ensures Counted(cfg.catalog, w, st.(tables := ApplyAll(cfg.catalog, st.tables, Return, o1.lines).value,
                                     orders := st.orders[k := o1.Moved(Refunded)]))
  {
    assert GoodsLogged(st.orders[k]) && WholeLines(cfg.catalog, w, st.orders[k].lines);
    MovedCounts(o1, Refunded);
    ActOnOrder(cfg.catalog, w, st.tables, st.orders, k, Return, o1.lines, o1.Moved(Refunded));
  }

  lemma PlainRefundCounts(cfg: Config, w: set<nat>, st: State, k: nat, o1: Order)
    requires Counted(cfg.catalog, w, st) && k < |st.orders|
    requires o1.status == st.orders[k].status && o1.lines == st.orders[k].lines
    requires Taken(o1.events) == Taken(st.orders[k].events) && BroughtBack(o1.events) == BroughtBack(st.orders[k].events)
    ensures Counted(cfg.catalog, w, st.(orders := st.orders[k := o1]))
    ensures var r := UpdateStatus(cfg, st.(orders := st.orders[k := o1]), k, Refunded);
            r.Success? ==> Counted(cfg.catalog, w, r.value)
  {
    assert WholeLines(cfg.catalog, w, st.orders[k].lines);
    NoteCounts(cfg.catalog, w, st, k, o1);
    UpdateStatusCounts(cfg, w, st.(orders := st.orders[k := o1]), k, Refunded);
  }

  lemma RefundCounts(cfg: Config, w: set<nat>, st: State, k: nat, amount: int, reason: string, reference: Option<string>, restock: bool)
    requires Counted(cfg.catalog, w, st)
    ensures var r := Refund(cfg, st, k, amount, reason, reference, restock); r.Success? ==> Counted(cfg.catalog, w, r.value)
  {
    if Refund(cfg, st, k, amount, reason, reference, restock).Success? {
      var booked := st.orders[k].(payments := st.orders[k].payments + [Payment(amount, PaymentRefunded, reference)]);
      Logs(booked, RefundRecorded(restock));
      if restock {
        RestockingRefundCounts(cfg, w, st, k, booked.Logged(RefundRecorded(true)));
        RestockingRefund(cfg, st, k, amount, reason, reference);
      } else {
        PlainRefundCounts(cfg, w, st, k, booked.Logged(RefundRecorded(false)));
      }
    }
  }

  /** A refund that restocks always ends in Refunded. */
  lemma RestockingRefund(cfg: Config, st: State, k: nat, amount: int, reason: string, reference: Option<string>)
    requires Refund(cfg, st, k, amount, reason, reference, true).Success?
    ensures var o1 := st.orders[k].(payments := st.orders[k].payments + [Payment(amount, PaymentRefunded, reference)])
                                  .Logged(RefundRecorded(true));
            var tables := ApplyAll(cfg.catalog, st.tables, Return, st.orders[k].lines);
            && tables.Success?
            && Refund(cfg, st, k, amount, reason, reference, true).value
                 == st.(tables := tables.value, orders := st.orders[k := o1.Moved(Refunded)])
  {
  }

  predicate SamePlace(o: Order, o1: Order) {
    && o1.lines == o.lines && GoodsLogged(o1)
    && InPhase(o1, Reserving) == InPhase(o, Reserving) && InPhase(o1, Keeping) == InPhase(o, Keeping)
  }

  /** A courier's report never moves the goods. */
  lemma PropagationCounts(o: Order)
    requires GoodsLogged(o)
    ensures SamePlace(o, Propagated(o))
  {
    if o.status == Shipped {
      Moves(o, Delivered);
    }
  }

  lemma ReportCounts(o: Order, i: nat, status: ParcelStatus)
    requires GoodsLogged(o) && i < |o.parcels|
    ensures SamePlace(o, Reported(o, i, status))
  {
    var moved := o.(parcels := o.parcels[i := o.parcels[i].(status := status)]);
    Logs(moved, ParcelReported(status));
    PropagationCounts(moved.Logged(ParcelReported(status)));
  }

  lemma ReportedCounts(c: Catalog, w: set<nat>, st: State, k: nat, i: nat, status: ParcelStatus)
    requires Counted(c, w, st) && k < |st.orders| && i < |st.orders[k].parcels|
    ensures Counted(c, w, st.(orders := st.orders[k := Reported(st.orders[k], i, status)]))
  {
    assert WholeLines(c, w, st.orders[k].lines) && GoodsLogged(st.orders[k]);
    ReportCounts(st.orders[k], i, status);
    SameWeight(c, w, st.tables, st.orders, k, Reported(st.orders[k], i, status));
  }

  lemma UpdateFulfillmentCounts(c: Catalog, w: set<nat>, st: State, parcel: nat, status: ParcelStatus)
    requires Counted(c, w, st)
    ensures var r := UpdateFulfillment(st, parcel, status); r.Success? ==> Counted(c, w, r.value)
  {
    var k := OrderOfParcel(st.orders, parcel);
    if k < |st.orders| {
      ReportedCounts(c, w, st, k, ParcelIndex(st.orders[k].parcels, parcel), status);
    }
  }

  lemma CallbackCounts(cfg: Config, w: set<nat>, st: State, k: nat, tran: string, valid: bool, amount: Option<int>)
    requires Counted(cfg.catalog, w, st)
    ensures Counted(cfg.catalog, w, HandleCallback(cfg, st, k, tran, valid, amount).state)
  {
    if k < |st.orders| {
      var o := st.orders[k];
      var booked := if amount.Some? then amount.value else o.grandTotal;
      var reported := if amount.Some? then amount.value else 0;
      var status := if valid && reported == o.grandTotal then PaymentPaid else PaymentFailed;
      RecordPaymentCounts(cfg, w, st, k, booked, status, Some(tran));
      var r := RecordPayment(cfg, st, k, booked, status, Some(tran));
      if r.Success? {
        ClaimCounts(cfg, w, r.value, k);
        UpdateStatusCounts(cfg, w, r.value, k, Confirmed);
      }
    }
  }

  lemma MarkFailedCounts(cfg: Config, w: set<nat>, st: State, k: nat, tran: string)
    requires Counted(cfg.catalog, w, st)
    ensures Counted(cfg.catalog, w, MarkFailed(cfg, st, k, tran).state)
  {
    if k < |st.orders| {
      var r := RecordPayment(cfg, st, k, st.orders[k].grandTotal, PaymentFailed, Some(tran));
      RecordPaymentCounts(cfg, w, st, k, st.orders[k].grandTotal, PaymentFailed, Some(tran));
      if r.Success? {
        ClaimCounts(cfg, w, r.value, k);
      }
    }
  }

  /** Stock calls move neither a reservation nor an attribution. */
  lemma StockCounts(c: Catalog, w: set<nat>, st: State, s1: Tables)
    requires Counted(c, w, st)
    requires s1.stock.Keys == st.tables.stock.Keys && s1.sold == st.tables.sold
    requires forall v :: v in s1.stock ==> s1.stock[v].reserved == st.tables.stock[v].reserved
    requires s1.serials == st.tables.serials || exists v :: s1.serials == st.tables.serials + [Serial(v, Available)]
    requires s1.movements == st.tables.movements
          || (exists row: Movement :: row.kind in {Restocked, Adjustment} && s1.movements == st.tables.movements + [row])
    ensures Counted(c, w, st.(tables := s1))
  {
    forall m: Meter | m.Runs(c, w) ensures m.Read(s1) == Total(c, st.orders, m.Phase(), m.Gauge()) {
      assert m.Read(st.tables) == Total(c, st.orders, m.Phase(), m.Gauge());
      if m.NetSales? && s1.movements != st.tables.movements {
        var row: Movement :| row.kind in {Restocked, Adjustment} && s1.movements == st.tables.movements + [row];
        LedgerSnoc(st.tables.movements, row, m.variant, {Sale, Returned});
      }
      if m.SerialsOut? && s1.serials != st.tables.serials {
        var v :| s1.serials == st.tables.serials + [Serial(v, Available)];
        CountSnoc(st.tables.serials, Serial(v, Available), m.variant, Available);
        RegisteredSnoc(st.tables.serials, Serial(v, Available), m.variant);
      }
      if m.SerialsOf? && s1.serials != st.tables.serials {
        var v :| s1.serials == st.tables.serials + [Serial(v, Available)];
        CountSnoc(st.tables.serials, Serial(v, Available), m.variant, Sold(m.item));
      }
    }
  }

  lemma {:induction false} CountSnoc(serials: seq<Serial>, s: Serial, v: nat, h: Holder)
    ensures Count(serials + [s], v, h) == Count(serials, v, h) + (if s == Serial(v, h) then 1 else 0)
  {
    if serials != [] {
      assert (serials + [s])[1..] == serials[1..] + [s];
      CountSnoc(serials[1..], s, v, h);
    }
  }

  lemma {:induction false} RegisteredSnoc(serials: seq<Serial>, s: Serial, v: nat)
    ensures Registered(serials + [s], v) == Registered(serials, v) + (if s.variant == v then 1 else 0)
  {
    if serials != [] {
      assert (serials + [s])[1..] == serials[1..] + [s];
      RegisteredSnoc(serials[1..], s, v);
    }
  }

  lemma EditOpCounts(cfg: Config, w: set<nat>, st: State, op: Op)
    requires Counted(cfg.catalog, w, st) && WholeOrders(cfg.catalog, w, Step(cfg, st, op).orders)
    requires op.OpAddItem? || op.OpUpdateItemQuantity? || op.OpRemoveItem? || op.OpChangeItemVariant?
          || op.OpAdjustItemUnitPrice? || op.OpApplyOrderDiscount? || op.OpUpdateShipping?
    ensures Counted(cfg.catalog, w, Step(cfg, st, op))
  {
    match op
    case OpAddItem(k, r) => AddItemCounts(cfg, w, st, k, r);
    case OpUpdateItemQuantity(k, item, quantity) => UpdateItemQuantityCounts(cfg, w, st, k, item, quantity);
    case OpRemoveItem(k, item) => RemoveItemCounts(cfg, w, st, k, item);
    case OpChangeItemVariant(k, item, to, unitPrice, lineTotal) =>
      ChangeItemVariantCounts(cfg, w, st, k, item, to, unitPrice, lineTotal);
    case OpAdjustItemUnitPrice(k, item, price, reason) =>
      AdjustItemUnitPriceCounts(cfg.catalog, w, st, k, item, price, reason);
    case OpApplyOrderDiscount(k, amount, reason) =>
      if k < |st.orders| {
        RepricingCounts(cfg.catalog, w, st, k, st.orders[k].(discount := amount), DiscountAdjusted);
      }
    case OpUpdateShipping(k, amount) =>
      if k < |st.orders| {
        RepricingCounts(cfg.catalog, w, st, k, st.orders[k].(shipping := amount), ShippingUpdated);
      }
  }

  lemma MoneyOpCounts(cfg: Config, w: set<nat>, st: State, op: Op)
    requires Counted(cfg.catalog, w, st)
    requires op.OpRecordPayment? || op.OpRecordCodCollection? || op.OpRefund?
    ensures Counted(cfg.catalog, w, Step(cfg, st, op))
  {
    match op
    case OpRecordPayment(k, amount, how, reference) => RecordPaymentCounts(cfg, w, st, k, amount, how, reference);
    case OpRecordCodCollection(parcel, amount) =>
      RecordPaymentCounts(cfg, w, st, OrderOfParcel(st.orders, parcel), amount, PaymentPaid, CodReference(parcel));
    case OpRefund(k, amount, reason, reference, restock) => RefundCounts(cfg, w, st, k, amount, reason, reference, restock);
  }

  /** Each call keeps every meter exact, those of a serialized variant's quantities while its lines are whole. */
  lemma StepCounts(cfg: Config, w: set<nat>, st: State, op: Op)
    requires Counted(cfg.catalog, w, st) && WholeOrders(cfg.catalog, w, Step(cfg, st, op).orders)
    ensures Counted(cfg.catalog, w, Step(cfg, st, op))
  {
    match op
    case OpPlace(source, requests, shipping, tax, discount, expiresAt) =>
      PlaceCounts(cfg, w, st, source, requests, shipping, tax, discount, expiresAt);
    case OpUpdateStatus(k, to) => UpdateStatusCounts(cfg, w, st, k, to);
    case OpClaimPending(k) => ClaimCounts(cfg, w, st, k);
    case OpReleaseExpired(now) => ReleaseExpiredCounts(cfg, w, st, now, 0);
    case OpUpdateFulfillment(parcel, report) => UpdateFulfillmentCounts(cfg.catalog, w, st, parcel, report);
    case OpRecordPayment(_, _, _, _) => MoneyOpCounts(cfg, w, st, op);
    case OpRecordCodCollection(_, _) => MoneyOpCounts(cfg, w, st, op);
    case OpRefund(_, _, _, _, _) => MoneyOpCounts(cfg, w, st, op);
    case OpHandleCallback(k, tran, valid, received) => CallbackCounts(cfg, w, st, k, tran, valid, received);
    case OpMarkFailed(k, tran) => MarkFailedCounts(cfg, w, st, k, tran);
    case OpRestock(_, _) => StockCounts(cfg.catalog, w, st, Step(cfg, st, op).tables);
    case OpAdjust(_, _) => StockCounts(cfg.catalog, w, st, Step(cfg, st, op).tables);
    case OpReceiveSerial(_) => StockCounts(cfg.catalog, w, st, Step(cfg, st, op).tables);
    case _ => EditOpCounts(cfg, w, st, op);
  }

  /** No call of the run leaves an order with a fraction of a serialized variant in `w`. */
  predicate WholeRun(cfg: Config, st: State, ops: seq<Op>, w: set<nat>)
    decreases ops
  {
    ops == [] ||
    var st1 := Step(cfg, st, ops[0]);
    WholeOrders(cfg.catalog, w, st1.orders) && WholeRun(cfg, st1, ops[1..], w)
  }

  lemma {:induction false} NothingAsked(cfg: Config, st: State, ops: seq<Op>)
    ensures WholeRun(cfg, st, ops, {})
    decreases ops
  {
    if ops != [] {
      NothingAsked(cfg, Step(cfg, st, ops[0]), ops[1..]);
    }
  }

  /** A fresh store: empty stock rows, and nothing sold, serialized or ordered yet. */
  predicate Fresh(st: State) {
    && st.orders == [] && st.tables.serials == [] && st.tables.sold == map[] && st.tables.movements == []
    && forall v :: v in st.tables.stock ==> st.tables.stock[v] == StockRow(0, 0)
  }

  lemma {:induction false} RunCounts(cfg: Config, w: set<nat>, st: State, ops: seq<Op>)
    requires Counted(cfg.catalog, w, st) && WholeRun(cfg, st, ops, w)
    ensures Counted(cfg.catalog, w, Run(cfg, st, ops))
    decreases ops
  {
    if ops != [] {
      StepCounts(cfg, w, st, ops[0]);
      RunCounts(cfg, w, Step(cfg, st, ops[0]), ops[1..]);
    }
  }

  /** The variants that a theorem about `v` asks to be ordered in whole units: `v` itself, if serialized. */
  function Asked(c: Catalog, v: nat): set<nat> {
    if v in c && c[v].tracking == Serialized then {v} else {}
  }

  lemma MeterIsExact(cfg: Config, w: set<nat>, st: State, ops: seq<Op>, m: Meter)
    requires Fresh(st) && WholeRun(cfg, st, ops, w) && m.Runs(cfg.catalog, w)
    ensures m.Read(Run(cfg, st, ops).tables) == Total(cfg.catalog, Run(cfg, st, ops).orders, m.Phase(), m.Gauge())
  {
    RunCounts(cfg, w, st, ops);
  }

  /**
   In every reachable state, with any backorder policy: a product's sold quantity is what orders
   took and did not return, every line owns its whole units in serials, and a stock row's reserved
   quantity is the quantity of its variant on pending orders, unless that very variant is
   serialized and was ordered in a fraction.
   */
  lemma CountersAreExact(cfg: Config, st: State, ops: seq<Op>, v: nat, p: nat, item: nat)
    requires Fresh(st)
    ensures var end := Run(cfg, st, ops); var c := cfg.catalog;
            && (v in end.tables.stock && WholeRun(cfg, st, ops, Asked(c, v)) ==>
                  end.tables.stock[v].reserved == Total(c, end.orders, Reserving, OfVariant(v)))
            && end.tables.SoldOf(p) == Total(c, end.orders, Keeping, OfProduct(p))
            && (v in c && c[v].tracking == Serialized ==>
                  1000 * Count(end.tables.serials, v, Sold(item)) == Total(c, end.orders, Keeping, OfItem(v, item)))
  {
    var c := cfg.catalog;
    NothingAsked(cfg, st, ops);
    MeterIsExact(cfg, {}, st, ops, SoldCount(p));
    if v in c && c[v].tracking == Serialized {
      MeterIsExact(cfg, {}, st, ops, SerialsOf(v, item));
    }
    if WholeRun(cfg, st, ops, Asked(c, v)) {
      MeterIsExact(cfg, Asked(c, v), st, ops, ReservedOf(v));
    }
  }

  // What the timelines say

  lemma ChangeLogged(o: Order, ch: Change)
    requires GoodsLogged(o) && Allowed(o, ch)
    ensures GoodsLogged(Changed(o, ch))
  {
    match ch
    case Edit(lines, shipping, discount, event) =>
      Logs(Recalculated(o.(lines := lines, shipping := shipping, discount := discount)).value, event);
    case Move(to) => Moves(o, to);
    case Pay(amount, how, reference) =>
      Logs(o.(payments := o.payments + [Payment(amount, how, reference)]), PaymentRecorded);
    case PayBack(amount, reference, restock) =>
      var paidBack := o.(payments := o.payments + [Payment(amount, PaymentRefunded, reference)]);
      Logs(paidBack, RefundRecorded(restock));
      MovedCounts(paidBack.Logged(RefundRecorded(restock)), Refunded);
    case Report(i, status) => ReportCounts(o, i, status);
  }

  lemma {:induction false} LeadsLogged(o: Order, chs: seq<Change>, o1: Order, booked: bool)
    requires GoodsLogged(o) && Leads(o, chs, o1, booked)
    ensures GoodsLogged(o1)
    decreases chs
  {
    if chs != [] {
      ChangeLogged(o, chs[0]);
      LeadsLogged(Changed(o, chs[0]), chs[1..], o1, booked);
    }
  }

  lemma AdvancesLogged(st: State, st1: State, at: Option<nat>)
    requires AllLogged(st.orders) && Advances(st, st1, at)
    ensures AllLogged(st1.orders)
  {
    forall k | 0 <= k < |st1.orders| ensures GoodsLogged(st1.orders[k]) {
      if k < |st.orders| {
        var chs :| Leads(st.orders[k], chs, st1.orders[k], at == Some(k));
        LeadsLogged(st.orders[k], chs, st1.orders[k], at == Some(k));
      }
    }
  }

  /** Whatever is ordered, in whole units or not. */
  lemma StepLogged(cfg: Config, st: State, op: Op)
    requires AllLogged(st.orders)
    ensures AllLogged(Step(cfg, st, op).orders)
  {
    StepTravels(cfg, st, op);
    AdvancesLogged(st, Step(cfg, st, op), BookedAt(op));
  }

  lemma {:induction false} RunLogged(cfg: Config, st: State, ops: seq<Op>)
    requires AllLogged(st.orders)
    ensures AllLogged(Run(cfg, st, ops).orders)
    decreases ops
  {
    if ops != [] {
      StepLogged(cfg, st, ops[0]);
      RunLogged(cfg, Step(cfg, st, ops[0]), ops[1..]);
    }
  }

  /** No run takes an order's goods out twice or brings them back twice, nor back before they left. */
  lemma GoodsComeBackAtMostOnce(cfg: Config, st: State, ops: seq<Op>, k: nat)
    requires Fresh(st) && k < |Run(cfg, st, ops).orders|
    ensures var events := Run(cfg, st, ops).orders[k].events; BroughtBack(events) <= Taken(events) <= 1
  {
    RunLogged(cfg, st, ops);
    assert GoodsLogged(Run(cfg, st, ops).orders[k]);
  }
}
