/** What the hand-kept counters are supposed to say. */
module Meters {
  import opened Outcomes
  import opened Inventory
  import opened Orders
  import opened Engine

  // Three counters are maintained by deltas: the reserved quantity of a stock row, the sold
  // quantity of a product, and the serials attributed to an order line. Each is a meter on the
  // tables, and each has a value that can be derived from the orders alone. `w` are the variants
  // that are ordered in whole units; it may be empty.

  /** Which lines of an order count; serials are counted in whole units. */
  datatype Gauge = OfVariant(variant: nat) | OfProduct(product: nat) | OfItem(variant: nat, item: nat) | OfUnits(variant: nat)
  {
    predicate InUnits() {
      OfItem? || OfUnits?
    }
  }

  predicate Hits(c: Catalog, g: Gauge, l: Line) {
    l.variant in c && c[l.variant].strategy == Stock &&
    match g
    case OfVariant(v) => l.variant == v
    case OfProduct(p) => c[l.variant].product == p
    case OfItem(v, item) => l.variant == v && l.item == item
    case OfUnits(v) => l.variant == v
  }

  function Share(c: Catalog, g: Gauge, l: Line): nat {
    if !Hits(c, g, l) then 0 else if g.InUnits() then 1000 * WholeUnits(l.quantity) else l.quantity
  }

  function Units(c: Catalog, lines: seq<Line>, g: Gauge): nat {
    if lines == [] then 0 else Share(c, g, lines[0]) + Units(c, lines[1..], g)
  }

  // The timeline decides where an order's goods are

  function Taken(events: seq<Event>): nat {
    if events == [] then 0
    else Taken(events[..|events| - 1]) + (if TakesOut(events[|events| - 1]) then 1 else 0)
  }

  predicate TakesOut(e: Event) {
    e.StatusChanged? && e.to == Confirmed
  }

  predicate BringsBack(e: Event) {
    || (e.StatusChanged? && e.to == Cancelled && e.from.Some? && e.from.value in {Confirmed, Processing, Shipped})
    || (e.RefundRecorded? && e.restocked)
  }

  /** How often the goods came back, by a cancellation or by a refund that restocks. */
  function BroughtBack(events: seq<Event>): nat {
    if events == [] then 0
    else BroughtBack(events[..|events| - 1]) + (if BringsBack(events[|events| - 1]) then 1 else 0)
  }

  /** A pending order reserves its goods; an order that took them and did not return them has them. */
  datatype Phase = Reserving | Keeping

  predicate InPhase(o: Order, phase: Phase) {
    match phase
    case Reserving => o.status == Pending
    case Keeping => Taken(o.events) > BroughtBack(o.events)
  }

  function Weigh(c: Catalog, o: Order, phase: Phase, g: Gauge): nat {
    if InPhase(o, phase) then Units(c, o.lines, g) else 0
  }

  function Total(c: Catalog, orders: seq<Order>, phase: Phase, g: Gauge): nat {
    if orders == [] then 0 else Weigh(c, orders[0], phase, g) + Total(c, orders[1..], phase, g)
  }

  // Meters

  /** The sum of a variant's ledger rows of some kinds. */
  function Ledger(movements: seq<Movement>, v: nat, kinds: set<MovementKind>): int {
    if movements == [] then 0
    else
      var last := movements[|movements| - 1];
      Ledger(movements[..|movements| - 1], v, kinds) + (if last.variant == v && last.kind in kinds then last.change else 0)
  }

  lemma LedgerSnoc(movements: seq<Movement>, row: Movement, v: nat, kinds: set<MovementKind>)
    ensures Ledger(movements + [row], v, kinds)
         == Ledger(movements, v, kinds) + (if row.variant == v && row.kind in kinds then row.change else 0)
  {
    assert (movements + [row])[..|movements + [row]| - 1] == movements;
  }

  /** The serials that were ever registered for a variant. */
  function Registered(serials: seq<Serial>, v: nat): nat {
    if serials == [] then 0 else (if serials[0].variant == v then 1 else 0) + Registered(serials[1..], v)
  }

  /** The variant is counted by quantity, or ordered in whole units. */
  predicate Metered(c: Catalog, w: set<nat>, v: nat) {
    v in c && c[v].tracking == Serialized ==> v in w
  }

  datatype Meter =
    | ReservedOf(variant: nat) | SoldCount(product: nat) | SerialsOf(variant: nat, item: nat) | SerialsOut(variant: nat)
    | NetSales(variant: nat)
  {

    function Gauge(): Gauge {
      match this
      case ReservedOf(v) => OfVariant(v)
      case SoldCount(p) => OfProduct(p)
      case SerialsOf(v, item) => OfItem(v, item)
      case SerialsOut(v) => OfUnits(v)
      case NetSales(v) => OfVariant(v)
    }

    function Phase(): Phase {
      if ReservedOf? then Reserving else Keeping
    }

    /** Which way the meter moves when an action is applied to a line it counts. */
    predicate Rises(a: Action) {
      if ReservedOf? then a == Hold else a == Sell
    }

    predicate Falls(a: Action) {
      if ReservedOf? then a == Unhold || a == Sell else a == Return
    }

    function Shift(a: Action, units: nat): int {
      if Rises(a) then units else if Falls(a) then -(units as int) else 0
    }

    /**
     Serials are kept only of serialized variants. The reservation and the ledger of a serialized
     variant mix whole units with quantities, so they run only where it is ordered in whole units.
     */
    predicate Runs(c: Catalog, w: set<nat>) {
      match this
      case ReservedOf(v) => Metered(c, w, v)
      case SoldCount(_) => true
      case SerialsOf(v, _) => v in c && c[v].tracking == Serialized
      case SerialsOut(v) => v in c && c[v].tracking == Serialized
      case NetSales(v) => Metered(c, w, v)
    }

    function Read(s: Tables): int {
      match this
      case ReservedOf(v) => if v in s.stock then s.stock[v].reserved else 0
      case SoldCount(p) => s.SoldOf(p)
      case SerialsOf(v, item) => 1000 * Count(s.serials, v, Sold(item))
      case SerialsOut(v) => 1000 * (Registered(s.serials, v) - Count(s.serials, v, Available))
      case NetSales(v) => -Ledger(s.movements, v, {Sale, Returned})
    }
  }

  predicate WholeFor(c: Catalog, v: nat, quantity: nat) {
    v in c && c[v].tracking == Serialized ==> quantity % 1000 == 0
  }

  /** Of a serialized variant in `w` the line asks for whole units. */
  predicate WholeLine(c: Catalog, w: set<nat>, l: Line) {
    l.variant in w ==> WholeFor(c, l.variant, l.quantity)
  }

  predicate WholeLines(c: Catalog, w: set<nat>, lines: seq<Line>) {
    forall i :: 0 <= i < |lines| ==> WholeLine(c, w, lines[i])
  }

  predicate WholeOrders(c: Catalog, w: set<nat>, orders: seq<Order>) {
    forall k :: 0 <= k < |orders| ==> WholeLines(c, w, orders[k].lines)
  }

  /** Every counter says exactly what the orders say. */
  ghost predicate Exact(c: Catalog, w: set<nat>, s: Tables, orders: seq<Order>) {
    forall m: Meter :: m.Runs(c, w) ==> m.Read(s) == Total(c, orders, m.Phase(), m.Gauge())
  }

  // Sums

  lemma {:induction false} UnitsConcat(c: Catalog, a: seq<Line>, b: seq<Line>, g: Gauge)
    ensures Units(c, a + b, g) == Units(c, a, g) + Units(c, b, g)
  {
    if a == [] {
      assert a + b == b;
    } else {
      assert (a + b)[1..] == a[1..] + b;
      UnitsConcat(c, a[1..], b, g);
    }
  }

  /** Replacing the line at `i` by the lines `mid`. */
  lemma UnitsSplice(c: Catalog, lines: seq<Line>, i: nat, mid: seq<Line>, g: Gauge)
    requires i < |lines|
    ensures Units(c, lines[..i] + mid + lines[i + 1..], g)
         == Units(c, lines, g) - Share(c, g, lines[i]) + Units(c, mid, g)
  {
    assert lines == lines[..i] + [lines[i]] + lines[i + 1..];
    UnitsConcat(c, lines[..i] + [lines[i]], lines[i + 1..], g);
    UnitsConcat(c, lines[..i], [lines[i]], g);
    UnitsConcat(c, lines[..i] + mid, lines[i + 1..], g);
    UnitsConcat(c, lines[..i], mid, g);
    assert Units(c, [lines[i]], g) == Share(c, g, lines[i]);
  }

  lemma {:induction false} TotalConcat(c: Catalog, a: seq<Order>, b: seq<Order>, phase: Phase, g: Gauge)
    ensures Total(c, a + b, phase, g) == Total(c, a, phase, g) + Total(c, b, phase, g)
  {
    if a == [] {
      assert a + b == b;
    } else {
      assert (a + b)[1..] == a[1..] + b;
      TotalConcat(c, a[1..], b, phase, g);
    }
  }

  lemma TotalReplace(c: Catalog, orders: seq<Order>, k: nat, o: Order, phase: Phase, g: Gauge)
    requires k < |orders|
    ensures Total(c, orders[k := o], phase, g)
         == Total(c, orders, phase, g) - Weigh(c, orders[k], phase, g) + Weigh(c, o, phase, g)
    ensures Weigh(c, orders[k], phase, g) <= Total(c, orders, phase, g)
  {
    assert orders == orders[..k] + [orders[k]] + orders[k + 1..];
    assert orders[k := o] == orders[..k] + [o] + orders[k + 1..];
    TotalConcat(c, orders[..k] + [orders[k]], orders[k + 1..], phase, g);
    TotalConcat(c, orders[..k], [orders[k]], phase, g);
    TotalConcat(c, orders[..k] + [o], orders[k + 1..], phase, g);
    TotalConcat(c, orders[..k], [o], phase, g);
    assert Total(c, [orders[k]], phase, g) == Weigh(c, orders[k], phase, g);
    assert Total(c, [o], phase, g) == Weigh(c, o, phase, g);
  }

  lemma {:induction false} UnitsWhole(c: Catalog, w: set<nat>, lines: seq<Line>, v: nat)
    requires WholeLines(c, w, lines) && v in w && v in c && c[v].tracking == Serialized
    ensures Units(c, lines, OfVariant(v)) % 1000 == 0
  {
    if lines != [] {
      assert WholeLine(c, w, lines[0]);
      UnitsWhole(c, w, lines[1..], v);
    }
  }

  lemma {:induction false} TotalWhole(c: Catalog, w: set<nat>, orders: seq<Order>, phase: Phase, v: nat)
    requires WholeOrders(c, w, orders) && v in w && v in c && c[v].tracking == Serialized
    ensures Total(c, orders, phase, OfVariant(v)) % 1000 == 0
  {
    if orders != [] {
      UnitsWhole(c, w, orders[0].lines, v);
      TotalWhole(c, w, orders[1..], phase, v);
    }
  }

  // Serial numbers

  lemma {:induction false} CountUpdate(serials: seq<Serial>, i: nat, s: Serial, v: nat, h: Holder)
    requires i < |serials|
    ensures Count(serials[i := s], v, h)
         == Count(serials, v, h) - (if serials[i] == Serial(v, h) then 1 else 0) + (if s == Serial(v, h) then 1 else 0)
  {
    if i > 0 {
      assert serials[i := s][1..] == serials[1..][i - 1 := s];
      CountUpdate(serials[1..], i - 1, s, v, h);
    } else {
      assert serials[i := s][1..] == serials[1..];
    }
  }

  predicate Ascending(ids: seq<nat>) {
    forall i, j :: 0 <= i < j < |ids| ==> ids[i] < ids[j]
  }

  predicate AllHeld(serials: seq<Serial>, ids: seq<nat>, v: nat, h: Holder) {
    forall i :: 0 <= i < |ids| ==> ids[i] < |serials| && serials[ids[i]] == Serial(v, h)
  }

  lemma {:induction false} PickCounts(serials: seq<Serial>, v: nat, h: Holder, limit: nat, from: nat)
    requires from <= |serials|
    ensures var count := Count(serials[from..], v, h);
            |Pick(serials, v, h, limit, from)| == if limit < count then limit else count
    decreases |serials| - from
  {
    if limit > 0 && from < |serials| {
      assert serials[from..][1..] == serials[from + 1..];
      PickCounts(serials, v, h, if serials[from] == Serial(v, h) then limit - 1 else limit, from + 1);
    }
  }

  /** Pick finds matching serials, in ascending order, as many as asked for or as there are. */
  lemma {:induction false} PickFinds(serials: seq<Serial>, v: nat, h: Holder, limit: nat, from: nat)
    requires from <= |serials|
    ensures var ids := Pick(serials, v, h, limit, from);
            Ascending(ids) && AllHeld(serials, ids, v, h) && (forall i :: 0 <= i < |ids| ==> from <= ids[i])
            && |ids| == (if limit < Count(serials[from..], v, h) then limit else Count(serials[from..], v, h))
    decreases |serials| - from
  {
    PickCounts(serials, v, h, limit, from);
    if limit > 0 && from < |serials| {
      PickFinds(serials, v, h, if serials[from] == Serial(v, h) then limit - 1 else limit, from + 1);
    }
  }

  lemma {:induction false} AssignCounts(serials: seq<Serial>, ids: seq<nat>, v: nat, from: Holder, to: Holder, v': nat, h: Holder)
    requires from != to && Ascending(ids) && AllHeld(serials, ids, v, from)
    ensures Count(Assign(serials, ids, to), v', h) == Count(serials, v', h)
            + (if v' == v && h == to then |ids| else 0) - (if v' == v && h == from then |ids| else 0)
    decreases ids
  {
    if ids != [] {
      var next := serials[ids[0] := serials[ids[0]].(holder := to)];
      CountUpdate(serials, ids[0], serials[ids[0]].(holder := to), v', h);
      forall i | 0 <= i < |ids[1..]| ensures ids[1..][i] < |next| && next[ids[1..][i]] == Serial(v, from) {
        assert ids[0] < ids[i + 1] && serials[ids[i + 1]] == Serial(v, from);
      }
      AssignCounts(next, ids[1..], v, from, to, v', h);
    }
  }

  /** Moving serials fails exactly when too few are held, and moves exactly `n` of them. */
  lemma ReassignMoves(s: Tables, v: nat, from: Holder, to: Holder, n: nat, v': nat, h: Holder)
    requires from != to
    ensures var r := Reassign(s, v, from, to, n);
            && (r.Success? <==> Count(s.serials, v, from) >= n)
            && (r.Failure? ==> r.error == InsufficientStock)
            && (r.Success? ==>
                  && Count(r.value.serials, v', h) == Count(s.serials, v', h)
                       + (if v' == v && h == to then n else 0) - (if v' == v && h == from then n else 0)
                  && r.value.sold == s.sold && r.value.movements == s.movements
                  && r.value.stock.Keys == s.stock.Keys
                  && (forall u :: u in s.stock && u != v ==> r.value.stock[u] == s.stock[u])
                  && (v in s.stock ==>
                        && r.value.stock[v].reserved == s.stock[v].reserved
                        && r.value.stock[v].quantity
                             == (if n == 0 then s.stock[v].quantity else 1000 * Count(r.value.serials, v, Available))))
  {
    assert s.serials[0..] == s.serials;
    PickFinds(s.serials, v, from, n, 0);
    AssignCounts(s.serials, Pick(s.serials, v, from, n, 0), v, from, to, v', h);
  }

  // What one action does to one meter

  predicate Counts(c: Catalog, l: Line) {
    l.variant in c && c[l.variant].strategy == Stock
  }

  /** No action creates a stock row. */
  lemma AppliesToRow(c: Catalog, s: Tables, a: Action, l: Line)
    requires Apply(c, s, a, l).Success?
    ensures Apply(c, s, a, l).value.stock.Keys == s.stock.Keys
    ensures a == Hold && Counts(c, l) ==> l.variant in s.stock
  {
    if Counts(c, l) && c[l.variant].tracking == Serialized {
      ReassignMoves(s, l.variant, Available, Sold(l.item), WholeUnits(l.quantity), 0, Available);
      ReassignMoves(s, l.variant, Sold(l.item), Available, WholeUnits(l.quantity), 0, Available);
    }
  }

  /** Each successful action appends one ledger row, which records the quantity left on hand. */
  lemma ApplyLogs(c: Catalog, s: Tables, a: Action, l: Line) returns (row: Movement)
    requires Counts(c, l) && Apply(c, s, a, l).Success?
    ensures var s1 := Apply(c, s, a, l).value;
            && s1.movements == s.movements + [row]
            && row.variant == l.variant && row.after == s1.QuantityOf(l.variant)
            && row.kind == (match a case Hold => Reservation case Unhold => Release case Sell => Sale case Return => Returned)
            && (WholeFor(c, l.variant, l.quantity) ==>
                  row.change == (if a == Hold || a == Sell then -(l.quantity as int) else l.quantity))
  {
    var s1 := Apply(c, s, a, l).value;
    match a
    case Hold => row := s1.movements[|s.movements|];
    case Unhold => row := s1.movements[|s.movements|];
    case Sell =>
      if c[l.variant].tracking == Serialized {
        ReassignMoves(s, l.variant, Available, Sold(l.item), WholeUnits(l.quantity), 0, Available);
      }
      row := s1.movements[|s.movements|];
    case Return =>
      if c[l.variant].tracking == Serialized {
        ReassignMoves(s, l.variant, Sold(l.item), Available, WholeUnits(l.quantity), 0, Available);
      }
      row := s1.movements[|s.movements|];
  }

  lemma ApplySales(c: Catalog, s: Tables, a: Action, l: Line, v: nat)
    requires (l.variant == v ==> WholeFor(c, v, l.quantity)) && Apply(c, s, a, l).Success?
    ensures NetSales(v).Read(Apply(c, s, a, l).value)
         == NetSales(v).Read(s) + NetSales(v).Shift(a, Share(c, OfVariant(v), l))
  {
    if Counts(c, l) {
      var row := ApplyLogs(c, s, a, l);
      LedgerSnoc(s.movements, row, v, {Sale, Returned});
    }
  }

  lemma ApplyReserved(c: Catalog, s: Tables, a: Action, l: Line, v: nat)
    requires (l.variant == v ==> WholeFor(c, v, l.quantity)) && Apply(c, s, a, l).Success?
    requires ReservedOf(v).Falls(a) ==> ReservedOf(v).Read(s) >= Share(c, OfVariant(v), l)
    requires v in c && c[v].tracking == Serialized ==> ReservedOf(v).Read(s) % 1000 == 0
    ensures ReservedOf(v).Read(Apply(c, s, a, l).value)
         == ReservedOf(v).Read(s) + ReservedOf(v).Shift(a, Share(c, OfVariant(v), l))
  {
    match a
    case Hold =>
    case Unhold =>
    case Sell =>
      if Counts(c, l) && c[l.variant].tracking == Serialized {
        ReassignMoves(s, l.variant, Available, Sold(l.item), WholeUnits(l.quantity), 0, Available);
      }
    case Return =>
      if Counts(c, l) && c[l.variant].tracking == Serialized {
        ReassignMoves(s, l.variant, Sold(l.item), Available, WholeUnits(l.quantity), 0, Available);
      }
  }

  lemma ApplySold(c: Catalog, s: Tables, a: Action, l: Line, p: nat)
    requires Apply(c, s, a, l).Success?
    requires SoldCount(p).Falls(a) ==> SoldCount(p).Read(s) >= Share(c, OfProduct(p), l)
    ensures SoldCount(p).Read(Apply(c, s, a, l).value)
         == SoldCount(p).Read(s) + SoldCount(p).Shift(a, Share(c, OfProduct(p), l))
  {
    if Counts(c, l) && c[l.variant].tracking == Serialized {
      ReassignMoves(s, l.variant, Available, Sold(l.item), WholeUnits(l.quantity), 0, Available);
      ReassignMoves(s, l.variant, Sold(l.item), Available, WholeUnits(l.quantity), 0, Available);
    }
  }

  lemma ApplySerials(c: Catalog, s: Tables, a: Action, l: Line, v: nat, item: nat)
    requires Apply(c, s, a, l).Success? && v in c && c[v].tracking == Serialized
    ensures SerialsOf(v, item).Read(Apply(c, s, a, l).value)
         == SerialsOf(v, item).Read(s) + SerialsOf(v, item).Shift(a, Share(c, OfItem(v, item), l))
  {
    if Counts(c, l) && c[l.variant].tracking == Serialized {
      ReassignMoves(s, l.variant, Available, Sold(l.item), WholeUnits(l.quantity), v, Sold(item));
      ReassignMoves(s, l.variant, Sold(l.item), Available, WholeUnits(l.quantity), v, Sold(item));
    }
  }

  lemma {:induction false} AssignRegistered(serials: seq<Serial>, ids: seq<nat>, h: Holder, v: nat)
    requires forall i :: 0 <= i < |ids| ==> ids[i] < |serials|
    ensures Registered(Assign(serials, ids, h), v) == Registered(serials, v)
    decreases ids
  {
    if ids != [] {
      RegisteredUpdate(serials, ids[0], serials[ids[0]].(holder := h), v);
      AssignRegistered(serials[ids[0] := serials[ids[0]].(holder := h)], ids[1..], h, v);
    }
  }

  lemma {:induction false} RegisteredUpdate(serials: seq<Serial>, i: nat, s: Serial, v: nat)
    requires i < |serials| && s.variant == serials[i].variant
    ensures Registered(serials[i := s], v) == Registered(serials, v)
  {
    if i > 0 {
      assert serials[i := s][1..] == serials[1..][i - 1 := s];
      RegisteredUpdate(serials[1..], i - 1, s, v);
    } else {
      assert serials[i := s][1..] == serials[1..];
    }
  }

  lemma ApplyRegistered(c: Catalog, s: Tables, a: Action, l: Line, v: nat)
    requires Apply(c, s, a, l).Success?
    ensures Registered(Apply(c, s, a, l).value.serials, v) == Registered(s.serials, v)
  {
    var n := WholeUnits(l.quantity);
    AssignRegistered(s.serials, Pick(s.serials, l.variant, Available, n, 0), Sold(l.item), v);
    AssignRegistered(s.serials, Pick(s.serials, l.variant, Sold(l.item), n, 0), Available, v);
  }

  lemma ApplyOut(c: Catalog, s: Tables, a: Action, l: Line, v: nat)
    requires Apply(c, s, a, l).Success? && v in c && c[v].tracking == Serialized
    ensures SerialsOut(v).Read(Apply(c, s, a, l).value)
         == SerialsOut(v).Read(s) + SerialsOut(v).Shift(a, Share(c, OfUnits(v), l))
  {
    ApplyRegistered(c, s, a, l, v);
    if Counts(c, l) && c[l.variant].tracking == Serialized {
      ReassignMoves(s, l.variant, Available, Sold(l.item), WholeUnits(l.quantity), v, Available);
      ReassignMoves(s, l.variant, Sold(l.item), Available, WholeUnits(l.quantity), v, Available);
    }
  }

  /** The meter covers what the action takes off it, and counts whole units where it has to. */
  predicate Backs(c: Catalog, s: Tables, a: Action, m: Meter, units: nat) {
    && (m.Falls(a) && (m.ReservedOf? || m.SoldCount?) ==> m.Read(s) >= units)
    && (m.ReservedOf? && m.variant in c && c[m.variant].tracking == Serialized ==> m.Read(s) % 1000 == 0)
  }

  /** No clamp and no truncation fires: the meter moves by exactly the line's share. */
  lemma ApplyReads(c: Catalog, w: set<nat>, s: Tables, a: Action, l: Line, m: Meter)
    requires m.Runs(c, w) && WholeLine(c, w, l) && Apply(c, s, a, l).Success?
    requires Backs(c, s, a, m, Share(c, m.Gauge(), l))
    ensures m.Read(Apply(c, s, a, l).value) == m.Read(s) + m.Shift(a, Share(c, m.Gauge(), l))
  {
    match m
    case ReservedOf(v) => ApplyReserved(c, s, a, l, v);
    case SoldCount(p) => ApplySold(c, s, a, l, p);
    case SerialsOf(v, item) => ApplySerials(c, s, a, l, v, item);
    case SerialsOut(v) => ApplyOut(c, s, a, l, v);
    case NetSales(v) => ApplySales(c, s, a, l, v);
  }

  lemma Thousands(x: int, y: int)
    requires x % 1000 == 0 && y % 1000 == 0
    ensures (x + y) % 1000 == 0 && (x - y) % 1000 == 0
  {
  }

  lemma ReservedOn(c: Catalog, s: Tables, a: Action, l: Line, v: nat, more: nat)
    requires (l.variant == v ==> WholeFor(c, v, l.quantity)) && Apply(c, s, a, l).Success?
    requires Backs(c, s, a, ReservedOf(v), Share(c, OfVariant(v), l) + more)
    ensures Backs(c, Apply(c, s, a, l).value, a, ReservedOf(v), more)
  {
    ApplyReserved(c, s, a, l, v);
    if v in c && c[v].tracking == Serialized {
      Thousands(ReservedOf(v).Read(s), Share(c, OfVariant(v), l));
    }
  }

  /** And what is left of it covers the lines that follow. */
  lemma ReadsOn(c: Catalog, w: set<nat>, s: Tables, a: Action, l: Line, m: Meter, more: nat, before: int, after: int)
    requires m.Runs(c, w) && WholeLine(c, w, l) && Apply(c, s, a, l).Success?
    requires Backs(c, s, a, m, Share(c, m.Gauge(), l) + more)
    requires before == m.Read(s) && after == m.Read(Apply(c, s, a, l).value)
    ensures after == before + m.Shift(a, Share(c, m.Gauge(), l))
    ensures Backs(c, Apply(c, s, a, l).value, a, m, more)
  {
    ApplyReads(c, w, s, a, l, m);
    if m.ReservedOf? {
      ReservedOn(c, s, a, l, m.variant, more);
    }
  }

  lemma ShiftAdds(m: Meter, a: Action, x: nat, y: nat)
    ensures m.Shift(a, x + y) == m.Shift(a, x) + m.Shift(a, y)
  {
  }

  lemma {:induction false} ApplyAllReads(c: Catalog, w: set<nat>, s: Tables, a: Action, lines: seq<Line>, m: Meter)
    requires m.Runs(c, w) && WholeLines(c, w, lines) && ApplyAll(c, s, a, lines).Success?
    requires Backs(c, s, a, m, Units(c, lines, m.Gauge()))
    ensures m.Read(ApplyAll(c, s, a, lines).value) == m.Read(s) + m.Shift(a, Units(c, lines, m.Gauge()))
    decreases lines
  {
    if lines != [] {
      assert WholeLine(c, w, lines[0]);
      var s1 := Apply(c, s, a, lines[0]).value;
      var share, more := Share(c, m.Gauge(), lines[0]), Units(c, lines[1..], m.Gauge());
      ReadsOn(c, w, s, a, lines[0], m, more, m.Read(s), m.Read(s1));
      ApplyAllReads(c, w, s1, a, lines[1..], m);
      ShiftAdds(m, a, share, more);
    }
  }
}
