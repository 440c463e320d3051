/** Over careful runs a variant that denies backorders is never oversold, and its ledger replays to its stock row. */
module StockLedger {
  import opened Outcomes
  import opened Inventory
  import opened Orders
  import opened Engine
  import opened Meters
  import opened Counters
  import opened Rows

  /** No policy is one that denies: the column's default is null. */
  predicate Denied(c: Catalog, v: nat) {
    v in c && c[v].strategy == Stock && c[v].backorder in {Unset, Deny}
  }

  const ON_HAND: set<MovementKind> := {Restocked, Sale, Returned, Adjustment}
  const FREE: set<MovementKind> := {Restocked, Returned, Adjustment, Reservation, Release}
  const SALES: set<MovementKind> := {Sale, Returned}
  const SUPPLY: set<MovementKind> := {Restocked, Adjustment}

  /** Every ledger row of the variant recorded the quantity its predecessors add up to. */
  predicate Stamped(movements: seq<Movement>, v: nat) {
    forall i :: 0 <= i < |movements| && movements[i].variant == v ==>
      movements[i].after == Ledger(movements[..i + 1], v, ON_HAND)
  }

  /** Folding the ledger gives back both numbers of the stock row. */
  predicate Replays(s: Tables, v: nat)
    requires v in s.stock
  {
    && Ledger(s.movements, v, ON_HAND) == s.stock[v].quantity
    && Ledger(s.movements, v, FREE) == s.stock[v].quantity - s.stock[v].reserved
    && Stamped(s.movements, v)
  }

  /**
   What holds of a variant's stock row: a serialized one counts the available serials, and one that
   denies backorders is never reserved beyond what is on hand.
   */
  predicate Sound(c: Catalog, w: set<nat>, s: Tables, v: nat)
    requires v in c
  {
    v in s.stock ==>
      && (Denied(c, v) && Metered(c, w, v) ==> s.stock[v].reserved <= s.stock[v].quantity)
      && (c[v].tracking == Serialized ==> s.stock[v].quantity == 1000 * Count(s.serials, v, Available))
      && (Guarded(c, v) ==> Replays(s, v))
  }

  /** The variant denies backorders and is counted by quantity. */
  predicate Guarded(c: Catalog, v: nat) {
    Denied(c, v) && c[v].tracking != Serialized
  }

  /** The one thing a run is asked to respect for variant `v`. */
  predicate CarefulOp(c: Catalog, st: State, op: Op, v: nat) {
    match op
    case OpRestock(u, change) =>
      u == v && Guarded(c, v) && v in st.tables.stock ==>
        st.tables.stock[v].reserved <= st.tables.stock[v].quantity + change
    case OpAdjust(u, change) =>
      u == v && Guarded(c, v) && v in st.tables.stock ==>
        st.tables.stock[v].reserved <= st.tables.stock[v].quantity + change
    case OpReceiveSerial(u) => u == v ==> !Guarded(c, v)
    case _ => true
  }

  // The ledger grows by one row

  lemma StampedSnoc(movements: seq<Movement>, row: Movement, v: nat)
    requires Stamped(movements, v)
    requires row.variant == v ==> row.after == Ledger(movements + [row], v, ON_HAND)
    ensures Stamped(movements + [row], v)
  {
    var grown := movements + [row];
    forall i | 0 <= i < |grown| && grown[i].variant == v
      ensures grown[i].after == Ledger(grown[..i + 1], v, ON_HAND)
    {
      if i < |movements| {
        assert grown[..i + 1] == movements[..i + 1];
      } else {
        assert grown[..i + 1] == grown;
      }
    }
  }

  lemma ReplaysSnoc(s: Tables, s1: Tables, v: nat, row: Movement)
    requires v in s.stock && Replays(s, v) && v in s1.stock
    requires s1.movements == s.movements + [row] && (row.variant == v ==> row.after == s1.stock[v].quantity)
    requires s1.stock[v].quantity == s.stock[v].quantity
               + (if row.variant == v && row.kind in ON_HAND then row.change else 0)
    requires s1.stock[v].quantity - s1.stock[v].reserved == s.stock[v].quantity - s.stock[v].reserved
               + (if row.variant == v && row.kind in FREE then row.change else 0)
    ensures Replays(s1, v)
  {
    LedgerSnoc(s.movements, row, v, ON_HAND);
    LedgerSnoc(s.movements, row, v, FREE);
    StampedSnoc(s.movements, row, v);
  }

  // One inventory call

  lemma ApplyElsewhere(c: Catalog, s: Tables, a: Action, l: Line, v: nat)
    requires Apply(c, s, a, l).Success? && (l.variant != v || !Counts(c, l))
    ensures var s1 := Apply(c, s, a, l).value;
            && (v in s1.stock <==> v in s.stock) && (v in s.stock ==> s1.stock[v] == s.stock[v])
            && Count(s1.serials, v, Available) == Count(s.serials, v, Available)
  {
    if Counts(c, l) && c[l.variant].tracking == Serialized {
      ReassignMoves(s, l.variant, Available, Sold(l.item), WholeUnits(l.quantity), v, Available);
      ReassignMoves(s, l.variant, Sold(l.item), Available, WholeUnits(l.quantity), v, Available);
    }
  }

  /** What the call does to the variant's own row, when it is counted by quantity. */
  lemma CountedHere(c: Catalog, s: Tables, a: Action, l: Line)
    requires Apply(c, s, a, l).Success? && l.variant in s.stock && Guarded(c, l.variant)
    requires s.stock[l.variant].reserved <= s.stock[l.variant].quantity
    requires a == Unhold || a == Sell ==> s.stock[l.variant].reserved >= l.quantity
    ensures var v := l.variant; var s1 := Apply(c, s, a, l).value;
            && v in s1.stock
            && s1.stock[v].quantity == s.stock[v].quantity
                 + (if a == Sell then -(l.quantity as int) else if a == Return then l.quantity else 0)
            && s1.stock[v].reserved == s.stock[v].reserved
                 + (if a == Hold then l.quantity else if a == Return then 0 else -(l.quantity as int))
            && s1.stock[v].reserved <= s1.stock[v].quantity
  {
  }

  /** The row of a serialized variant keeps counting the available serials. */
  lemma SerialsHere(c: Catalog, s: Tables, a: Action, l: Line)
    requires Apply(c, s, a, l).Success? && Counts(c, l) && c[l.variant].tracking == Serialized
    requires l.variant in s.stock && s.stock[l.variant].quantity == 1000 * Count(s.serials, l.variant, Available)
    ensures var v := l.variant; var s1 := Apply(c, s, a, l).value; var n := 1000 * WholeUnits(l.quantity);
            && v in s1.stock && s1.stock[v].quantity == 1000 * Count(s1.serials, v, Available)
            && s1.stock[v].quantity == s.stock[v].quantity + (if a == Sell then -(n as int) else if a == Return then n else 0)
  {
    var v := l.variant;
    if a == Sell {
      ReassignMoves(s, v, Available, Sold(l.item), WholeUnits(l.quantity), v, Available);
    } else if a == Return {
      ReassignMoves(s, v, Sold(l.item), Available, WholeUnits(l.quantity), v, Available);
    }
  }

  /** In whole units it is never reserved beyond them. */
  lemma WholeHere(c: Catalog, s: Tables, a: Action, l: Line)
    requires Apply(c, s, a, l).Success? && Denied(c, l.variant) && c[l.variant].tracking == Serialized
    requires l.quantity % 1000 == 0 && l.variant in s.stock && s.stock[l.variant].reserved % 1000 == 0
    requires s.stock[l.variant].reserved <= s.stock[l.variant].quantity == 1000 * Count(s.serials, l.variant, Available)
    requires a == Unhold || a == Sell ==> s.stock[l.variant].reserved >= l.quantity
    ensures var s1 := Apply(c, s, a, l).value;
            l.variant in s1.stock && s1.stock[l.variant].reserved <= s1.stock[l.variant].quantity
  {
    SerialsHere(c, s, a, l);
    ApplyReserved(c, s, a, l, l.variant);
  }

  /** Rows of other variants leave the sums alone. */
  lemma SoundElsewhere(c: Catalog, w: set<nat>, s: Tables, a: Action, l: Line, v: nat)
    requires v in c && Sound(c, w, s, v) && Apply(c, s, a, l).Success?
    requires l.variant != v || !Counts(c, l)
    ensures Sound(c, w, Apply(c, s, a, l).value, v)
  {
    ApplyElsewhere(c, s, a, l, v);
    if v in s.stock && Counts(c, l) && Guarded(c, v) {
      var row := ApplyLogs(c, s, a, l);
      ReplaysSnoc(s, Apply(c, s, a, l).value, v, row);
    }
  }

  lemma SoundHere(c: Catalog, w: set<nat>, s: Tables, a: Action, l: Line)
    requires Counts(c, l) && l.variant in s.stock && Sound(c, w, s, l.variant)
    requires WholeLine(c, w, l) && Apply(c, s, a, l).Success?
    requires Covers(c, w, s, a, l.variant, l.quantity)
    ensures Sound(c, w, Apply(c, s, a, l).value, l.variant)
  {
    var v, s1 := l.variant, Apply(c, s, a, l).value;
    if c[v].tracking == Serialized {
      SerialsHere(c, s, a, l);
      if Denied(c, v) && v in w {
        WholeHere(c, s, a, l);
      }
    } else if Denied(c, v) {
      CountedHere(c, s, a, l);
      var row := ApplyLogs(c, s, a, l);
      ReplaysSnoc(s, s1, v, row);
    }
  }

  /** As far as the reservation of `v` is metered, it covers what the action takes off it. */
  predicate Covers(c: Catalog, w: set<nat>, s: Tables, a: Action, v: nat, units: nat)
    requires v in c
  {
    Metered(c, w, v) ==> Backs(c, s, a, ReservedOf(v), units)
  }

  lemma ApplySound(c: Catalog, w: set<nat>, s: Tables, a: Action, l: Line, v: nat)
    requires v in c && Sound(c, w, s, v) && WholeLine(c, w, l) && Apply(c, s, a, l).Success?
    requires Covers(c, w, s, a, v, Share(c, OfVariant(v), l))
    ensures Sound(c, w, Apply(c, s, a, l).value, v)
  {
    if Counts(c, l) && l.variant == v {
      if v in s.stock {
        SoundHere(c, w, s, a, l);
      } else {
        AppliesToRow(c, s, a, l);
      }
    } else {
      SoundElsewhere(c, w, s, a, l, v);
    }
  }

  /** One line done, the rest still covered by what is reserved. */
  lemma StaysCovered(c: Catalog, w: set<nat>, s: Tables, a: Action, l: Line, units: nat, v: nat)
    requires v in c && WholeLine(c, w, l) && Apply(c, s, a, l).Success?
    requires Covers(c, w, s, a, v, Share(c, OfVariant(v), l) + units)
    ensures Covers(c, w, Apply(c, s, a, l).value, a, v, units)
  {
    if Metered(c, w, v) {
      ReservedOn(c, s, a, l, v, units);
    }
  }

  lemma {:induction false} ApplyAllSound(c: Catalog, w: set<nat>, s: Tables, a: Action, lines: seq<Line>, v: nat)
    requires v in c && Sound(c, w, s, v) && WholeLines(c, w, lines) && ApplyAll(c, s, a, lines).Success?
    requires Covers(c, w, s, a, v, Units(c, lines, OfVariant(v)))
    ensures Sound(c, w, ApplyAll(c, s, a, lines).value, v)
    decreases lines
  {
    if lines != [] {
      assert WholeLine(c, w, lines[0]);
      var first := Apply(c, s, a, lines[0]);
      ApplySound(c, w, s, a, lines[0], v);
      StaysCovered(c, w, s, a, lines[0], Units(c, lines[1..], OfVariant(v)), v);
      assert ApplyAll(c, s, a, lines) == ApplyAll(c, first.value, a, lines[1..]);
      ApplyAllSound(c, w, first.value, a, lines[1..], v);
    }
  }

  // The calls

  /** An order's lines reserve no more than the row shows as reserved. */
  lemma ReservedCovers(c: Catalog, w: set<nat>, st: State, k: nat, v: nat)
    requires Counted(c, w, st) && v in c && Metered(c, w, v)
    ensures c[v].tracking == Serialized ==> ReservedOf(v).Read(st.tables) % 1000 == 0
    ensures k < |st.orders| && st.orders[k].status == Pending ==>
              Units(c, st.orders[k].lines, OfVariant(v)) <= ReservedOf(v).Read(st.tables)
  {
    assert ReservedOf(v).Runs(c, w);
    assert ReservedOf(v).Read(st.tables) == Total(c, st.orders, Reserving, OfVariant(v));
    if c[v].tracking == Serialized {
      TotalWhole(c, w, st.orders, Reserving, v);
    }
    if k < |st.orders| {
      TotalReplace(c, st.orders, k, st.orders[k], Reserving, OfVariant(v));
    }
  }

  lemma ActSound(c: Catalog, w: set<nat>, st: State, k: nat, a: Action, lines: seq<Line>, v: nat)
    requires Counted(c, w, st) && v in c && Sound(c, w, st.tables, v) && WholeLines(c, w, lines)
    requires a == Unhold || a == Sell ==>
               k < |st.orders| && st.orders[k].status == Pending
               && Units(c, lines, OfVariant(v)) <= Units(c, st.orders[k].lines, OfVariant(v))
    requires ApplyAll(c, st.tables, a, lines).Success?
    ensures Sound(c, w, ApplyAll(c, st.tables, a, lines).value, v)
  {
    if Metered(c, w, v) {
      ReservedCovers(c, w, st, k, v);
    }
    ApplyAllSound(c, w, st.tables, a, lines, v);
  }

  lemma TransitionSound(cfg: Config, w: set<nat>, st: State, k: nat, to: Status, v: nat)
    requires Counted(cfg.catalog, w, st) && v in cfg.catalog && Sound(cfg.catalog, w, st.tables, v)
    requires k < |st.orders| && to in st.orders[k].status.AllowedNext() && Transition(cfg, st, k, to).Success?
    ensures Sound(cfg.catalog, w, Transition(cfg, st, k, to).value.tables, v)
  {
    var c, o := cfg.catalog, st.orders[k];
    assert WholeLines(c, w, o.lines);
    if to == Confirmed {
      ActSound(c, w, st, k, Sell, o.lines, v);
    } else if to == Cancelled && o.status == Pending {
      ActSound(c, w, st, k, Unhold, o.lines, v);
    } else if to == Cancelled {
      ActSound(c, w, st, k, Return, o.lines, v);
    }
  }

  lemma UpdateStatusSound(cfg: Config, w: set<nat>, st: State, k: nat, to: Status, v: nat)
    requires Counted(cfg.catalog, w, st) && v in cfg.catalog && Sound(cfg.catalog, w, st.tables, v)
    ensures var r := UpdateStatus(cfg, st, k, to); r.Success? ==> Sound(cfg.catalog, w, r.value.tables, v)
  {
    if UpdateStatus(cfg, st, k, to).Success? {
      TransitionSound(cfg, w, st, k, to, v);
    }
  }

  lemma ClaimSound(cfg: Config, w: set<nat>, st: State, k: nat, v: nat)
    requires Counted(cfg.catalog, w, st) && v in cfg.catalog && Sound(cfg.catalog, w, st.tables, v)
    ensures var r := ClaimPending(cfg, st, k); r.Success? ==> Sound(cfg.catalog, w, r.value.tables, v)
  {
    if k < |st.orders| && st.orders[k].status == Pending && ClaimPending(cfg, st, k).Success? {
      TransitionSound(cfg, w, st, k, Cancelled, v);
    }
  }

  lemma {:induction false} ReleaseExpiredSound(cfg: Config, w: set<nat>, st: State, now: int, k: nat, end: State, v: nat)
    requires Counted(cfg.catalog, w, st) && v in cfg.catalog && Sound(cfg.catalog, w, st.tables, v)
    requires k <= |st.orders| && ReleaseExpired(cfg, st, now, k) == Success(end)
    ensures Sound(cfg.catalog, w, end.tables, v)
    decreases |st.orders| - k
  {
    if k < |st.orders| {
      if Expired(st.orders[k], now) {
        ClaimCounts(cfg, w, st, k);
        ClaimSound(cfg, w, st, k, v);
        ReleaseExpiredSound(cfg, w, ClaimPending(cfg, st, k).value, now, k + 1, end, v);
      } else {
        ReleaseExpiredSound(cfg, w, st, now, k + 1, end, v);
      }
    }
  }

  lemma RecordPaymentSound(cfg: Config, w: set<nat>, st: State, k: nat, amount: int, status: PaymentStatus,
                           reference: Option<string>, v: nat)
    requires Counted(cfg.catalog, w, st) && v in cfg.catalog && Sound(cfg.catalog, w, st.tables, v)
    ensures var r := RecordPayment(cfg, st, k, amount, status, reference);
            r.Success? ==> Sound(cfg.catalog, w, r.value.tables, v)
  {
    if RecordPayment(cfg, st, k, amount, status, reference).Success? {
      var paid := st.orders[k].(payments := st.orders[k].payments + [Payment(amount, status, reference)]);
      Logs(paid, PaymentRecorded);
      assert WholeLines(cfg.catalog, w, st.orders[k].lines);
      NoteCounts(cfg.catalog, w, st, k, paid.Logged(PaymentRecorded));
      UpdateStatusSound(cfg, w, st.(orders := st.orders[k := paid.Logged(PaymentRecorded)]), k, Confirmed, v);
    }
  }

  lemma RefundSound(cfg: Config, w: set<nat>, st: State, k: nat, amount: int, reason: string,
                    reference: Option<string>, restock: bool, v: nat)
    requires Counted(cfg.catalog, w, st) && v in cfg.catalog && Sound(cfg.catalog, w, st.tables, v)
    ensures var r := Refund(cfg, st, k, amount, reason, reference, restock);
            r.Success? ==> Sound(cfg.catalog, w, r.value.tables, v)
  {
    if restock && Refund(cfg, st, k, amount, reason, reference, restock).Success? {
      assert WholeLines(cfg.catalog, w, st.orders[k].lines);
      ActSound(cfg.catalog, w, st, k, Return, st.orders[k].lines, v);
    }
  }

  /** A single inventory call made while an order is edited. */
  lemma EditSound(c: Catalog, w: set<nat>, st: State, k: nat, a: Action, change: Line, v: nat)
    requires Counted(c, w, st) && v in c && Sound(c, w, st.tables, v) && WholeLine(c, w, change)
    requires k < |st.orders| && st.orders[k].status == Pending && (a == Hold || a == Unhold)
    requires a == Unhold ==> Share(c, OfVariant(v), change) <= Units(c, st.orders[k].lines, OfVariant(v))
    requires Apply(c, st.tables, a, change).Success?
    ensures Sound(c, w, Apply(c, st.tables, a, change).value, v)
  {
    if Metered(c, w, v) {
      ReservedCovers(c, w, st, k, v);
    }
    ApplySound(c, w, st.tables, a, change, v);
  }

  lemma ShareOf(c: Catalog, lines: seq<Line>, i: nat, g: Gauge)
    requires i < |lines|
    ensures Share(c, g, lines[i]) <= Units(c, lines, g)
  {
    UnitsSplice(c, lines, i, [], g);
  }

  lemma UpdateItemQuantitySound(cfg: Config, w: set<nat>, st: State, k: nat, item: nat, quantity: nat, v: nat)
    requires Counted(cfg.catalog, w, st) && v in cfg.catalog && Sound(cfg.catalog, w, st.tables, v)
    ensures var r := UpdateItemQuantity(cfg, st, k, item, quantity);
            r.Success? && WholeOrders(cfg.catalog, w, r.value.orders) ==> Sound(cfg.catalog, w, r.value.tables, v)
  {
    var c, r := cfg.catalog, UpdateItemQuantity(cfg, st, k, item, quantity);
    if r.Success? && WholeOrders(c, w, r.value.orders) && r.value != st {
      var lines := st.orders[k].lines;
      var i := IndexOf(lines, item);
      assert WholeLines(c, w, lines) && WholeLine(c, w, lines[i]);
      assert WholeLines(c, w, r.value.orders[k].lines) && WholeLine(c, w, r.value.orders[k].lines[i]);
      ShareOf(c, lines, i, OfVariant(v));
      var a := if quantity > lines[i].quantity then Hold else Unhold;
      var change := lines[i].(quantity :=
        if quantity > lines[i].quantity then quantity - lines[i].quantity else lines[i].quantity - quantity);
      EditSound(c, w, st, k, a, change, v);
      assert r.value.tables == Apply(c, st.tables, a, change).value;
    }
  }

  lemma RemoveItemSound(cfg: Config, w: set<nat>, st: State, k: nat, item: nat, v: nat)
    requires Counted(cfg.catalog, w, st) && v in cfg.catalog && Sound(cfg.catalog, w, st.tables, v)
    ensures var r := RemoveItem(cfg, st, k, item); r.Success? ==> Sound(cfg.catalog, w, r.value.tables, v)
  {
    var c := cfg.catalog;
    if RemoveItem(cfg, st, k, item).Success? {
      var lines := st.orders[k].lines;
      var i := IndexOf(lines, item);
      assert WholeLines(c, w, lines) && WholeLine(c, w, lines[i]);
      ShareOf(c, lines, i, OfVariant(v));
      EditSound(c, w, st, k, Unhold, lines[i], v);
    }
  }

  /** The old line is released and the new one reserved. */
  lemma SwapSound(c: Catalog, w: set<nat>, st: State, k: nat, i: nat, l1: Line, v: nat)
    requires Counted(c, w, st) && v in c && Sound(c, w, st.tables, v) && WholeLine(c, w, l1)
    requires k < |st.orders| && st.orders[k].status == Pending && i < |st.orders[k].lines|
    requires var released := Apply(c, st.tables, Unhold, st.orders[k].lines[i]);
             released.Success? && Apply(c, released.value, Hold, l1).Success?
    ensures Sound(c, w, Apply(c, Apply(c, st.tables, Unhold, st.orders[k].lines[i]).value, Hold, l1).value, v)
  {
    var l := st.orders[k].lines[i];
    assert WholeLines(c, w, st.orders[k].lines) && WholeLine(c, w, l);
    ShareOf(c, st.orders[k].lines, i, OfVariant(v));
    EditSound(c, w, st, k, Unhold, l, v);
    if Metered(c, w, v) {
      ReservedCovers(c, w, st, k, v);
      ReservedOn(c, st.tables, Unhold, l, v, 0);
    }
    assert Covers(c, w, Apply(c, st.tables, Unhold, l).value, Unhold, v, 0);
    ApplySound(c, w, Apply(c, st.tables, Unhold, l).value, Hold, l1, v);
  }

  lemma ChangeItemVariantSound(cfg: Config, w: set<nat>, st: State, k: nat, item: nat, to: nat,
                               unitPrice: nat, lineTotal: nat, v: nat)
    requires Counted(cfg.catalog, w, st) && v in cfg.catalog && Sound(cfg.catalog, w, st.tables, v)
    ensures var r := ChangeItemVariant(cfg, st, k, item, to, unitPrice, lineTotal);
            r.Success? && WholeOrders(cfg.catalog, w, r.value.orders) ==> Sound(cfg.catalog, w, r.value.tables, v)
  {
    var c, r := cfg.catalog, ChangeItemVariant(cfg, st, k, item, to, unitPrice, lineTotal);
    if r.Success? && WholeOrders(c, w, r.value.orders) && r.value != st {
      var i := IndexOf(st.orders[k].lines, item);
      var l1 := st.orders[k].lines[i].(variant := to, unitPrice := unitPrice, lineTotal := lineTotal);
      assert WholeLines(c, w, r.value.orders[k].lines) && r.value.orders[k].lines[i] == l1;
      SwapSound(c, w, st, k, i, l1, v);
    }
  }

  lemma PlaceSound(cfg: Config, w: set<nat>, st: State, op: Op, v: nat)
    requires Counted(cfg.catalog, w, st) && v in cfg.catalog && Sound(cfg.catalog, w, st.tables, v)
    requires op.OpPlace? && WholeOrders(cfg.catalog, w, Step(cfg, st, op).orders)
    ensures Sound(cfg.catalog, w, Step(cfg, st, op).tables, v)
  {
    var c, st1 := cfg.catalog, Step(cfg, st, op);
    if st1 != st {
      var lines := NewLines(op.requests, st.nextItem);
      assert st1.orders[|st.orders|].lines == lines && WholeLines(c, w, lines);
      ActSound(c, w, st, |st.orders|, Hold, lines, v);
    }
  }

  /** Restocking and adjusting move the row and the ledger alike; a received serial is recounted. */
  lemma SupplySound(cfg: Config, w: set<nat>, st: State, op: Op, v: nat)
    requires v in cfg.catalog && Sound(cfg.catalog, w, st.tables, v) && CarefulOp(cfg.catalog, st, op, v)
    requires op.OpRestock? || op.OpAdjust? || op.OpReceiveSerial?
    ensures Sound(cfg.catalog, w, Step(cfg, st, op).tables, v)
  {
    var c, s, s1 := cfg.catalog, st.tables, Step(cfg, st, op).tables;
    if op.OpReceiveSerial? {
      CountSnoc(s.serials, Serial(op.variant, Available), v, Available);
    } else if s1 != s && v in s.stock {
      var row := s1.movements[|s.movements|];
      assert s1.movements == s.movements + [row];
      if Guarded(c, v) {
        ReplaysSnoc(s, s1, v, row);
      }
    }
  }

  lemma GatewaySound(cfg: Config, w: set<nat>, st: State, op: Op, v: nat)
    requires Counted(cfg.catalog, w, st) && v in cfg.catalog && Sound(cfg.catalog, w, st.tables, v)
    requires op.OpHandleCallback? || op.OpMarkFailed?
    ensures Sound(cfg.catalog, w, Step(cfg, st, op).tables, v)
  {
    var k := op.k;
    if k < |st.orders| {
      var o := st.orders[k];
      var booked := if op.OpHandleCallback? && op.received.Some? then op.received.value else o.grandTotal;
      var paid := op.OpHandleCallback? && op.valid && (if op.received.Some? then op.received.value else 0) == o.grandTotal;
      var status := if paid then PaymentPaid else PaymentFailed;
      RecordPaymentSound(cfg, w, st, k, booked, status, Some(op.tran), v);
      RecordPaymentCounts(cfg, w, st, k, booked, status, Some(op.tran));
      var r := RecordPayment(cfg, st, k, booked, status, Some(op.tran));
      if r.Success? {
        ClaimSound(cfg, w, r.value, k, v);
        UpdateStatusSound(cfg, w, r.value, k, Confirmed, v);
      }
    }
  }

  lemma EditOpSound(cfg: Config, w: set<nat>, st: State, op: Op, v: nat)
    requires Counted(cfg.catalog, w, st) && v in cfg.catalog && Sound(cfg.catalog, w, st.tables, v)
    requires WholeOrders(cfg.catalog, w, Step(cfg, st, op).orders)
    requires op.OpAddItem? || op.OpUpdateItemQuantity? || op.OpRemoveItem? || op.OpChangeItemVariant?
    ensures Sound(cfg.catalog, w, Step(cfg, st, op).tables, v)
  {
    match op
    case OpAddItem(k, r) =>
      if AddItem(cfg, st, k, r).Success? {
        var l := Line(st.nextItem, r.variant, r.quantity, r.unitPrice, r.lineTotal);
        var lines := Step(cfg, st, op).orders[k].lines;
        assert WholeLines(cfg.catalog, w, lines) && lines[|lines| - 1] == l;
        EditSound(cfg.catalog, w, st, k, Hold, l, v);
      }
    case OpUpdateItemQuantity(k, item, quantity) => UpdateItemQuantitySound(cfg, w, st, k, item, quantity, v);
    case OpRemoveItem(k, item) => RemoveItemSound(cfg, w, st, k, item, v);
    case OpChangeItemVariant(k, item, to, unitPrice, lineTotal) =>
      ChangeItemVariantSound(cfg, w, st, k, item, to, unitPrice, lineTotal, v);
  }

  lemma PaymentOpSound(cfg: Config, w: set<nat>, st: State, op: Op, v: nat)
    requires Counted(cfg.catalog, w, st) && v in cfg.catalog && Sound(cfg.catalog, w, st.tables, v)
    requires op.OpRecordPayment? || op.OpRecordCodCollection?
    ensures Sound(cfg.catalog, w, Step(cfg, st, op).tables, v)
  {
    match op
    case OpRecordPayment(k, amount, how, reference) => RecordPaymentSound(cfg, w, st, k, amount, how, reference, v);
    case OpRecordCodCollection(parcel, amount) =>
      RecordPaymentSound(cfg, w, st, OrderOfParcel(st.orders, parcel), amount, PaymentPaid, CodReference(parcel), v);
  }

  lemma StepSound(cfg: Config, w: set<nat>, st: State, op: Op, v: nat)
    requires Counted(cfg.catalog, w, st) && v in cfg.catalog && Sound(cfg.catalog, w, st.tables, v)
    requires WholeOrders(cfg.catalog, w, Step(cfg, st, op).orders) && CarefulOp(cfg.catalog, st, op, v)
    ensures Sound(cfg.catalog, w, Step(cfg, st, op).tables, v)
  {
    match op
    case OpPlace(_, _, _, _, _, _) => PlaceSound(cfg, w, st, op, v);
    case OpAddItem(_, _) => EditOpSound(cfg, w, st, op, v);
    case OpUpdateItemQuantity(_, _, _) => EditOpSound(cfg, w, st, op, v);
    case OpRemoveItem(_, _) => EditOpSound(cfg, w, st, op, v);
    case OpChangeItemVariant(_, _, _, _, _) => EditOpSound(cfg, w, st, op, v);
    case OpAdjustItemUnitPrice(_, _, _, _) =>
    case OpApplyOrderDiscount(_, _, _) =>
    case OpUpdateShipping(_, _) =>
    case OpUpdateStatus(k, to) => UpdateStatusSound(cfg, w, st, k, to, v);
    case OpClaimPending(k) => ClaimSound(cfg, w, st, k, v);
    case OpReleaseExpired(now) =>
      if ReleaseExpired(cfg, st, now, 0).Success? {
        ReleaseExpiredSound(cfg, w, st, now, 0, ReleaseExpired(cfg, st, now, 0).value, v);
      }
    case OpRecordPayment(_, _, _, _) => PaymentOpSound(cfg, w, st, op, v);
    case OpRecordCodCollection(_, _) => PaymentOpSound(cfg, w, st, op, v);
    case OpRefund(k, amount, reason, reference, restock) =>
      RefundSound(cfg, w, st, k, amount, reason, reference, restock, v);
    case OpUpdateFulfillment(_, _) =>
    case OpHandleCallback(_, _, _, _) => GatewaySound(cfg, w, st, op, v);
    case OpMarkFailed(_, _) => GatewaySound(cfg, w, st, op, v);
    case OpRestock(_, _) => SupplySound(cfg, w, st, op, v);
    case OpAdjust(_, _) => SupplySound(cfg, w, st, op, v);
    case OpReceiveSerial(_) => SupplySound(cfg, w, st, op, v);
  }

  predicate CarefulRun(cfg: Config, st: State, ops: seq<Op>, v: nat)
    decreases ops
  {
    ops == [] || (CarefulOp(cfg.catalog, st, ops[0], v) && CarefulRun(cfg, Step(cfg, st, ops[0]), ops[1..], v))
  }

  lemma {:induction false} RunSound(cfg: Config, w: set<nat>, st: State, ops: seq<Op>, v: nat)
    requires Counted(cfg.catalog, w, st) && v in cfg.catalog && Sound(cfg.catalog, w, st.tables, v)
    requires WholeRun(cfg, st, ops, w) && CarefulRun(cfg, st, ops, v)
    ensures Counted(cfg.catalog, w, Run(cfg, st, ops)) && Sound(cfg.catalog, w, Run(cfg, st, ops).tables, v)
    decreases ops
  {
    if ops != [] {
      StepCounts(cfg, w, st, ops[0]);
      StepSound(cfg, w, st, ops[0], v);
      RunSound(cfg, w, Step(cfg, st, ops[0]), ops[1..], v);
    }
  }

  /** The ledger splits into what came in and what was sold. */
  lemma {:induction false} LedgerSplits(movements: seq<Movement>, v: nat)
    ensures Ledger(movements, v, ON_HAND) == Ledger(movements, v, SUPPLY) + Ledger(movements, v, SALES)
  {
    if movements != [] {
      LedgerSplits(movements[..|movements| - 1], v);
    }
  }

  lemma {:induction false} UnguardedRunsAreCareful(cfg: Config, st: State, ops: seq<Op>, v: nat)
    requires !Guarded(cfg.catalog, v)
    ensures CarefulRun(cfg, st, ops, v)
    decreases ops
  {
    if ops != [] {
      UnguardedRunsAreCareful(cfg, Step(cfg, st, ops[0]), ops[1..], v);
    }
  }

  /** In whole units, what an order holds of a variant is what it holds in serials. */
  lemma {:induction false} UnitsAreWhole(c: Catalog, lines: seq<Line>, v: nat)
    requires WholeLines(c, {v}, lines) && v in c && c[v].tracking == Serialized
    ensures Units(c, lines, OfVariant(v)) == Units(c, lines, OfUnits(v))
  {
    if lines != [] {
      assert WholeLine(c, {v}, lines[0]);
      UnitsAreWhole(c, lines[1..], v);
    }
  }

  lemma {:induction false} TotalsAreWhole(c: Catalog, orders: seq<Order>, v: nat)
    requires WholeOrders(c, {v}, orders) && v in c && c[v].tracking == Serialized
    ensures Total(c, orders, Keeping, OfVariant(v)) == Total(c, orders, Keeping, OfUnits(v))
  {
    if orders != [] {
      UnitsAreWhole(c, orders[0].lines, v);
      TotalsAreWhole(c, orders[1..], v);
    }
  }

  /**
   No oversell and conservation: no more is reserved than is on hand, and what is on hand plus
   what orders hold is what was supplied - by restocks and adjustments, or as serials. Only a
   serialized variant is asked to be ordered in whole units, and only itself.
   */
  lemma NothingIsOversold(cfg: Config, st: State, ops: seq<Op>, v: nat)
    requires Fresh(st) && Denied(cfg.catalog, v) && v in st.tables.stock && CarefulRun(cfg, st, ops, v)
    requires cfg.catalog[v].tracking == Serialized ==> WholeRun(cfg, st, ops, {v})
    ensures var end := Run(cfg, st, ops); var c := cfg.catalog;
            && v in end.tables.stock
            && end.tables.stock[v].reserved <= end.tables.stock[v].quantity
            && end.tables.stock[v].quantity + Total(c, end.orders, Keeping, OfVariant(v))
                 == (if c[v].tracking == Serialized then 1000 * Registered(end.tables.serials, v)
                     else Ledger(end.tables.movements, v, SUPPLY))
  {
    var end, c := Run(cfg, st, ops), cfg.catalog;
    var w := Asked(c, v);
    NothingAsked(cfg, st, ops);
    RunSound(cfg, w, st, ops, v);
    RunRows(cfg, st, ops);
    if c[v].tracking == Serialized {
      MeterIsExact(cfg, w, st, ops, SerialsOut(v));
      TotalsAreWhole(c, end.orders, v);
    } else {
      MeterIsExact(cfg, w, st, ops, NetSales(v));
      LedgerSplits(end.tables.movements, v);
    }
  }

  /**
   Serialized stock, whatever its backorder policy and in whatever quantities it is ordered: the row
   counts the available serials, and those sold are the whole units that orders hold.
   */
  lemma SerializedStockIsCounted(cfg: Config, st: State, ops: seq<Op>, v: nat)
    requires Fresh(st) && v in cfg.catalog && cfg.catalog[v].tracking == Serialized && v in st.tables.stock
    ensures var end := Run(cfg, st, ops);
            && v in end.tables.stock
            && end.tables.stock[v].quantity == 1000 * Count(end.tables.serials, v, Available)
            && Total(cfg.catalog, end.orders, Keeping, OfUnits(v))
                 == 1000 * (Registered(end.tables.serials, v) - Count(end.tables.serials, v, Available))
  {
    NothingAsked(cfg, st, ops);
    UnguardedRunsAreCareful(cfg, st, ops, v);
    RunSound(cfg, {}, st, ops, v);
    RunRows(cfg, st, ops);
    MeterIsExact(cfg, {}, st, ops, SerialsOut(v));
  }

  /** Ledger replay for variants counted by quantity, whatever else is ordered. */
  lemma LedgerReplays(cfg: Config, st: State, ops: seq<Op>, v: nat)
    requires Fresh(st) && Guarded(cfg.catalog, v) && v in st.tables.stock && CarefulRun(cfg, st, ops, v)
    ensures v in Run(cfg, st, ops).tables.stock && Replays(Run(cfg, st, ops).tables, v)
  {
    NothingAsked(cfg, st, ops);
    RunSound(cfg, {}, st, ops, v);
    RunRows(cfg, st, ops);
  }
}

/** Stock rows are never created or dropped by a call, and every line that needs one has one. */
module Rows {
  import opened Outcomes
  import opened Inventory
  import opened Orders
  import opened Engine
  import opened Meters

  predicate LinesRowed(c: Catalog, s: Tables, lines: seq<Line>) {
    forall i :: 0 <= i < |lines| && Counts(c, lines[i]) ==> lines[i].variant in s.stock
  }

  predicate Rowed(c: Catalog, st: State) {
    forall k :: 0 <= k < |st.orders| ==> LinesRowed(c, st.tables, st.orders[k].lines)
  }

  /** The step kept the rows, and the lines of every order, and drew no line id. */
  predicate SameRows(st: State, st1: State) {
    && st1.tables.stock.Keys == st.tables.stock.Keys && |st1.orders| == |st.orders| && st1.nextItem == st.nextItem
    && forall k :: 0 <= k < |st.orders| ==> st1.orders[k].lines == st.orders[k].lines
  }

  lemma {:induction false} ApplyAllRows(c: Catalog, s: Tables, a: Action, lines: seq<Line>)
    requires ApplyAll(c, s, a, lines).Success?
    ensures ApplyAll(c, s, a, lines).value.stock.Keys == s.stock.Keys
    ensures a == Hold ==> LinesRowed(c, s, lines)
    decreases lines
  {
    if lines != [] {
      var first := Apply(c, s, a, lines[0]);
      AppliesToRow(c, s, a, lines[0]);
      assert ApplyAll(c, s, a, lines) == ApplyAll(c, first.value, a, lines[1..]);
      ApplyAllRows(c, first.value, a, lines[1..]);
      if a == Hold {
        forall i | 0 <= i < |lines| && Counts(c, lines[i]) ensures lines[i].variant in s.stock {
          if i > 0 {
            assert Counts(c, lines[1..][i - 1]);
          }
        }
      }
    }
  }

  lemma UpdateStatusRows(cfg: Config, st: State, k: nat, to: Status)
    ensures UpdateStatus(cfg, st, k, to).Success? ==> SameRows(st, UpdateStatus(cfg, st, k, to).value)
  {
    if UpdateStatus(cfg, st, k, to).Success? {
      TransitionRows(cfg, st, k, to);
    }
  }

  lemma TransitionRows(cfg: Config, st: State, k: nat, to: Status)
    requires k < |st.orders| && Transition(cfg, st, k, to).Success?
    ensures SameRows(st, Transition(cfg, st, k, to).value)
  {
    var c, lines := cfg.catalog, st.orders[k].lines;
    if ApplyAll(c, st.tables, Sell, lines).Success? {
      ApplyAllRows(c, st.tables, Sell, lines);
    }
    if ApplyAll(c, st.tables, Unhold, lines).Success? {
      ApplyAllRows(c, st.tables, Unhold, lines);
    }
    if ApplyAll(c, st.tables, Return, lines).Success? {
      ApplyAllRows(c, st.tables, Return, lines);
    }
  }

  lemma ClaimRows(cfg: Config, st: State, k: nat)
    ensures ClaimPending(cfg, st, k).Success? ==> SameRows(st, ClaimPending(cfg, st, k).value)
  {
    if k < |st.orders| && st.orders[k].status == Pending && ClaimPending(cfg, st, k).Success? {
      TransitionRows(cfg, st, k, Cancelled);
    }
  }

  lemma {:induction false} ReleaseExpiredRows(cfg: Config, st: State, now: int, k: nat)
    requires k <= |st.orders|
    ensures ReleaseExpired(cfg, st, now, k).Success? ==> SameRows(st, ReleaseExpired(cfg, st, now, k).value)
    decreases |st.orders| - k
  {
    if k < |st.orders| {
      if Expired(st.orders[k], now) && ClaimPending(cfg, st, k).Success? {
        ClaimRows(cfg, st, k);
        ReleaseExpiredRows(cfg, ClaimPending(cfg, st, k).value, now, k + 1);
      } else {
        ReleaseExpiredRows(cfg, st, now, k + 1);
      }
    }
  }

  lemma RecordPaymentRows(cfg: Config, st: State, k: nat, amount: int, status: PaymentStatus, reference: Option<string>)
    ensures var r := RecordPayment(cfg, st, k, amount, status, reference); r.Success? ==> SameRows(st, r.value)
  {
    if k < |st.orders| {
      var o := st.orders[k];
      var o1 := o.(payments := o.payments + [Payment(amount, status, reference)]).Logged(PaymentRecorded);
      UpdateStatusRows(cfg, st.(orders := st.orders[k := o1]), k, Confirmed);
    }
  }

  lemma RefundRows(cfg: Config, st: State, k: nat, amount: int, reason: string, reference: Option<string>, restock: bool)
    ensures var r := Refund(cfg, st, k, amount, reason, reference, restock); r.Success? ==> SameRows(st, r.value)
  {
    if Refund(cfg, st, k, amount, reason, reference, restock).Success? && restock {
      ApplyAllRows(cfg.catalog, st.tables, Return, st.orders[k].lines);
    }
  }

  lemma UpdateFulfillmentRows(st: State, parcel: nat, status: ParcelStatus)
    ensures var r := UpdateFulfillment(st, parcel, status); r.Success? ==> SameRows(st, r.value)
  {
  }

  lemma CallbackRows(cfg: Config, st: State, k: nat, tran: string, valid: bool, received: Option<int>)
    ensures SameRows(st, HandleCallback(cfg, st, k, tran, valid, received).state)
  {
    if k < |st.orders| {
      var o := st.orders[k];
      var booked := if received.Some? then received.value else o.grandTotal;
      var status := if valid && (if received.Some? then received.value else 0) == o.grandTotal then PaymentPaid else PaymentFailed;
      RecordPaymentRows(cfg, st, k, booked, status, Some(tran));
      var r := RecordPayment(cfg, st, k, booked, status, Some(tran));
      if r.Success? {
        ClaimRows(cfg, r.value, k);
        UpdateStatusRows(cfg, r.value, k, Confirmed);
      }
    }
  }

  lemma MarkFailedRows(cfg: Config, st: State, k: nat, tran: string)
    ensures SameRows(st, MarkFailed(cfg, st, k, tran).state)
  {
    if k < |st.orders| {
      RecordPaymentRows(cfg, st, k, st.orders[k].grandTotal, PaymentFailed, Some(tran));
      var r := RecordPayment(cfg, st, k, st.orders[k].grandTotal, PaymentFailed, Some(tran));
      if r.Success? {
        ClaimRows(cfg, r.value, k);
      }
    }
  }

  /** Rows survive, and with them the rows the lines need. */
  predicate KeepsRows(c: Catalog, st: State, st1: State) {
    st1.tables.stock.Keys == st.tables.stock.Keys && (Rowed(c, st) ==> Rowed(c, st1))
  }

  lemma AddItemRows(cfg: Config, st: State, k: nat, r: Request)
    ensures AddItem(cfg, st, k, r).Success? ==> KeepsRows(cfg.catalog, st, AddItem(cfg, st, k, r).value)
  {
  }

  lemma UpdateItemQuantityRows(cfg: Config, st: State, k: nat, item: nat, quantity: nat)
    ensures var r := UpdateItemQuantity(cfg, st, k, item, quantity); r.Success? ==> KeepsRows(cfg.catalog, st, r.value)
  {
  }

  lemma RemoveItemRows(cfg: Config, st: State, k: nat, item: nat)
    ensures RemoveItem(cfg, st, k, item).Success? ==> KeepsRows(cfg.catalog, st, RemoveItem(cfg, st, k, item).value)
  {
  }

  lemma AdjustItemUnitPriceRows(c: Catalog, st: State, k: nat, item: nat, price: int, reason: string)
    ensures var r := AdjustItemUnitPrice(st, k, item, price, reason); r.Success? ==> KeepsRows(c, st, r.value)
  {
  }

  lemma PlaceRows(cfg: Config, st: State, source: Source, requests: seq<Request>,
                  shipping: nat, tax: nat, discount: nat, expiresAt: int)
    ensures var r := Place(cfg, st, source, requests, shipping, tax, discount, expiresAt);
            r.Success? ==> KeepsRows(cfg.catalog, st, r.value)
  {
    var c, r := cfg.catalog, Place(cfg, st, source, requests, shipping, tax, discount, expiresAt);
    if r.Success? {
      ApplyAllRows(c, st.tables, Hold, NewLines(requests, st.nextItem));
      if Rowed(c, st) {
        forall j | 0 <= j < |r.value.orders| ensures LinesRowed(c, r.value.tables, r.value.orders[j].lines) {
          if j < |st.orders| {
            assert LinesRowed(c, st.tables, st.orders[j].lines);
          }
        }
      }
    }
  }

  lemma StepRows(cfg: Config, st: State, op: Op)
    ensures KeepsRows(cfg.catalog, st, Step(cfg, st, op))
  {
    match op
    case OpPlace(source, requests, shipping, tax, discount, expiresAt) =>
      PlaceRows(cfg, st, source, requests, shipping, tax, discount, expiresAt);
    case OpAddItem(k, r) => AddItemRows(cfg, st, k, r);
    case OpUpdateItemQuantity(k, item, quantity) => UpdateItemQuantityRows(cfg, st, k, item, quantity);
    case OpRemoveItem(k, item) => RemoveItemRows(cfg, st, k, item);
    case OpChangeItemVariant(k, item, to, unitPrice, lineTotal) =>
    case OpAdjustItemUnitPrice(k, item, price, reason) => AdjustItemUnitPriceRows(cfg.catalog, st, k, item, price, reason);
    case _ =>
      OtherRows(cfg, st, op);
  }

  lemma MoneyRows(cfg: Config, st: State, op: Op)
    requires op.OpRecordPayment? || op.OpRecordCodCollection? || op.OpRefund? || op.OpHandleCallback? || op.OpMarkFailed?
    ensures SameRows(st, Step(cfg, st, op))
  {
    match op
    case OpRecordPayment(k, amount, how, reference) => RecordPaymentRows(cfg, st, k, amount, how, reference);
    case OpRecordCodCollection(parcel, amount) =>
      RecordPaymentRows(cfg, st, OrderOfParcel(st.orders, parcel), amount, PaymentPaid, CodReference(parcel));
    case OpRefund(k, amount, reason, reference, restock) => RefundRows(cfg, st, k, amount, reason, reference, restock);
    case OpHandleCallback(k, tran, valid, received) => CallbackRows(cfg, st, k, tran, valid, received);
    case OpMarkFailed(k, tran) => MarkFailedRows(cfg, st, k, tran);
  }

  lemma OtherRows(cfg: Config, st: State, op: Op)
    requires !op.OpPlace? && !op.OpAddItem? && !op.OpUpdateItemQuantity? && !op.OpRemoveItem?
    requires !op.OpChangeItemVariant? && !op.OpAdjustItemUnitPrice?
    ensures SameRows(st, Step(cfg, st, op))
  {
    match op
    case OpApplyOrderDiscount(_, _, _) =>
    case OpUpdateShipping(_, _) =>
    case OpUpdateStatus(k, to) => UpdateStatusRows(cfg, st, k, to);
    case OpClaimPending(k) => ClaimRows(cfg, st, k);
    case OpReleaseExpired(now) => ReleaseExpiredRows(cfg, st, now, 0);
    case OpUpdateFulfillment(parcel, report) => UpdateFulfillmentRows(st, parcel, report);
    case OpRestock(_, _) =>
    case OpAdjust(_, _) =>
    case OpReceiveSerial(_) =>
    case _ => MoneyRows(cfg, st, op);
  }

  lemma {:induction false} RunRows(cfg: Config, st: State, ops: seq<Op>)
    requires Rowed(cfg.catalog, st)
    ensures Run(cfg, st, ops).tables.stock.Keys == st.tables.stock.Keys && Rowed(cfg.catalog, Run(cfg, st, ops))
    decreases ops
  {
    if ops != [] {
      StepRows(cfg, st, ops[0]);
      RunRows(cfg, Step(cfg, st, ops[0]), ops[1..]);
    }
  }
}
