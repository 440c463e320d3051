/** Line ids are unique, so the exact serial counters speak about single order lines. */
module LineIds {
  import opened Inventory
  import opened Orders
  import opened Engine
  import opened Meters
  import opened Counters
  import opened Rows

  // Line ids are unique

  function LinesWith(lines: seq<Line>, item: nat): nat {
    if lines == [] then 0 else (if lines[0].item == item then 1 else 0) + LinesWith(lines[1..], item)
  }

  function ItemUses(orders: seq<Order>, item: nat): nat {
    if orders == [] then 0 else LinesWith(orders[0].lines, item) + ItemUses(orders[1..], item)
  }

  /** Every id below the counter names at most one line, and every other id none. */
  ghost predicate ItemsUnique(st: State) {
    forall item: nat :: ItemUses(st.orders, item) <= (if item < st.nextItem then 1 else 0)
  }

  lemma {:induction false} LinesWithConcat(a: seq<Line>, b: seq<Line>, item: nat)
    ensures LinesWith(a + b, item) == LinesWith(a, item) + LinesWith(b, item)
  {
    if a == [] {
      assert a + b == b;
    } else {
      assert (a + b)[1..] == a[1..] + b;
      LinesWithConcat(a[1..], b, item);
    }
  }

  lemma LinesWithSplice(lines: seq<Line>, i: nat, mid: seq<Line>, item: nat)
    requires i < |lines|
    ensures LinesWith(lines[..i] + mid + lines[i + 1..], item)
         == LinesWith(lines, item) - (if lines[i].item == item then 1 else 0) + LinesWith(mid, item)
  {
    assert lines == lines[..i] + [lines[i]] + lines[i + 1..];
    LinesWithConcat(lines[..i] + [lines[i]], lines[i + 1..], item);
    LinesWithConcat(lines[..i], [lines[i]], item);
    LinesWithConcat(lines[..i] + mid, lines[i + 1..], item);
    LinesWithConcat(lines[..i], mid, item);
  }

  lemma {:induction false} ItemUsesReplace(orders: seq<Order>, k: nat, o: Order, item: nat)
    requires k < |orders|
    ensures ItemUses(orders[k := o], item)
         == ItemUses(orders, item) - LinesWith(orders[k].lines, item) + LinesWith(o.lines, item)
    ensures LinesWith(orders[k].lines, item) <= ItemUses(orders, item)
  {
    if k > 0 {
      assert orders[k := o][1..] == orders[1..][k - 1 := o];
      ItemUsesReplace(orders[1..], k - 1, o, item);
    } else {
      assert orders[k := o][1..] == orders[1..];
    }
  }

  lemma {:induction false} ItemUsesSnoc(orders: seq<Order>, o: Order, item: nat)
    ensures ItemUses(orders + [o], item) == ItemUses(orders, item) + LinesWith(o.lines, item)
  {
    if orders != [] {
      assert (orders + [o])[1..] == orders[1..] + [o];
      ItemUsesSnoc(orders[1..], o, item);
    }
  }

  /** Two orders never have a line with the same id. */
  lemma {:induction false} ItemsApart(orders: seq<Order>, k: nat, j: nat, item: nat)
    requires k < |orders| && j < |orders| && k != j && ItemUses(orders, item) <= 1
    ensures LinesWith(orders[k].lines, item) + LinesWith(orders[j].lines, item) <= 1
  {
    var hidden := orders[k].(lines := []);
    ItemUsesReplace(orders, k, hidden, item);
    ItemUsesReplace(orders[k := hidden], j, hidden, item);
  }

  lemma {:induction false} FreshItems(requests: seq<Request>, nextItem: nat, item: nat)
    ensures LinesWith(NewLines(requests, nextItem), item)
         == (if nextItem <= item < nextItem + |requests| then 1 else 0)
  {
    if requests != [] {
      var lines := NewLines(requests, nextItem);
      assert lines[1..] == NewLines(requests[1..], nextItem + 1);
      FreshItems(requests[1..], nextItem + 1, item);
    }
  }

  lemma {:induction false} SameLinesSameUses(a: seq<Order>, b: seq<Order>, item: nat)
    requires |a| == |b| && forall k :: 0 <= k < |a| ==> a[k].lines == b[k].lines
    ensures ItemUses(a, item) == ItemUses(b, item)
  {
    if a != [] {
      assert a[0].lines == b[0].lines;
      SameLinesSameUses(a[1..], b[1..], item);
    }
  }

  /** A rewritten line keeps its id, a removed one gives it up. */
  lemma EditKeepsItems(st: State, st1: State, k: nat, i: nat, mid: seq<Line>)
    requires ItemsUnique(st) && k < |st.orders| && i < |st.orders[k].lines| && st1.nextItem == st.nextItem
    requires |st1.orders| == |st.orders| && st1.orders == st.orders[k := st1.orders[k]]
    requires st1.orders[k].lines == st.orders[k].lines[..i] + mid + st.orders[k].lines[i + 1..]
    requires mid == [] || (|mid| == 1 && mid[0].item == st.orders[k].lines[i].item)
    ensures ItemsUnique(st1)
  {
    forall item: nat ensures ItemUses(st1.orders, item) <= (if item < st1.nextItem then 1 else 0) {
      LinesWithSplice(st.orders[k].lines, i, mid, item);
      ItemUsesReplace(st.orders, k, st1.orders[k], item);
    }
  }

  lemma UpdateItemQuantityKeepsItems(cfg: Config, st: State, k: nat, item: nat, quantity: nat)
    requires ItemsUnique(st)
    ensures var r := UpdateItemQuantity(cfg, st, k, item, quantity); r.Success? ==> ItemsUnique(r.value)
  {
    var r := UpdateItemQuantity(cfg, st, k, item, quantity);
    if r.Success? && r.value != st {
      var lines := st.orders[k].lines;
      var i := IndexOf(lines, item);
      var l1 := lines[i].(quantity := quantity, lineTotal := LineTotal(lines[i].unitPrice, quantity));
      assert lines[i := l1] == lines[..i] + [l1] + lines[i + 1..];
      EditKeepsItems(st, r.value, k, i, [l1]);
    }
  }

  lemma RemoveItemKeepsItems(cfg: Config, st: State, k: nat, item: nat)
    requires ItemsUnique(st)
    ensures var r := RemoveItem(cfg, st, k, item); r.Success? ==> ItemsUnique(r.value)
  {
    var r := RemoveItem(cfg, st, k, item);
    if r.Success? {
      var lines := st.orders[k].lines;
      var i := IndexOf(lines, item);
      assert lines[..i] + lines[i + 1..] == lines[..i] + [] + lines[i + 1..];
      EditKeepsItems(st, r.value, k, i, []);
    }
  }

  lemma ChangeItemVariantKeepsItems(cfg: Config, st: State, k: nat, item: nat, to: nat, unitPrice: nat, lineTotal: nat)
    requires ItemsUnique(st)
    ensures var r := ChangeItemVariant(cfg, st, k, item, to, unitPrice, lineTotal); r.Success? ==> ItemsUnique(r.value)
  {
    var r := ChangeItemVariant(cfg, st, k, item, to, unitPrice, lineTotal);
    if r.Success? && r.value != st {
      var lines := st.orders[k].lines;
      var i := IndexOf(lines, item);
      var l1 := lines[i].(variant := to, unitPrice := unitPrice, lineTotal := lineTotal);
      assert lines[i := l1] == lines[..i] + [l1] + lines[i + 1..];
      EditKeepsItems(st, r.value, k, i, [l1]);
    }
  }

  lemma AdjustItemUnitPriceKeepsItems(st: State, k: nat, item: nat, price: int, reason: string)
    requires ItemsUnique(st)
    ensures var r := AdjustItemUnitPrice(st, k, item, price, reason); r.Success? ==> ItemsUnique(r.value)
  {
    var r := AdjustItemUnitPrice(st, k, item, price, reason);
    if r.Success? && r.value != st {
      var lines := st.orders[k].lines;
      var i := IndexOf(lines, item);
      var l1 := lines[i].(unitPrice := price, lineTotal := LineTotal(price, lines[i].quantity));
      assert lines[i := l1] == lines[..i] + [l1] + lines[i + 1..];
      EditKeepsItems(st, r.value, k, i, [l1]);
    }
  }

  lemma AddItemKeepsItems(cfg: Config, st: State, k: nat, r: Request)
    requires ItemsUnique(st)
    ensures AddItem(cfg, st, k, r).Success? ==> ItemsUnique(AddItem(cfg, st, k, r).value)
  {
    if AddItem(cfg, st, k, r).Success? {
      var st1 := AddItem(cfg, st, k, r).value;
      var l := Line(st.nextItem, r.variant, r.quantity, r.unitPrice, r.lineTotal);
      forall item: nat ensures ItemUses(st1.orders, item) <= (if item < st1.nextItem then 1 else 0) {
        ItemUsesReplace(st.orders, k, st1.orders[k], item);
        LinesWithConcat(st.orders[k].lines, [l], item);
      }
    }
  }

  lemma PlaceKeepsItems(cfg: Config, st: State, source: Source, requests: seq<Request>,
                        shipping: nat, tax: nat, discount: nat, expiresAt: int)
    requires ItemsUnique(st)
    ensures var r := Place(cfg, st, source, requests, shipping, tax, discount, expiresAt);
            r.Success? ==> ItemsUnique(r.value)
  {
    var r := Place(cfg, st, source, requests, shipping, tax, discount, expiresAt);
    if r.Success? {
      var st1 := r.value;
      forall item: nat ensures ItemUses(st1.orders, item) <= (if item < st1.nextItem then 1 else 0) {
        ItemUsesSnoc(st.orders, st1.orders[|st.orders|], item);
        FreshItems(requests, st.nextItem, item);
      }
    }
  }

  lemma SameLinesKeepItems(st: State, st1: State)
    requires ItemsUnique(st) && SameRows(st, st1)
    ensures ItemsUnique(st1)
  {
    forall item: nat ensures ItemUses(st1.orders, item) <= (if item < st1.nextItem then 1 else 0) {
      SameLinesSameUses(st.orders, st1.orders, item);
    }
  }

  lemma StepKeepsItems(cfg: Config, st: State, op: Op)
    requires ItemsUnique(st)
    ensures ItemsUnique(Step(cfg, st, op))
  {
    match op
    case OpPlace(source, requests, shipping, tax, discount, expiresAt) =>
      PlaceKeepsItems(cfg, st, source, requests, shipping, tax, discount, expiresAt);
    case OpAddItem(k, r) => AddItemKeepsItems(cfg, st, k, r);
    case OpUpdateItemQuantity(k, item, quantity) => UpdateItemQuantityKeepsItems(cfg, st, k, item, quantity);
    case OpRemoveItem(k, item) => RemoveItemKeepsItems(cfg, st, k, item);
    case OpChangeItemVariant(k, item, to, unitPrice, lineTotal) =>
      ChangeItemVariantKeepsItems(cfg, st, k, item, to, unitPrice, lineTotal);
    case OpAdjustItemUnitPrice(k, item, price, reason) => AdjustItemUnitPriceKeepsItems(st, k, item, price, reason);
    case _ =>
      OtherRows(cfg, st, op);
      SameLinesKeepItems(st, Step(cfg, st, op));
  }

  lemma {:induction false} RunKeepsItems(cfg: Config, st: State, ops: seq<Op>)
    requires ItemsUnique(st)
    ensures ItemsUnique(Run(cfg, st, ops))
    decreases ops
  {
    if ops != [] {
      StepKeepsItems(cfg, st, ops[0]);
      RunKeepsItems(cfg, Step(cfg, st, ops[0]), ops[1..]);
    }
  }

  // One line, its own serials

  lemma {:induction false} NoItemNoUnits(c: Catalog, lines: seq<Line>, v: nat, item: nat)
    requires LinesWith(lines, item) == 0
    ensures Units(c, lines, OfItem(v, item)) == 0
  {
    if lines != [] {
      NoItemNoUnits(c, lines[1..], v, item);
    }
  }

  lemma {:induction false} NoUsesNoTotal(c: Catalog, orders: seq<Order>, phase: Phase, v: nat, item: nat)
    requires ItemUses(orders, item) == 0
    ensures Total(c, orders, phase, OfItem(v, item)) == 0
  {
    if orders != [] {
      NoItemNoUnits(c, orders[0].lines, v, item);
      NoUsesNoTotal(c, orders[1..], phase, v, item);
    }
  }

  /** A unique id weighs what its one line weighs. */
  lemma TotalOfLine(c: Catalog, st: State, k: nat, j: nat, v: nat, phase: Phase)
    requires ItemsUnique(st) && k < |st.orders| && j < |st.orders[k].lines|
    ensures var l := st.orders[k].lines[j];
            Total(c, st.orders, phase, OfItem(v, l.item))
              == if InPhase(st.orders[k], phase) then Share(c, OfItem(v, l.item), l) else 0
  {
    var o := st.orders[k];
    var l := o.lines[j];
    var g := OfItem(v, l.item);
    var rest := o.lines[..j] + [] + o.lines[j + 1..];
    var without := o.(lines := rest);
    LinesWithSplice(o.lines, j, [], l.item);
    ItemUsesReplace(st.orders, k, without, l.item);
    NoUsesNoTotal(c, st.orders[k := without], phase, v, l.item);
    TotalReplace(c, st.orders, k, without, phase, g);
    UnitsSplice(c, o.lines, j, [], g);
  }

  /**
   In every reachable state a serialized order line owns exactly its whole units in sold serials
   while its order keeps the goods, and none before or after.
   */
  lemma LinesOwnTheirSerials(cfg: Config, st: State, ops: seq<Op>, k: nat, j: nat)
    requires Fresh(st)
    requires var orders := Run(cfg, st, ops).orders; k < |orders| && j < |orders[k].lines|
    requires var v := Run(cfg, st, ops).orders[k].lines[j].variant;
             v in cfg.catalog && cfg.catalog[v].strategy == Stock && cfg.catalog[v].tracking == Serialized
    ensures var end := Run(cfg, st, ops); var l := end.orders[k].lines[j];
            Count(end.tables.serials, l.variant, Sold(l.item))
              == if InPhase(end.orders[k], Keeping) then WholeUnits(l.quantity) else 0
  {
    var end := Run(cfg, st, ops);
    var l := end.orders[k].lines[j];
    RunKeepsItems(cfg, st, ops);
    CountersAreExact(cfg, st, ops, l.variant, 0, l.item);
    TotalOfLine(cfg.catalog, end, k, j, l.variant, Keeping);
  }
}
