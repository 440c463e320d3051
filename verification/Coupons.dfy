/** Coupons: which automatic coupon wins a cart, and how often a coupon is redeemed. */
module Coupons {
  import opened Outcomes

  datatype Kind = Percentage | FixedAmount | FreeShipping

  /** A coupon's id is its position. */
  datatype Coupon = Coupon(
    kind: Kind, value: nat, automatic: bool, minOrder: nat, minQuantity: nat, maxDiscount: nat,
    limitTotal: Option<nat>, limitPerCustomer: Option<nat>)

  /** A cart line with the coupons whose scope covers its product. */
  datatype Item = Item(lineTotal: nat, quantity: nat, coupons: set<nat>)

  /** A cart at checkout, the coupons running at that moment, and those open to this customer. */
  datatype Visit = Visit(
    items: seq<Item>, chosen: Option<nat>, customer: Option<nat>, active: set<nat>, welcome: set<nat>)

  datatype Redemption = Redemption(coupon: nat, order: nat, customer: Option<nat>)

  /** Orders are numbered as they are placed. */
  datatype State = State(redemptions: seq<Redemption>, orders: nat, cancelled: set<nat>)

  datatype Verdict = Invalid | Valid(discount: nat, freeShipping: bool)

  // Validation

  function Subtotal(items: seq<Item>): nat {
    if items == [] then 0 else items[0].lineTotal + Subtotal(items[1..])
  }

  function Quantity(items: seq<Item>): nat {
    if items == [] then 0 else items[0].quantity + Quantity(items[1..])
  }

  function Covered(items: seq<Item>, id: nat): seq<Item> {
    if items == [] then []
    else (if id in items[0].coupons then [items[0]] else []) + Covered(items[1..], id)
  }

  function Uses(redemptions: seq<Redemption>, id: nat): nat {
    if redemptions == [] then 0
    else (if redemptions[0].coupon == id then 1 else 0) + Uses(redemptions[1..], id)
  }

  function UsesBy(redemptions: seq<Redemption>, id: nat, customer: nat): nat {
    if redemptions == [] then 0
    else (if redemptions[0].coupon == id && redemptions[0].customer == Some(customer) then 1 else 0)
         + UsesBy(redemptions[1..], id, customer)
  }

  predicate WithinUsageLimits(st: State, c: Coupon, id: nat, customer: Option<nat>) {
    && (c.limitTotal.Some? ==> Uses(st.redemptions, id) < c.limitTotal.value)
    && (c.limitPerCustomer.Some? && customer.Some? ==>
          UsesBy(st.redemptions, id, customer.value) < c.limitPerCustomer.value)
  }

  /** Percentages are rounded half up; a maximum of zero is no maximum. */
  function DiscountOf(c: Coupon, eligible: nat): nat {
    var amount := match c.kind
      case Percentage => (eligible * c.value + 50) / 100
      case FixedAmount => if c.value < eligible then c.value else eligible
      case FreeShipping => 0;
    if 0 < c.maxDiscount < amount then c.maxDiscount else amount
  }

  function Validate(coupons: seq<Coupon>, st: State, id: nat, v: Visit): Verdict
    requires id < |coupons|
  {
    var c := coupons[id];
    if id !in v.active || Covered(v.items, id) == [] then Invalid
    else if Subtotal(v.items) < c.minOrder || Quantity(v.items) < c.minQuantity then Invalid
    else if id !in v.welcome || !WithinUsageLimits(st, c, id, v.customer) then Invalid
    else Valid(DiscountOf(c, Subtotal(Covered(v.items, id))), c.kind == FreeShipping)
  }

  // The automatic choice

  const WEIGHT := 10_000_000

  function Score(v: Verdict): int
    requires v.Valid?
  {
    (if v.freeShipping then 2 else if v.discount > 0 then 1 else 0) * WEIGHT + v.discount
  }

  /** The best coupon among the first `n`, keeping the earlier one on a tie. */
  function BestOf(verdicts: seq<Verdict>, n: nat): (best: Option<nat>)
    requires n <= |verdicts|
    ensures best.Some? ==> best.value < n && verdicts[best.value].Valid?
  {
    if n == 0 then None
    else
      var best := BestOf(verdicts, n - 1);
      if verdicts[n - 1].Invalid? then best
      else if best.None? || Score(verdicts[n - 1]) > Score(verdicts[best.value]) then Some(n - 1)
      else best
  }

  /** Candidates in ascending id order; a coupon that needs a code is never one. */
  function Verdicts(coupons: seq<Coupon>, st: State, v: Visit): (verdicts: seq<Verdict>)
    ensures |verdicts| == |coupons|
  {
    seq(|coupons|, id requires 0 <= id < |coupons| =>
      if coupons[id].automatic then Validate(coupons, st, id, v) else Invalid)
  }

  /** The coupon a checkout applies, with its verdict. */
  function Applied(coupons: seq<Coupon>, st: State, v: Visit): (applied: Option<(nat, Verdict)>)
    ensures applied.Some? ==> applied.value.0 < |coupons| && applied.value.1 == Validate(coupons, st, applied.value.0, v)
  {
    if v.chosen.Some? then
      if v.chosen.value < |coupons| then Some((v.chosen.value, Validate(coupons, st, v.chosen.value, v))) else None
    else
      var best := BestOf(Verdicts(coupons, st, v), |coupons|);
      if best.None? then None else Some((best.value, Validate(coupons, st, best.value, v)))
  }

  // Checkouts and cancellations

  function Checkout(coupons: seq<Coupon>, st: State, v: Visit): State {
    var applied := Applied(coupons, st, v);
    var placed := st.(orders := st.orders + 1);
    if applied.Some? && applied.value.1.Valid? && applied.value.1.discount > 0
    then placed.(redemptions := st.redemptions + [Redemption(applied.value.0, st.orders, v.customer)])
    else placed
  }

  function Without(redemptions: seq<Redemption>, order: nat): seq<Redemption> {
    if redemptions == [] then []
    else (if redemptions[0].order == order then [] else [redemptions[0]]) + Without(redemptions[1..], order)
  }

  function Cancel(st: State, order: nat): State {
    if order >= st.orders then st
    else st.(redemptions := Without(st.redemptions, order), cancelled := st.cancelled + {order})
  }

  datatype Call = CallCheckout(visit: Visit) | CallCancel(order: nat)

  function Step(coupons: seq<Coupon>, st: State, c: Call): State {
    match c
    case CallCheckout(v) => Checkout(coupons, st, v)
    case CallCancel(order) => Cancel(st, order)
  }

  function Run(coupons: seq<Coupon>, st: State, calls: seq<Call>): State
    decreases calls
  {
    if calls == [] then st else Run(coupons, Step(coupons, st, calls[0]), calls[1..])
  }

  // The service

  class CouponService {
    const coupons: seq<Coupon>
    var redemptions: seq<Redemption>
    var orders: nat
    var cancelled: set<nat>

    constructor (coupons: seq<Coupon>)
      ensures this.coupons == coupons && Now() == State([], 0, {})
    {
      this.coupons := coupons;
      redemptions, orders, cancelled := [], 0, {};
    }

    function Now(): State
      reads this
    {
      State(redemptions, orders, cancelled)
    }

    method FindValidAutomaticResult(v: Visit) returns (best: Option<nat>)
      ensures best == BestOf(Verdicts(coupons, Now(), v), |coupons|)
    {
      best := None;
      var bestScore := -1;
      var id := 0;
      while id < |coupons|
        invariant 0 <= id <= |coupons|
        invariant best == BestOf(Verdicts(coupons, Now(), v), id)
        invariant bestScore == if best.Some? then Score(Verdicts(coupons, Now(), v)[best.value]) else -1
      {
        if coupons[id].automatic {
          var verdict := Validate(coupons, Now(), id, v);
          if verdict.Valid? && Score(verdict) > bestScore {
            best, bestScore := Some(id), Score(verdict);
          }
        }
        id := id + 1;
      }
    }

    method PlaceOrder(v: Visit)
      modifies this
      ensures Now() == Checkout(coupons, old(Now()), v)
    {
      var id := v.chosen;
      if id.None? {
        id := FindValidAutomaticResult(v);
      }
      var order := orders;
      orders := orders + 1;
      if id.Some? && id.value < |coupons| {
        var verdict := Validate(coupons, State(redemptions, order, cancelled), id.value, v);
        if verdict.Valid? && verdict.discount > 0 {
          redemptions := redemptions + [Redemption(id.value, order, v.customer)];
        }
      }
    }

    method ReleaseForOrder(order: nat)
      requires order < orders
      modifies this
      ensures Now() == Cancel(old(Now()), order)
    {
      redemptions := Without(redemptions, order);
      cancelled := cancelled + {order};
    }

    /** What the theorems about runs say of this object. */
    method Serve(calls: seq<Call>)
      modifies this
      ensures Now() == Run(coupons, old(Now()), calls)
    {
      var i := 0;
      while i < |calls|
        invariant 0 <= i <= |calls|
        invariant Run(coupons, Now(), calls[i..]) == Run(coupons, old(Now()), calls)
      {
        assert calls[i..][1..] == calls[i + 1..];
        match calls[i] {
          case CallCheckout(v) => PlaceOrder(v);
          case CallCancel(order) =>
            if order < orders {
              ReleaseForOrder(order);
            }
        }
        i := i + 1;
      }
    }
  }

  // Which coupon wins

  /** The loop keeps the first of the highest scores. */
  lemma {:induction false} BestHasTopScore(verdicts: seq<Verdict>, n: nat)
    requires n <= |verdicts|
    ensures var best := BestOf(verdicts, n);
            && (best.None? <==> forall j :: 0 <= j < n ==> verdicts[j].Invalid?)
            && (best.Some? ==>
                  && (forall j :: 0 <= j < best.value && verdicts[j].Valid? ==>
                        Score(verdicts[j]) < Score(verdicts[best.value]))
                  && (forall j :: best.value < j < n && verdicts[j].Valid? ==>
                        Score(verdicts[j]) <= Score(verdicts[best.value])))
  {
    if n > 0 {
      BestHasTopScore(verdicts, n - 1);
    }
  }

  /** Free shipping first, then the larger discount, then the lower id. */
  predicate Prefers(verdicts: seq<Verdict>, i: nat, j: nat)
    requires i < |verdicts| && j < |verdicts| && verdicts[i].Valid? && verdicts[j].Valid?
  {
    var a, b := verdicts[i], verdicts[j];
    if a.freeShipping != b.freeShipping then a.freeShipping
    else if a.discount != b.discount then a.discount > b.discount
    else i < j
  }

  predicate IsBest(verdicts: seq<Verdict>, i: nat) {
    && i < |verdicts| && verdicts[i].Valid?
    && forall j :: 0 <= j < |verdicts| && j != i && verdicts[j].Valid? ==> Prefers(verdicts, i, j)
  }

  /** Free shipping carries no discount. */
  predicate Plain(verdicts: seq<Verdict>) {
    forall j :: 0 <= j < |verdicts| && verdicts[j].Valid? && verdicts[j].freeShipping ==> verdicts[j].discount == 0
  }

  predicate Ships(verdicts: seq<Verdict>, f: nat) {
    f < |verdicts| && verdicts[f].Valid? && verdicts[f].freeShipping
  }

  /** A discount so large that its score reaches the first free-shipping coupon. */
  predicate Outscores(verdicts: seq<Verdict>, j: nat, f: nat)
    requires j < |verdicts| && f < |verdicts|
  {
    verdicts[j].Valid? && !verdicts[j].freeShipping
    && (if j < f then verdicts[j].discount >= WEIGHT else verdicts[j].discount > WEIGHT)
  }

  /** Some free-shipping coupon is outscored by no discount: a caller can check it before the loop. */
  predicate ShippingHolds(verdicts: seq<Verdict>, f: nat)
    requires f < |verdicts|
  {
    forall j :: 0 <= j < |verdicts| ==> !Outscores(verdicts, j, f)
  }

  /** The first free-shipping coupon. */
  predicate FirstShipping(verdicts: seq<Verdict>, f: nat) {
    Ships(verdicts, f) && forall g :: 0 <= g < f ==> !Ships(verdicts, g)
  }

  lemma NoShippingPicksBest(verdicts: seq<Verdict>)
    requires Plain(verdicts) && BestOf(verdicts, |verdicts|).Some?
    requires forall f :: 0 <= f < |verdicts| ==> !Ships(verdicts, f)
    ensures IsBest(verdicts, BestOf(verdicts, |verdicts|).value)
  {
    BestHasTopScore(verdicts, |verdicts|);
    assert forall f :: 0 <= f < |verdicts| && verdicts[f].Valid? ==> !Ships(verdicts, f);
  }

  /** Without free shipping the integer score always picks the best coupon; with it, exactly while none outscores it. */
  lemma ScorePicksBestIff(verdicts: seq<Verdict>, f: nat)
    requires Plain(verdicts) && FirstShipping(verdicts, f)
    ensures var best := BestOf(verdicts, |verdicts|);
            best.Some? && (IsBest(verdicts, best.value) <==> ShippingHolds(verdicts, f))
  {
    var best := BestOf(verdicts, |verdicts|);
    BestHasTopScore(verdicts, |verdicts|);
    assert Ships(verdicts, f) && Score(verdicts[f]) == 2 * WEIGHT;
    if ShippingHolds(verdicts, f) {
      ShippingWins(verdicts, f);
    } else {
      var j :| 0 <= j < |verdicts| && Outscores(verdicts, j, f);
      assert Score(verdicts[j]) == WEIGHT + verdicts[j].discount;
      OutscoredLoses(verdicts, f, j);
    }
  }

  lemma ShippingWins(verdicts: seq<Verdict>, f: nat)
    requires Plain(verdicts) && FirstShipping(verdicts, f) && ShippingHolds(verdicts, f)
    ensures BestOf(verdicts, |verdicts|) == Some(f) && IsBest(verdicts, f)
  {
    BestHasTopScore(verdicts, |verdicts|);
    var b := BestOf(verdicts, |verdicts|).value;
    assert !Outscores(verdicts, b, f);
    assert b < f ==> !Ships(verdicts, b);
    forall j | 0 <= j < |verdicts| && j != f && verdicts[j].Valid? ensures Prefers(verdicts, f, j) {
      assert j < f ==> !Ships(verdicts, j);
    }
  }

  lemma OutscoredLoses(verdicts: seq<Verdict>, f: nat, j: nat)
    requires Plain(verdicts) && FirstShipping(verdicts, f) && j < |verdicts| && Outscores(verdicts, j, f)
    ensures BestOf(verdicts, |verdicts|).Some? && !IsBest(verdicts, BestOf(verdicts, |verdicts|).value)
  {
    BestHasTopScore(verdicts, |verdicts|);
    var b := BestOf(verdicts, |verdicts|).value;
    assert Score(verdicts[f]) == 2 * WEIGHT && Score(verdicts[j]) == WEIGHT + verdicts[j].discount;
    assert b < f ==> !Ships(verdicts, b);
    assert !verdicts[b].freeShipping;
    assert b != f && !Prefers(verdicts, b, f);
  }

  /** What validation produces is plain, so every cart without a discount of 10,000,000 or more is served the best coupon. */
  lemma CheckoutAppliesBest(coupons: seq<Coupon>, st: State, v: Visit)
    requires forall j :: 0 <= j < |coupons| ==>
               Verdicts(coupons, st, v)[j].Valid? ==> Verdicts(coupons, st, v)[j].discount < WEIGHT
    ensures var verdicts := Verdicts(coupons, st, v); var best := BestOf(verdicts, |verdicts|);
            if best.Some? then IsBest(verdicts, best.value)
            else forall j :: 0 <= j < |verdicts| ==> verdicts[j].Invalid?
  {
    var verdicts := Verdicts(coupons, st, v);
    BestHasTopScore(verdicts, |verdicts|);
    assert Plain(verdicts);
    if f :| 0 <= f < |verdicts| && Ships(verdicts, f) {
      var first := FindFirstShipping(verdicts, f);
      ShippingWins(verdicts, first);
    } else if BestOf(verdicts, |verdicts|).Some? {
      NoShippingPicksBest(verdicts);
    }
  }

  lemma {:induction false} FindFirstShipping(verdicts: seq<Verdict>, f: nat) returns (first: nat)
    requires Ships(verdicts, f)
    ensures FirstShipping(verdicts, first)
  {
    first := f;
    if g :| 0 <= g < f && Ships(verdicts, g) {
      first := FindFirstShipping(verdicts, g);
    }
  }

  /** A discount of 10,000,001 beats free shipping, against the documented order. */
  lemma LargeDiscountBeatsShipping()
    ensures var verdicts := [Valid(0, true), Valid(10_000_001, false)];
            BestOf(verdicts, 2) == Some(1) && !IsBest(verdicts, 1)
  {
    var verdicts := [Valid(0, true), Valid(10_000_001, false)];
    assert BestOf(verdicts, 1) == Some(0);
    assert !Prefers(verdicts, 1, 0);
  }

  lemma {:induction false} CoveredCostsLess(items: seq<Item>, id: nat)
    ensures Subtotal(Covered(items, id)) <= Subtotal(items)
  {
    if items != [] {
      var rest := Covered(items[1..], id);
      assert ([items[0]] + rest)[1..] == rest && [] + rest == rest;
      CoveredCostsLess(items[1..], id);
    }
  }

  /**
   Unless a percentage above 100 is configured, a coupon never takes off more than the goods it
   covers cost in the cart.
   */
  lemma DiscountWithinGoods(coupons: seq<Coupon>, st: State, id: nat, v: Visit)
    requires id < |coupons| && (coupons[id].kind == Percentage ==> coupons[id].value <= 100)
    requires Validate(coupons, st, id, v).Valid?
    ensures var verdict := Validate(coupons, st, id, v);
            && verdict.discount <= Subtotal(Covered(v.items, id)) <= Subtotal(v.items)
            && (verdict.freeShipping ==> verdict.discount == 0)
            && (coupons[id].maxDiscount > 0 ==> verdict.discount <= coupons[id].maxDiscount)
            && (coupons[id].kind == Percentage && coupons[id].maxDiscount == 0 ==>
                  -50 < 100 * verdict.discount - Subtotal(Covered(v.items, id)) * coupons[id].value <= 50)
  {
    CoveredCostsLess(v.items, id);
    DiscountBounds(coupons[id], Subtotal(Covered(v.items, id)));
  }

  lemma DiscountBounds(c: Coupon, eligible: nat)
    requires c.kind == Percentage ==> c.value <= 100
    ensures DiscountOf(c, eligible) <= eligible && (c.maxDiscount > 0 ==> DiscountOf(c, eligible) <= c.maxDiscount)
    ensures c.kind == FreeShipping ==> DiscountOf(c, eligible) == 0
    ensures c.kind == Percentage && c.maxDiscount == 0 ==>
              -50 < 100 * DiscountOf(c, eligible) - eligible * c.value <= 50
  {
    if c.kind == Percentage {
      Percent(eligible, c.value);
    }
  }

  lemma Percent(eligible: nat, value: nat)
    requires value <= 100
    ensures (eligible * value + 50) / 100 <= eligible
    ensures -50 < 100 * ((eligible * value + 50) / 100) - eligible * value <= 50
  {
    assert eligible * value <= eligible * 100;
  }

  // How often a coupon is redeemed

  predicate Limited(coupons: seq<Coupon>, st: State, id: nat, customer: nat)
    requires id < |coupons|
  {
    && (coupons[id].limitTotal.Some? ==> Uses(st.redemptions, id) <= coupons[id].limitTotal.value)
    && (coupons[id].limitPerCustomer.Some? ==>
          UsesBy(st.redemptions, id, customer) <= coupons[id].limitPerCustomer.value)
  }

  /** Each order has at most one redemption, cancelled orders none, and none is for free shipping. */
  predicate Booked(coupons: seq<Coupon>, st: State) {
    && (forall i, j :: 0 <= i < j < |st.redemptions| ==> st.redemptions[i].order != st.redemptions[j].order)
    && (forall i :: 0 <= i < |st.redemptions| ==>
          && st.redemptions[i].order < st.orders && st.redemptions[i].order !in st.cancelled
          && st.redemptions[i].coupon < |coupons| && coupons[st.redemptions[i].coupon].kind != FreeShipping)
    && (forall order :: order in st.cancelled ==> order < st.orders)
  }

  lemma {:induction false} UsesSnoc(redemptions: seq<Redemption>, r: Redemption, id: nat, customer: nat)
    ensures Uses(redemptions + [r], id) == Uses(redemptions, id) + (if r.coupon == id then 1 else 0)
    ensures UsesBy(redemptions + [r], id, customer) == UsesBy(redemptions, id, customer)
            + (if r.coupon == id && r.customer == Some(customer) then 1 else 0)
  {
    if redemptions != [] {
      assert (redemptions + [r])[1..] == redemptions[1..] + [r];
      UsesSnoc(redemptions[1..], r, id, customer);
    }
  }

  lemma {:induction false} WithoutKeeps(redemptions: seq<Redemption>, order: nat, id: nat, customer: nat)
    ensures Uses(Without(redemptions, order), id) <= Uses(redemptions, id)
    ensures UsesBy(Without(redemptions, order), id, customer) <= UsesBy(redemptions, id, customer)
  {
    if redemptions != [] {
      var rest := Without(redemptions[1..], order);
      assert ([redemptions[0]] + rest)[1..] == rest && [] + rest == rest;
      WithoutKeeps(redemptions[1..], order, id, customer);
    }
  }

  lemma {:induction false} WithoutDrops(redemptions: seq<Redemption>, order: nat)
    requires forall i, j :: 0 <= i < j < |redemptions| ==> redemptions[i].order != redemptions[j].order
    ensures var rest := Without(redemptions, order);
            && (forall r :: r in rest <==> r in redemptions && r.order != order)
            && (forall i, j :: 0 <= i < j < |rest| ==> rest[i].order != rest[j].order)
  {
    if redemptions != [] {
      WithoutDrops(redemptions[1..], order);
      assert redemptions == [redemptions[0]] + redemptions[1..];
      var tail := Without(redemptions[1..], order);
      forall j | 0 <= j < |tail| ensures tail[j].order != redemptions[0].order {
        assert tail[j] in redemptions[1..];
      }
    }
  }

  lemma CheckoutKeeps(coupons: seq<Coupon>, st: State, v: Visit, id: nat, customer: nat)
    requires Booked(coupons, st) && id < |coupons| && Limited(coupons, st, id, customer)
    ensures Booked(coupons, Checkout(coupons, st, v)) && Limited(coupons, Checkout(coupons, st, v), id, customer)
  {
    var st1 := Checkout(coupons, st, v);
    if st1.redemptions != st.redemptions {
      UsesSnoc(st.redemptions, st1.redemptions[|st.redemptions|], id, customer);
    }
  }

  lemma CancelBooks(coupons: seq<Coupon>, st: State, order: nat)
    requires Booked(coupons, st) && order < st.orders
    ensures Booked(coupons, Cancel(st, order))
  {
    var rest := Without(st.redemptions, order);
    WithoutDrops(st.redemptions, order);
    forall i | 0 <= i < |rest|
      ensures rest[i].order < st.orders && rest[i].order !in st.cancelled + {order}
      ensures rest[i].coupon < |coupons| && coupons[rest[i].coupon].kind != FreeShipping
    {
      assert rest[i] in rest;
      var j :| 0 <= j < |st.redemptions| && st.redemptions[j] == rest[i];
    }
  }

  lemma StepBooks(coupons: seq<Coupon>, st: State, c: Call)
    requires Booked(coupons, st)
    ensures Booked(coupons, Step(coupons, st, c))
  {
    if c.CallCancel? && c.order < st.orders {
      CancelBooks(coupons, st, c.order);
    }
  }

  lemma CancelKeeps(coupons: seq<Coupon>, st: State, order: nat, id: nat, customer: nat)
    requires Booked(coupons, st) && id < |coupons| && Limited(coupons, st, id, customer)
    ensures Booked(coupons, Cancel(st, order)) && Limited(coupons, Cancel(st, order), id, customer)
  {
    WithoutKeeps(st.redemptions, order, id, customer);
    if order < st.orders {
      CancelBooks(coupons, st, order);
    }
  }

  /**
   Over every run of checkouts and cancellations: redemptions never exceed the total or the
   per-customer limit, an order has at most one, and a cancelled order has none.
   */
  lemma {:induction false} LimitsHold(coupons: seq<Coupon>, st: State, calls: seq<Call>, id: nat, customer: nat)
    requires Booked(coupons, st) && id < |coupons| && Limited(coupons, st, id, customer)
    ensures var end := Run(coupons, st, calls); Booked(coupons, end) && Limited(coupons, end, id, customer)
    decreases calls
  {
    if calls != [] {
      match calls[0] {
        case CallCheckout(v) => CheckoutKeeps(coupons, st, v, id, customer);
        case CallCancel(order) => CancelKeeps(coupons, st, order, id, customer);
      }
      LimitsHold(coupons, Step(coupons, st, calls[0]), calls[1..], id, customer);
    }
  }

  // What each call leaves behind

  /** A coupon is accepted if and only if it runs, covers an item, meets its minimums, welcomes the customer and has uses left. */
  lemma ValidIff(coupons: seq<Coupon>, st: State, id: nat, v: Visit)
    requires id < |coupons|
    ensures var c := coupons[id]; var verdict := Validate(coupons, st, id, v);
            && (verdict.Valid? <==>
                  && id in v.active && id in v.welcome
                  && (exists i :: 0 <= i < |v.items| && id in v.items[i].coupons)
                  && Subtotal(v.items) >= c.minOrder && Quantity(v.items) >= c.minQuantity
                  && (c.limitTotal.None? || Uses(st.redemptions, id) < c.limitTotal.value)
                  && (c.limitPerCustomer.None? || v.customer.None?
                      || UsesBy(st.redemptions, id, v.customer.value) < c.limitPerCustomer.value))
            && (verdict.Valid? ==> verdict.freeShipping == c.kind.FreeShipping?)
  {
    CoveredIff(v.items, id);
  }

  lemma {:induction false} CoveredIff(items: seq<Item>, id: nat)
    ensures Covered(items, id) != [] <==> exists i :: 0 <= i < |items| && id in items[i].coupons
  {
    if items != [] {
      CoveredIff(items[1..], id);
      if id !in items[0].coupons {
        assert Covered(items, id) == Covered(items[1..], id);
        if i :| 0 <= i < |items| && id in items[i].coupons {
          assert items[1..][i - 1] == items[i];
        }
      } else {
        assert items[0] in Covered(items, id);
      }
    }
  }

  /** The discount is the fixed amount or the rounded share of what is covered, up to the maximum. */
  lemma DiscountIs(c: Coupon, eligible: nat)
    ensures var full := DiscountOf(c.(maxDiscount := 0), eligible);
            && (c.kind == FixedAmount ==> full <= eligible && full <= c.value && full in {eligible, c.value})
            && (c.kind == Percentage ==> -50 < 100 * full - eligible * c.value <= 50)
            && (c.kind == FreeShipping ==> full == 0)
            && DiscountOf(c, eligible) == if c.maxDiscount == 0 || full <= c.maxDiscount then full else c.maxDiscount
  {
  }

  /** The customer's own choice stands alone; otherwise the applied coupon is automatic, valid and scores highest. */
  lemma AppliedIs(coupons: seq<Coupon>, st: State, v: Visit)
    ensures var applied := Applied(coupons, st, v);
            match v.chosen
            case Some(id) =>
              applied == (if id < |coupons| then Some((id, Validate(coupons, st, id, v))) else None)
            case None =>
              forall j :: 0 <= j < |coupons| && coupons[j].automatic && Validate(coupons, st, j, v).Valid? ==>
                && applied.Some? && coupons[applied.value.0].automatic && applied.value.1.Valid?
                && Score(Validate(coupons, st, j, v)) <= Score(applied.value.1)
    ensures v.chosen.None? && Applied(coupons, st, v).Some? ==>
              coupons[Applied(coupons, st, v).value.0].automatic && Applied(coupons, st, v).value.1.Valid?
  {
    if v.chosen.None? {
      var verdicts := Verdicts(coupons, st, v);
      BestHasTopScore(verdicts, |coupons|);
      forall j | 0 <= j < |coupons| && coupons[j].automatic && Validate(coupons, st, j, v).Valid?
        ensures verdicts[j] == Validate(coupons, st, j, v)
      {
      }
    }
  }

  /** The coupon that takes something off the order of this visit. */
  function Granted(coupons: seq<Coupon>, st: State, v: Visit): Option<nat> {
    var applied := Applied(coupons, st, v);
    if applied.None? || applied.value.1.Invalid? || applied.value.1.discount == 0 then None else Some(applied.value.0)
  }

  /** A granted coupon is booked for this order and this customer, and nothing is booked otherwise. */
  lemma CheckoutLeaves(coupons: seq<Coupon>, st: State, v: Visit)
    ensures Checkout(coupons, st, v) ==
            State(match Granted(coupons, st, v)
                  case Some(id) => st.redemptions + [Redemption(id, st.orders, v.customer)]
                  case None => st.redemptions,
                  st.orders + 1, st.cancelled)
  {
  }

  /** Cancelling an order frees exactly its redemption. */
  lemma CancelLeaves(coupons: seq<Coupon>, st: State, order: nat)
    requires Booked(coupons, st) && order < st.orders
    ensures var st1 := Cancel(st, order);
            && st1.orders == st.orders && st1.cancelled == st.cancelled + {order}
            && forall r :: r in st1.redemptions <==> r in st.redemptions && r.order != order
  {
    WithoutDrops(st.redemptions, order);
  }

  // What the checkouts of a run granted

  function GrantOf(coupons: seq<Coupon>, st: State, c: Call): seq<Redemption> {
    if c.CallCheckout? && Granted(coupons, st, c.visit).Some?
    then [Redemption(Granted(coupons, st, c.visit).value, st.orders, c.visit.customer)]
    else []
  }

  /** Coupon, order and customer of each checkout that gave a discount, whatever became of its row. */
  function Grants(coupons: seq<Coupon>, st: State, calls: seq<Call>): seq<Redemption>
    decreases calls
  {
    if calls == [] then []
    else GrantOf(coupons, st, calls[0]) + Grants(coupons, Step(coupons, st, calls[0]), calls[1..])
  }

  /** Those of orders that were not cancelled. */
  function Standing(grants: seq<Redemption>, cancelled: set<nat>): seq<Redemption> {
    if grants == [] then []
    else (if grants[0].order in cancelled then [] else [grants[0]]) + Standing(grants[1..], cancelled)
  }

  lemma {:induction false} StandingJoins(a: seq<Redemption>, b: seq<Redemption>, cancelled: set<nat>)
    ensures Standing(a + b, cancelled) == Standing(a, cancelled) + Standing(b, cancelled)
  {
    if a == [] {
      assert a + b == b;
    } else {
      assert (a + b)[1..] == a[1..] + b;
      StandingJoins(a[1..], b, cancelled);
    }
  }

  lemma {:induction false} StandingWithout(rows: seq<Redemption>, order: nat, cancelled: set<nat>)
    requires order in cancelled
    ensures Standing(Without(rows, order), cancelled) == Standing(rows, cancelled)
  {
    if rows != [] {
      var rest := Without(rows[1..], order);
      assert ([rows[0]] + rest)[1..] == rest && [] + rest == rest;
      StandingWithout(rows[1..], order, cancelled);
    }
  }

  lemma {:induction false} AllStanding(rows: seq<Redemption>, cancelled: set<nat>)
    requires forall i :: 0 <= i < |rows| ==> rows[i].order !in cancelled
    ensures Standing(rows, cancelled) == rows
  {
    if rows != [] {
      AllStanding(rows[1..], cancelled);
    }
  }

  lemma {:induction false} CancelledStay(coupons: seq<Coupon>, st: State, calls: seq<Call>)
    ensures st.cancelled <= Run(coupons, st, calls).cancelled
    decreases calls
  {
    if calls != [] {
      CancelledStay(coupons, Step(coupons, st, calls[0]), calls[1..]);
    }
  }

  /** A call and the grants after it leave the same standing rows as the rows before it with its own grant. */
  lemma StepStanding(coupons: seq<Coupon>, st: State, c: Call, rest: seq<Redemption>, cancelled: set<nat>)
    requires Step(coupons, st, c).cancelled <= cancelled
    ensures Standing(Step(coupons, st, c).redemptions + rest, cancelled)
         == Standing(st.redemptions + (GrantOf(coupons, st, c) + rest), cancelled)
  {
    var st1, first := Step(coupons, st, c), GrantOf(coupons, st, c);
    match c
    case CallCheckout(v) =>
      CheckoutLeaves(coupons, st, v);
      assert st1.redemptions == st.redemptions + first;
      assert st1.redemptions + rest == st.redemptions + (first + rest);
    case CallCancel(order) =>
      assert first + rest == rest;
      if order < st.orders {
        StandingJoins(st1.redemptions, rest, cancelled);
        StandingJoins(st.redemptions, rest, cancelled);
        StandingWithout(st.redemptions, order, cancelled);
      }
  }

  /** Over every run the table holds exactly the grants of orders that were not cancelled, in the order of the checkouts. */
  lemma {:induction false} RowsAreGrants(coupons: seq<Coupon>, st: State, calls: seq<Call>)
    requires Booked(coupons, st)
    ensures var end := Run(coupons, st, calls);
            end.redemptions == Standing(st.redemptions + Grants(coupons, st, calls), end.cancelled)
    decreases calls
  {
    if calls == [] {
      assert st.redemptions + [] == st.redemptions;
      AllStanding(st.redemptions, st.cancelled);
    } else {
      var st1 := Step(coupons, st, calls[0]);
      StepBooks(coupons, st, calls[0]);
      RowsAreGrants(coupons, st1, calls[1..]);
      CancelledStay(coupons, st1, calls[1..]);
      StepStanding(coupons, st, calls[0], Grants(coupons, st1, calls[1..]), Run(coupons, st, calls).cancelled);
    }
  }

  /** The orders, not cancelled, in which a coupon was granted to a customer, or to anybody. */
  function OrdersWith(grants: seq<Redemption>, cancelled: set<nat>, id: nat, customer: Option<nat>): set<nat> {
    set r | r in grants && r.order !in cancelled && r.coupon == id && (customer.Some? ==> r.customer == customer) :: r.order
  }

  lemma {:induction false} StandingHas(grants: seq<Redemption>, cancelled: set<nat>, r: Redemption)
    ensures r in Standing(grants, cancelled) <==> r in grants && r.order !in cancelled
  {
    if grants != [] {
      assert grants == [grants[0]] + grants[1..];
      StandingHas(grants[1..], cancelled, r);
    }
  }

  /** Counting rows is counting orders, as long as no two rows share an order. */
  lemma {:induction false} UsesAreOrders(rows: seq<Redemption>, id: nat, customer: nat)
    requires forall i, j :: 0 <= i < j < |rows| ==> rows[i].order != rows[j].order
    ensures Uses(rows, id) == |OrdersWith(rows, {}, id, None)|
    ensures UsesBy(rows, id, customer) == |OrdersWith(rows, {}, id, Some(customer))|
  {
    if rows != [] {
      var r, rest := rows[0], rows[1..];
      UsesAreOrders(rest, id, customer);
      OrdersHead(rows, id, None);
      OrdersHead(rows, id, Some(customer));
    }
  }

  lemma OrdersHead(rows: seq<Redemption>, id: nat, customer: Option<nat>)
    requires rows != []
    requires forall i, j :: 0 <= i < j < |rows| ==> rows[i].order != rows[j].order
    ensures var rest := OrdersWith(rows[1..], {}, id, customer);
            && rows[0].order !in rest
            && OrdersWith(rows, {}, id, customer) ==
               rest + if rows[0].coupon == id && (customer.Some? ==> rows[0].customer == customer) then {rows[0].order} else {}
  {
    assert rows == [rows[0]] + rows[1..];
  }

  /**
   Over every run: among the orders that were not cancelled, a coupon gave a discount in at most as
   many as its total limit, and in at most as many of one customer as its limit per customer.
   */
  lemma GrantsStayWithinLimits(coupons: seq<Coupon>, calls: seq<Call>, id: nat, customer: nat)
    requires id < |coupons|
    ensures var start := State([], 0, {});
            var grants, cancelled := Grants(coupons, start, calls), Run(coupons, start, calls).cancelled;
            && (coupons[id].limitTotal.Some? ==>
                  |OrdersWith(grants, cancelled, id, None)| <= coupons[id].limitTotal.value)
            && (coupons[id].limitPerCustomer.Some? ==>
                  |OrdersWith(grants, cancelled, id, Some(customer))| <= coupons[id].limitPerCustomer.value)
  {
    var start := State([], 0, {});
    var grants, end := Grants(coupons, start, calls), Run(coupons, start, calls);
    LimitsHold(coupons, start, calls, id, customer);
    RowsAreGrants(coupons, start, calls);
    assert [] + grants == grants;
    UsesAreOrders(end.redemptions, id, customer);
    forall r ensures r in end.redemptions <==> r in grants && r.order !in end.cancelled {
      StandingHas(grants, end.cancelled, r);
    }
    assert OrdersWith(grants, end.cancelled, id, None) == OrdersWith(end.redemptions, {}, id, None);
    assert OrdersWith(grants, end.cancelled, id, Some(customer)) == OrdersWith(end.redemptions, {}, id, Some(customer));
  }

  lemma {:induction false} NeverRedeemed(coupons: seq<Coupon>, redemptions: seq<Redemption>, id: nat, customer: nat)
    requires id < |coupons| && coupons[id].kind == FreeShipping
    requires forall i :: 0 <= i < |redemptions| ==>
               redemptions[i].coupon < |coupons| && coupons[redemptions[i].coupon].kind != FreeShipping
    ensures Uses(redemptions, id) == 0 && UsesBy(redemptions, id, customer) == 0
  {
    if redemptions != [] {
      NeverRedeemed(coupons, redemptions[1..], id, customer);
    }
  }

  /**
   The documentation promises that limits bind free-shipping coupons too. They are never redeemed,
   so after every run such a coupon passes its limits if and only if they are not zero.
   */
  lemma ShippingLimitsBindIffZero(coupons: seq<Coupon>, calls: seq<Call>, id: nat, customer: Option<nat>)
    requires id < |coupons| && coupons[id].kind == FreeShipping
    ensures var end := Run(coupons, State([], 0, {}), calls);
            WithinUsageLimits(end, coupons[id], id, customer) <==>
              coupons[id].limitTotal != Some(0) && (customer.Some? ==> coupons[id].limitPerCustomer != Some(0))
  {
    var who := if customer.Some? then customer.value else 0;
    var start := State([], 0, {});
    assert Limited(coupons, start, id, who);
    LimitsHold(coupons, start, calls, id, who);
    NeverRedeemed(coupons, Run(coupons, start, calls).redemptions, id, who);
  }
}

/** What the discount of a cart meets in the order: its guard compares with totals that are priced anew. */
module Checkout {
  import opened Orders
  import opened Outcomes
  import opened Rounding
  import Coupons

  /** A cart line; a base quantity of zero is standard pricing. */
  datatype Good = Good(variant: nat, price: nat, base: nat, quantity: nat, coupons: set<nat>) {

    function StoredUnitPrice(): nat {
      if base == 0 then price else UnitPrice(price, base)
    }

    /** CartItem::lineTotal multiplies the stored unit price. */
    function InCart(): nat {
      LineTotal(StoredUnitPrice(), quantity)
    }

    /** The order line is priced by the pricing service. */
    function InOrder(): nat {
      if base == 0 then LineTotal(price, quantity) else PerUnitTotal(price, base, quantity)
    }

    predicate WholePrice() {
      base > 0 ==> PerBase(price, base) % 1_000_000 == 0
    }
  }

  function Items(cart: seq<Good>): seq<Coupons.Item> {
    if cart == [] then [] else [Coupons.Item(cart[0].InCart(), cart[0].quantity, cart[0].coupons)] + Items(cart[1..])
  }

  function Lines(cart: seq<Good>, item: nat): seq<Line> {
    if cart == [] then []
    else [Line(item, cart[0].variant, cart[0].quantity, cart[0].StoredUnitPrice(), cart[0].InOrder())]
         + Lines(cart[1..], item + 1)
  }

  function CartSubtotal(cart: seq<Good>): nat {
    Coupons.Subtotal(Items(cart))
  }

  function OrderSubtotal(cart: seq<Good>): int {
    SumOfLines(Lines(cart, 0))
  }

  /** The order that a checkout writes, before its totals are derived. */
  function Ordered(cart: seq<Good>, shipping: nat, tax: nat, discount: nat): Order {
    Order(Pending, Lines(cart, 0), [], shipping, tax, discount, 0, 0, [], [], 0)
  }

  predicate Accepted(cart: seq<Good>, shipping: nat, tax: nat, discount: nat) {
    Recalculated(Ordered(cart, shipping, tax, discount)).Success?
  }

  lemma AcceptedIff(cart: seq<Good>, shipping: nat, tax: nat, discount: nat)
    ensures Accepted(cart, shipping, tax, discount) <==> discount <= OrderSubtotal(cart)
  {
    var o := Ordered(cart, shipping, tax, discount);
    assert o.AmountPaid() == AmountOf([], PaymentPaid) == 0;
  }

  /** A percentage is at most 100. */
  predicate Sensible(c: Coupons.Coupon) {
    c.kind == Coupons.Percentage ==> c.value <= 100
  }

  /** No sensible coupon on the whole cart is refused by the discount guard. */
  ghost predicate AllCouponsPass(cart: seq<Good>, shipping: nat, tax: nat) {
    forall c: Coupons.Coupon :: Sensible(c) ==>
      Accepted(cart, shipping, tax, Coupons.DiscountOf(c, CartSubtotal(cart)))
  }

  /** They all pass if and only if the order's lines cost at least what the cart's do. */
  lemma AllCouponsPassIff(cart: seq<Good>, shipping: nat, tax: nat)
    ensures AllCouponsPass(cart, shipping, tax) <==> CartSubtotal(cart) <= OrderSubtotal(cart)
  {
    if CartSubtotal(cart) <= OrderSubtotal(cart) {
      forall c: Coupons.Coupon | Sensible(c)
        ensures Accepted(cart, shipping, tax, Coupons.DiscountOf(c, CartSubtotal(cart)))
      {
        Coupons.DiscountBounds(c, CartSubtotal(cart));
        AcceptedIff(cart, shipping, tax, Coupons.DiscountOf(c, CartSubtotal(cart)));
      }
    } else {
      var all := Coupons.Coupon(Coupons.FixedAmount, CartSubtotal(cart), true, 0, 0, 0, None, None);
      assert Sensible(all) && Coupons.DiscountOf(all, CartSubtotal(cart)) == CartSubtotal(cart);
      AcceptedIff(cart, shipping, tax, CartSubtotal(cart));
    }
  }

  /** Carts whose stored unit prices came out whole cost the same in the order. */
  lemma {:induction false} WholePricesCostTheSame(cart: seq<Good>, item: nat)
    requires forall i :: 0 <= i < |cart| ==> cart[i].WholePrice()
    ensures SumOfLines(Lines(cart, item)) == CartSubtotal(cart)
  {
    if cart != [] {
      var g := cart[0];
      assert g.WholePrice();
      if g.base > 0 {
        WholePriceKept(g.price, g.base, g.quantity);
      }
      WholePricesCostTheSame(cart[1..], item + 1);
      LinesHead(cart, item);
      ItemsHead(cart);
    }
  }

  lemma LinesHead(cart: seq<Good>, item: nat)
    requires cart != []
    ensures SumOfLines(Lines(cart, item)) == cart[0].InOrder() + SumOfLines(Lines(cart[1..], item + 1))
  {
    assert Lines(cart, item)[1..] == Lines(cart[1..], item + 1);
  }

  lemma ItemsHead(cart: seq<Good>)
    requires cart != []
    ensures CartSubtotal(cart) == cart[0].InCart() + CartSubtotal(cart[1..])
  {
    assert Items(cart)[1..] == Items(cart[1..]);
  }

  /** A coupon that was validated for such a cart is never refused at checkout. */
  lemma WholePricesNeverRefused(coupons: seq<Coupons.Coupon>, st: Coupons.State, id: nat, v: Coupons.Visit,
                                cart: seq<Good>, shipping: nat, tax: nat)
    requires id < |coupons| && Sensible(coupons[id]) && v.items == Items(cart)
    requires Coupons.Validate(coupons, st, id, v).Valid?
    requires forall i :: 0 <= i < |cart| ==> cart[i].WholePrice()
    ensures Accepted(cart, shipping, tax, Coupons.Validate(coupons, st, id, v).discount)
  {
    Coupons.DiscountWithinGoods(coupons, st, id, v);
    WholePricesCostTheSame(cart, 0);
    AcceptedIff(cart, shipping, tax, Coupons.Validate(coupons, st, id, v).discount);
  }

  /** Three units at 200 per three cost 201 in the cart and 200 in the order: a coupon for everything is refused. */
  lemma FullCouponRefused(shipping: nat, tax: nat)
    ensures var cart := [Good(0, 200, 3000, 3000, {0})];
            var all := Coupons.Coupon(Coupons.Percentage, 100, true, 0, 0, 0, None, None);
            var v := Coupons.Visit(Items(cart), None, None, {0}, {0});
            && Coupons.Validate([all], Coupons.State([], 0, {}), 0, v) == Coupons.Valid(201, false)
            && Recalculated(Ordered(cart, shipping, tax, 201)) == Failure(InvalidState)
  {
    var g := Good(0, 200, 3000, 3000, {0});
    var cart := [g];
    assert g.InCart() == 201 && g.InOrder() == 200;
    assert cart[1..] == [] && Items([]) == [] && Lines([], 1) == [];
    ItemsHead(cart);
    LinesHead(cart, 0);
    var items := Items(cart);
    assert items == [Coupons.Item(201, 3000, {0})] && items[1..] == [];
    assert Coupons.Covered([], 0) == [] && Coupons.Quantity([]) == 0 && Coupons.Subtotal([]) == 0;
    assert Coupons.Covered(items, 0) == [items[0]] + Coupons.Covered(items[1..], 0) == items;
    assert Coupons.Quantity(items) == 3000 + Coupons.Quantity(items[1..]) && Coupons.Subtotal(items) == 201;
    AcceptedIff(cart, shipping, tax, 201);
  }
}
