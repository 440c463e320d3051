/** The money and the timeline of every order, over every run. */
module Timeline {
  import opened Outcomes
  import opened Inventory
  import opened Orders
  import opened Engine
  import opened Lifecycle

  /** Totals follow from the lines, and never more is paid than owed. */
  predicate TotalsSound(o: Order) {
    && o.subtotal == SumOfLines(o.lines)
    && o.grandTotal == o.subtotal + o.shipping + o.tax - o.discount
    && o.shipping >= 0 && o.tax >= 0 && 0 <= o.discount <= o.subtotal
    && 0 <= o.AmountPaid() <= o.grandTotal && 0 <= o.AmountRefunded()
  }

  predicate RefundsCovered(o: Order) {
    o.AmountRefunded() <= o.AmountPaid()
  }

  predicate MoneySound(o: Order) {
    TotalsSound(o) && RefundsCovered(o)
  }

  function StatusEvents(events: seq<Event>): seq<Event> {
    if events == [] then []
    else
      var last := events[|events| - 1];
      StatusEvents(events[..|events| - 1]) + (if last.StatusChanged? then [last] else [])
  }

  /** Status events that start at Pending and chain along allowed transitions. */
  predicate LegalWalk(walk: seq<Event>) {
    walk != [] && walk[|walk| - 1].StatusChanged? &&
    if |walk| == 1 then walk[0] == StatusChanged(None, Pending)
    else
      var prev, last := walk[|walk| - 2], walk[|walk| - 1];
      LegalWalk(walk[..|walk| - 1]) && last.from == Some(prev.to) && last.to in prev.to.AllowedNext()
  }

  predicate TimelineSound(o: Order) {
    var walk := StatusEvents(o.events);
    LegalWalk(walk) && walk[|walk| - 1].to == o.status
  }

  predicate NoticesOnce(events: seq<Event>) {
    forall i, j :: 0 <= i < j < |events| && events[i].Notice? ==> events[i] != events[j]
  }

  predicate OrderSound(o: Order) {
    TotalsSound(o) && TimelineSound(o) && NoticesOnce(o.events)
  }

  // Changes keep it

  lemma {:induction false} AmountSnoc(payments: seq<Payment>, p: Payment, status: PaymentStatus)
    ensures AmountOf(payments + [p], status) == AmountOf(payments, status) + (if p.status == status then p.amount else 0)
  {
    if payments != [] {
      assert (payments + [p])[1..] == payments[1..] + [p];
      AmountSnoc(payments[1..], p, status);
    }
  }

  lemma PlainEvent(o: Order, e: Event)
    requires TimelineSound(o) && NoticesOnce(o.events) && !e.StatusChanged? && (e.Notice? ==> e !in o.events)
    ensures TimelineSound(o.Logged(e)) && NoticesOnce(o.Logged(e).events)
  {
    StatusSnoc(o.events, e);
    assert StatusEvents(o.events) + [] == StatusEvents(o.events);
  }

  lemma StatusSnoc(events: seq<Event>, e: Event)
    ensures StatusEvents(events + [e]) == StatusEvents(events) + (if e.StatusChanged? then [e] else [])
  {
    assert (events + [e])[..|events + [e]| - 1] == events;
  }

  lemma WalkSnoc(walk: seq<Event>, from: Status, to: Status)
    requires LegalWalk(walk) && walk[|walk| - 1].to == from && to in from.AllowedNext()
    ensures LegalWalk(walk + [StatusChanged(Some(from), to)])
  {
    var longer := walk + [StatusChanged(Some(from), to)];
    assert longer[..|longer| - 1] == walk;
  }

  /** The transition itself, once a refund was asked for where it had to be. */
  lemma ChangedStatus(o: Order, to: Status)
    requires TimelineSound(o) && NoticesOnce(o.events) && to in o.status.AllowedNext()
    ensures var o1 := o.(status := to).Logged(StatusChanged(Some(o.status), to));
            TimelineSound(o1) && NoticesOnce(o1.events)
  {
    StatusSnoc(o.events, StatusChanged(Some(o.status), to));
    WalkSnoc(StatusEvents(o.events), o.status, to);
  }

  lemma MovedKeeps(o: Order, to: Status)
    requires TimelineSound(o) && NoticesOnce(o.events) && to in o.status.AllowedNext()
    ensures TimelineSound(o.Moved(to)) && NoticesOnce(o.Moved(to).events)
  {
    if to == Cancelled && o.AmountPaid() > 0 {
      PlainEvent(o, RefundRequired);
      ChangedStatus(o.Logged(RefundRequired), to);
    } else {
      ChangedStatus(o, to);
    }
  }

  lemma NoticedKeeps(o: Order, kind: NoticeKind, key: NoticeKey)
    requires TimelineSound(o) && NoticesOnce(o.events)
    ensures TimelineSound(NoticedOnce(o, kind, key)) && NoticesOnce(NoticedOnce(o, kind, key).events)
  {
    if Notice(kind, key) !in o.events {
      PlainEvent(o, Notice(kind, key));
    }
  }

  predicate SameMoney(o: Order, o1: Order) {
    && o1.lines == o.lines && o1.payments == o.payments && o1.shipping == o.shipping && o1.tax == o.tax
    && o1.discount == o.discount && o1.subtotal == o.subtotal && o1.grandTotal == o.grandTotal
  }

  lemma PropagatedKeeps(o: Order)
    requires TimelineSound(o) && NoticesOnce(o.events)
    ensures TimelineSound(Propagated(o)) && NoticesOnce(Propagated(o).events)
  {
    var o1 := Propagated(o);
    if o.status == Shipped && o1 == o.Moved(Delivered) {
      MovedKeeps(o, Delivered);
    } else if o1 == NoticedOnce(o, FulfillmentUpdated, DeliveredAwaitingShipped) {
      NoticedKeeps(o, FulfillmentUpdated, DeliveredAwaitingShipped);
    } else if o1 == NoticedOnce(o, FinancialAdjustmentRequired, AllConsignmentsFailed) {
      NoticedKeeps(o, FinancialAdjustmentRequired, AllConsignmentsFailed);
    } else if o1 != o {
      NoticedKeeps(o, FinancialAdjustmentRequired, PartialFailure(FailedIds(o.parcels)));
    }
  }

  lemma ReportKeepsMoney(o: Order, i: nat, status: ParcelStatus)
    requires i < |o.parcels|
    ensures SameMoney(o, Reported(o, i, status))
  {
  }

  lemma ReportKeeps(o: Order, i: nat, status: ParcelStatus)
    requires TimelineSound(o) && NoticesOnce(o.events) && i < |o.parcels|
    ensures TimelineSound(Reported(o, i, status)) && NoticesOnce(Reported(o, i, status).events)
  {
    var moved := o.(parcels := o.parcels[i := o.parcels[i].(status := status)]);
    PlainEvent(moved, ParcelReported(status));
    PropagatedKeeps(moved.Logged(ParcelReported(status)));
  }

  lemma EditKeeps(o: Order, lines: seq<Line>, shipping: int, discount: int, event: Event)
    requires OrderSound(o) && Allowed(o, Edit(lines, shipping, discount, event))
    ensures OrderSound(Changed(o, Edit(lines, shipping, discount, event)))
  {
    PlainEvent(Recalculated(o.(lines := lines, shipping := shipping, discount := discount)).value, event);
  }

  lemma PayBackKeeps(o: Order, amount: int, reference: Option<string>, restock: bool)
    requires OrderSound(o) && Allowed(o, PayBack(amount, reference, restock))
    ensures OrderSound(Changed(o, PayBack(amount, reference, restock)))
  {
    var p := Payment(amount, PaymentRefunded, reference);
    PaymentKeeps(o, p, RefundRecorded(restock));
    if restock {
      MovedKeeps(o.(payments := o.payments + [p]).Logged(RefundRecorded(true)), Refunded);
    }
  }

  /** A payment within what is due, or a refund. */
  lemma PaymentKeeps(o: Order, p: Payment, e: Event)
    requires OrderSound(o) && !e.StatusChanged? && !e.Notice? && p.amount > 0
    requires p.status == PaymentPaid ==> p.amount <= o.grandTotal - o.AmountPaid()
    ensures OrderSound(o.(payments := o.payments + [p]).Logged(e))
  {
    AmountSnoc(o.payments, p, PaymentPaid);
    AmountSnoc(o.payments, p, PaymentRefunded);
    PlainEvent(o.(payments := o.payments + [p]), e);
  }

  lemma ChangeKeeps(o: Order, ch: Change)
    requires OrderSound(o) && Allowed(o, ch)
    ensures OrderSound(Changed(o, ch))
  {
    match ch
    case Edit(lines, shipping, discount, event) => EditKeeps(o, lines, shipping, discount, event);
    case Move(to) => MovedKeeps(o, to);
    case Pay(amount, how, reference) => PaymentKeeps(o, Payment(amount, how, reference), PaymentRecorded);
    case PayBack(amount, reference, restock) => PayBackKeeps(o, amount, reference, restock);
    case Report(i, status) =>
      ReportKeeps(o, i, status);
      ReportKeepsMoney(o, i, status);
  }

  lemma {:induction false} LeadsKeeps(o: Order, chs: seq<Change>, o1: Order, booked: bool)
    requires OrderSound(o) && Leads(o, chs, o1, booked)
    ensures OrderSound(o1)
    decreases chs
  {
    if chs != [] {
      ChangeKeeps(o, chs[0]);
      LeadsKeeps(Changed(o, chs[0]), chs[1..], o1, booked);
    }
  }

  predicate AllSound(orders: seq<Order>) {
    forall k :: 0 <= k < |orders| ==> OrderSound(orders[k])
  }

  lemma AdvancesKeeps(st: State, st1: State, at: Option<nat>)
    requires AllSound(st.orders) && Advances(st, st1, at)
    ensures AllSound(st1.orders)
  {
    forall k | 0 <= k < |st1.orders| ensures OrderSound(st1.orders[k]) {
      if k < |st.orders| {
        var chs :| Leads(st.orders[k], chs, st1.orders[k], at == Some(k));
        LeadsKeeps(st.orders[k], chs, st1.orders[k], at == Some(k));
      }
    }
  }

  lemma StepKeeps(cfg: Config, st: State, op: Op)
    requires AllSound(st.orders)
    ensures AllSound(Step(cfg, st, op).orders)
  {
    StepTravels(cfg, st, op);
    AdvancesKeeps(st, Step(cfg, st, op), BookedAt(op));
  }

  /** In every reachable state every order's totals add up, and its timeline and notices are legal. */
  lemma {:induction false} OrdersStaySound(cfg: Config, st: State, ops: seq<Op>)
    requires AllSound(st.orders)
    ensures AllSound(Run(cfg, st, ops).orders)
    decreases ops
  {
    if ops != [] {
      StepKeeps(cfg, st, ops[0]);
      OrdersStaySound(cfg, Step(cfg, st, ops[0]), ops[1..]);
    }
  }

  // Refunds

  lemma ChangeCovers(o: Order, ch: Change)
    requires RefundsCovered(o) && Allowed(o, ch) && !BooksRefund(ch)
    ensures RefundsCovered(Changed(o, ch))
  {
    match ch
    case Edit(_, _, _, _) =>
    case Move(_) =>
    case Pay(amount, how, reference) =>
      AmountSnoc(o.payments, Payment(amount, how, reference), PaymentPaid);
      AmountSnoc(o.payments, Payment(amount, how, reference), PaymentRefunded);
    case PayBack(amount, reference, _) =>
      AmountSnoc(o.payments, Payment(amount, PaymentRefunded, reference), PaymentPaid);
      AmountSnoc(o.payments, Payment(amount, PaymentRefunded, reference), PaymentRefunded);
    case Report(_, _) =>
  }

  lemma {:induction false} LeadsCovers(o: Order, chs: seq<Change>, o1: Order)
    requires RefundsCovered(o) && Leads(o, chs, o1, false)
    ensures RefundsCovered(o1)
    decreases chs
  {
    if chs != [] {
      ChangeCovers(o, chs[0]);
      LeadsCovers(Changed(o, chs[0]), chs[1..], o1);
    }
  }

  /** No call records a refund of order `k` with the call for payments. */
  predicate RefundsByRefund(ops: seq<Op>, k: nat) {
    forall i :: 0 <= i < |ops| ==> BookedAt(ops[i]) != Some(k)
  }

  /** An order whose refunds all go through refund() is never refunded more than was paid. */
  lemma {:induction false} RefundsStayCovered(cfg: Config, st: State, ops: seq<Op>, k: nat)
    requires k < |st.orders| ==> RefundsCovered(st.orders[k])
    requires RefundsByRefund(ops, k)
    ensures k < |Run(cfg, st, ops).orders| ==> RefundsCovered(Run(cfg, st, ops).orders[k])
    decreases ops
  {
    if ops != [] {
      var st1 := Step(cfg, st, ops[0]);
      StepTravels(cfg, st, ops[0]);
      if k < |st.orders| {
        var chs :| Leads(st.orders[k], chs, st1.orders[k], false);
        LeadsCovers(st.orders[k], chs, st1.orders[k]);
      }
      RefundsStayCovered(cfg, st1, ops[1..], k);
    }
  }

  // What a legal timeline is

  function Rank(s: Status): nat {
    match s
    case Pending => 0
    case Confirmed => 1
    case Processing => 2
    case Shipped => 3
    case Delivered => 4
    case Cancelled => 4
    case Refunded => 5
  }

  lemma {:induction false} WalkRises(walk: seq<Event>)
    requires LegalWalk(walk)
    ensures |walk| <= Rank(walk[|walk| - 1].to) + 1
    ensures forall i :: 0 <= i < |walk| - 1 ==> walk[i].StatusChanged? && Rank(walk[i].to) < Rank(walk[|walk| - 1].to)
  {
    if |walk| > 1 {
      WalkRises(walk[..|walk| - 1]);
    }
  }

  lemma {:induction false} WalkDistinct(walk: seq<Event>)
    requires LegalWalk(walk)
    ensures forall i, j :: 0 <= i < j < |walk| ==>
              walk[i].StatusChanged? && walk[j].StatusChanged? && walk[i].to != walk[j].to
  {
    WalkRises(walk);
    if |walk| > 1 {
      WalkDistinct(walk[..|walk| - 1]);
    }
  }

  /** An order passes each status at most once: at most six status events, and never back to Pending. */
  lemma WalksAreShort(o: Order)
    requires TimelineSound(o)
    ensures |StatusEvents(o.events)| <= 6
    ensures var walk := StatusEvents(o.events);
            forall i, j :: 0 <= i < j < |walk| ==>
              walk[i].StatusChanged? && walk[j].StatusChanged? && walk[i].to != walk[j].to
  {
    WalkRises(StatusEvents(o.events));
    WalkDistinct(StatusEvents(o.events));
  }

  // Couriers

  function Notices(events: seq<Event>): set<Event> {
    set i | 0 <= i < |events| && events[i].Notice? :: events[i]
  }

  /** A report moves an order only from Shipped to Delivered, and only when every parcel arrived. */
  lemma ReportsOnlyDeliver(o: Order, i: nat, status: ParcelStatus)
    requires i < |o.parcels|
    ensures var o1 := Reported(o, i, status);
            && (o1.status != o.status <==> o.status == Shipped && AllDelivered(o1.parcels))
            && (o1.status != o.status ==> o1.status == Delivered)
            && (o.status in {Delivered, Cancelled, Refunded} ==> o1.status == o.status && Notices(o1.events) == Notices(o.events))
  {
    var moved := o.(parcels := o.parcels[i := o.parcels[i].(status := status)]).Logged(ParcelReported(status));
    assert Propagated(moved).parcels == moved.parcels;
    if o.status in {Delivered, Cancelled, Refunded} {
      NoticesSnoc(o.events, ParcelReported(status));
    }
  }

  predicate HasFailed(parcels: seq<Parcel>, id: nat) {
    exists i :: 0 <= i < |parcels| && parcels[i].id == id && parcels[i].status == ParcelFailed
  }

  predicate AllFailed(parcels: seq<Parcel>) {
    forall i :: 0 <= i < |parcels| ==> parcels[i].status == ParcelFailed
  }

  lemma {:induction false} FailedAreListed(parcels: seq<Parcel>, id: nat)
    ensures id in FailedIds(parcels) <==> HasFailed(parcels, id)
    ensures |FailedIds(parcels)| <= |parcels| && (|FailedIds(parcels)| == |parcels| <==> AllFailed(parcels))
  {
    if parcels != [] {
      FailedAreListed(parcels[1..], id);
      if i :| 0 <= i < |parcels| && parcels[i].id == id && parcels[i].status == ParcelFailed {
        assert i > 0 ==> parcels[1..][i - 1] == parcels[i];
      }
      if i :| 0 <= i < |parcels[1..]| && parcels[1..][i].id == id && parcels[1..][i].status == ParcelFailed {
        assert parcels[i + 1] == parcels[1..][i];
      }
      forall i | 0 <= i < |parcels[1..]| ensures parcels[1..][i] == parcels[i + 1] {}
    }
  }

  /** The notice that a set of failed consignments calls for. */
  ghost predicate NoticeFor(parcels: seq<Parcel>, n: Event) {
    && n.Notice? && n.kind == FinancialAdjustmentRequired
    && (if AllFailed(parcels) then n.key == AllConsignmentsFailed
        else n.key.PartialFailure? && forall id: nat :: id in n.key.ids <==> HasFailed(parcels, id))
  }

  /** While an order is under way every failed consignment is on a notice that names exactly the failed ones. */
  lemma FailuresAreNoticed(o: Order, i: nat, status: ParcelStatus) returns (n: Event)
    requires i < |o.parcels| && o.status !in {Delivered, Cancelled, Refunded}
    requires exists j :: 0 <= j < |o.parcels| && (if j == i then status else o.parcels[j].status) == ParcelFailed
    ensures var o1 := Reported(o, i, status); o1.status == o.status && n in o1.events && NoticeFor(o1.parcels, n)
  {
    var moved := o.(parcels := o.parcels[i := o.parcels[i].(status := status)]).Logged(ParcelReported(status));
    var parcels := moved.parcels;
    var j :| 0 <= j < |o.parcels| && (if j == i then status else o.parcels[j].status) == ParcelFailed;
    assert parcels[j].status == ParcelFailed;
    FailedAreListed(parcels, parcels[j].id);
    forall id: nat ensures id in FailedIds(parcels) <==> HasFailed(parcels, id) {
      FailedAreListed(parcels, id);
    }
    n := Notice(FinancialAdjustmentRequired,
                if |FailedIds(parcels)| == |parcels| then AllConsignmentsFailed else PartialFailure(FailedIds(parcels)));
    var o1 := Propagated(moved);
    assert n !in moved.events ==> o1.events[|moved.events|] == n;
  }

  lemma NoticesSnoc(events: seq<Event>, e: Event)
    ensures Notices(events + [e]) == Notices(events) + (if e.Notice? then {e} else {})
  {
    var grown := events + [e];
    assert grown[|events|] == e;
    forall n | n in Notices(events) ensures n in Notices(grown) {
      var i :| 0 <= i < |events| && events[i] == n;
      assert grown[i] == n;
    }
  }

  /** Repeating a report changes neither the status nor the notices. */
  lemma RepeatedReportsAreQuiet(o: Order, i: nat, status: ParcelStatus)
    requires i < |o.parcels|
    ensures var o1 := Reported(o, i, status);
            && i < |o1.parcels|
            && Reported(o1, i, status).status == o1.status
            && Notices(Reported(o1, i, status).events) == Notices(o1.events)
  {
    var moved := o.(parcels := o.parcels[i := o.parcels[i].(status := status)]).Logged(ParcelReported(status));
    var o1 := Propagated(moved);
    assert o1.parcels == moved.parcels;
    assert o1.parcels[i := o1.parcels[i].(status := status)] == o1.parcels;
    NoticesSnoc(o1.events, ParcelReported(status));
  }
}

/**
 What a call can do to one order.

 Whatever a call does to the tables and to other orders, it takes each order through a
 short journey of the changes below. Facts about single orders are proved once, about changes.
 */
module Lifecycle {
  import opened Outcomes
  import opened Inventory
  import opened Orders
  import opened Engine

  datatype Change =
    | Edit(lines: seq<Line>, shipping: int, discount: int, event: Event)
    | Move(to: Status)
    | Pay(amount: int, how: PaymentStatus, reference: Option<string>)
    | PayBack(amount: int, reference: Option<string>, restock: bool)
    | Report(parcel: nat, status: ParcelStatus)

  predicate EditEvent(e: Event) {
    e in {ItemAdded, ItemUpdated, ItemRemoved, PriceAdjusted, DiscountAdjusted, ShippingUpdated}
  }

  predicate Allowed(o: Order, ch: Change) {
    match ch
    case Edit(lines, shipping, discount, event) =>
      && o.status == Pending && EditEvent(event)
      && (shipping == o.shipping || shipping >= 0) && (discount == o.discount || discount >= 0)
      && Recalculated(o.(lines := lines, shipping := shipping, discount := discount)).Success?
    case Move(to) => to in o.status.AllowedNext()
    case Pay(amount, how, _) =>
      && amount > 0 && o.status != Cancelled
      && (how == PaymentPaid ==> amount <= o.grandTotal - o.AmountPaid())
    case PayBack(amount, _, restock) =>
      && 0 < amount <= o.AmountPaid() - o.AmountRefunded()
      && (restock ==> o.status == Delivered && o.AmountRefunded() + amount >= o.AmountPaid())
    case Report(i, _) => i < |o.parcels|
  }

  function Changed(o: Order, ch: Change): Order
    requires Allowed(o, ch)
  {
    match ch
    case Edit(lines, shipping, discount, event) =>
      Recalculated(o.(lines := lines, shipping := shipping, discount := discount)).value.Logged(event)
    case Move(to) => o.Moved(to)
    case Pay(amount, how, reference) =>
      o.(payments := o.payments + [Payment(amount, how, reference)]).Logged(PaymentRecorded)
    case PayBack(amount, reference, restock) =>
      var o1 := o.(payments := o.payments + [Payment(amount, PaymentRefunded, reference)]).Logged(RefundRecorded(restock));
      if restock then o1.Moved(Refunded) else o1
    case Report(i, status) => Reported(o, i, status)
  }

  /** A refund booked with the call for payments, which does not look at what was paid. */
  predicate BooksRefund(ch: Change) {
    ch.Pay? && ch.how == PaymentRefunded
  }

  /** The changes lead from one order to the other; only if `booked` is one of them a booked refund. */
  predicate Leads(o: Order, chs: seq<Change>, o1: Order, booked: bool)
    decreases chs
  {
    if chs == [] then o == o1
    else Allowed(o, chs[0]) && (BooksRefund(chs[0]) ==> booked) && Leads(Changed(o, chs[0]), chs[1..], o1, booked)
  }

  ghost predicate Reaches(o: Order, o1: Order, booked: bool) {
    exists chs :: Leads(o, chs, o1, booked)
  }

  /** A step took every order of `st` through allowed changes, and booked a refund at most on order `at`. */
  ghost predicate Travels(st: State, st1: State, at: Option<nat>) {
    && |st1.orders| == |st.orders|
    && forall k :: 0 <= k < |st.orders| ==> Reaches(st.orders[k], st1.orders[k], at == Some(k))
  }

  /** The same, and possibly one new order. */
  ghost predicate Advances(st: State, st1: State, at: Option<nat>) {
    && |st.orders| <= |st1.orders| <= |st.orders| + 1
    && (forall k :: 0 <= k < |st.orders| ==> Reaches(st.orders[k], st1.orders[k], at == Some(k)))
    && (|st1.orders| > |st.orders| ==> Placed(st1.orders[|st.orders|]))
  }

  /** An order as it is placed. */
  predicate Placed(o: Order) {
    && o.status == Pending && o.payments == [] && o.events == [StatusChanged(None, Pending)]
    && o.shipping >= 0 && o.tax >= 0 && o.discount >= 0 && Recalculated(o) == Success(o)
  }

  lemma {:induction false} LeadsOn(o: Order, chs: seq<Change>, o1: Order, more: seq<Change>, o2: Order, booked: bool)
    requires Leads(o, chs, o1, booked) && Leads(o1, more, o2, booked)
    ensures Leads(o, chs + more, o2, booked)
    decreases chs
  {
    if chs == [] {
      assert chs + more == more;
    } else {
      assert (chs + more)[1..] == chs[1..] + more;
      LeadsOn(Changed(o, chs[0]), chs[1..], o1, more, o2, booked);
    }
  }

  lemma TravelsOn(st: State, st1: State, st2: State, at: Option<nat>)
    requires Travels(st, st1, at) && Travels(st1, st2, at)
    ensures Travels(st, st2, at)
  {
    forall k | 0 <= k < |st.orders| ensures Reaches(st.orders[k], st2.orders[k], at == Some(k)) {
      var chs :| Leads(st.orders[k], chs, st1.orders[k], at == Some(k));
      var more :| Leads(st1.orders[k], more, st2.orders[k], at == Some(k));
      LeadsOn(st.orders[k], chs, st1.orders[k], more, st2.orders[k], at == Some(k));
    }
  }

  lemma Stays(st: State, st1: State, at: Option<nat>)
    requires st1.orders == st.orders
    ensures Travels(st, st1, at)
  {
    forall k | 0 <= k < |st.orders| ensures Reaches(st.orders[k], st1.orders[k], at == Some(k)) {
      assert Leads(st.orders[k], [], st1.orders[k], at == Some(k));
    }
  }

  /** One order changed, the others stayed. */
  lemma OneChanged(st: State, st1: State, k: nat, ch: Change, at: Option<nat>)
    requires k < |st.orders| && Allowed(st.orders[k], ch) && (BooksRefund(ch) ==> at == Some(k))
    requires st1.orders == st.orders[k := Changed(st.orders[k], ch)]
    ensures Travels(st, st1, at)
  {
    forall j | 0 <= j < |st.orders| ensures Reaches(st.orders[j], st1.orders[j], at == Some(j)) {
      if j == k {
        assert Leads(Changed(st.orders[k], ch), [], st1.orders[k], at == Some(k));
        assert Leads(st.orders[k], [ch], st1.orders[k], at == Some(k));
      } else {
        assert Leads(st.orders[j], [], st1.orders[j], at == Some(j));
      }
    }
  }

  // The calls

  lemma UpdateStatusTravels(cfg: Config, st: State, k: nat, to: Status, at: Option<nat>)
    ensures UpdateStatus(cfg, st, k, to).Success? ==> Travels(st, UpdateStatus(cfg, st, k, to).value, at)
  {
    if UpdateStatus(cfg, st, k, to).Success? {
      OneChanged(st, UpdateStatus(cfg, st, k, to).value, k, Move(to), at);
    }
  }

  lemma ClaimTravels(cfg: Config, st: State, k: nat, at: Option<nat>)
    ensures ClaimPending(cfg, st, k).Success? ==> Travels(st, ClaimPending(cfg, st, k).value, at)
  {
    Stays(st, st, at);
    if k < |st.orders| && st.orders[k].status == Pending && ClaimPending(cfg, st, k).Success? {
      OneChanged(st, ClaimPending(cfg, st, k).value, k, Move(Cancelled), at);
    }
  }

  lemma {:induction false} ReleaseExpiredTravels(cfg: Config, st: State, now: int, k: nat)
    requires k <= |st.orders|
    ensures ReleaseExpired(cfg, st, now, k).Success? ==> Travels(st, ReleaseExpired(cfg, st, now, k).value, None)
    decreases |st.orders| - k
  {
    Stays(st, st, None);
    if k < |st.orders| {
      if Expired(st.orders[k], now) && ClaimPending(cfg, st, k).Success? {
        var st1 := ClaimPending(cfg, st, k).value;
        ClaimTravels(cfg, st, k, None);
        ReleaseExpiredTravels(cfg, st1, now, k + 1);
        if ReleaseExpired(cfg, st1, now, k + 1).Success? {
          TravelsOn(st, st1, ReleaseExpired(cfg, st1, now, k + 1).value, None);
        }
      } else {
        ReleaseExpiredTravels(cfg, st, now, k + 1);
      }
    }
  }

  lemma RecordPaymentTravels(cfg: Config, st: State, k: nat, amount: int, how: PaymentStatus,
                             reference: Option<string>, at: Option<nat>)
    requires how == PaymentRefunded ==> at == Some(k)
    ensures var r := RecordPayment(cfg, st, k, amount, how, reference); r.Success? ==> Travels(st, r.value, at)
  {
    var r := RecordPayment(cfg, st, k, amount, how, reference);
    if r.Success? {
      var st1 := st.(orders := st.orders[k := Changed(st.orders[k], Pay(amount, how, reference))]);
      OneChanged(st, st1, k, Pay(amount, how, reference), at);
      UpdateStatusTravels(cfg, st1, k, Confirmed, at);
      if r.value != st1 {
        TravelsOn(st, st1, r.value, at);
      }
    }
  }

  /** A refund that restocks ends in Refunded within the same call. */
  lemma RestockTravels(cfg: Config, st: State, k: nat, amount: int, reason: string, reference: Option<string>)
    ensures var r := Refund(cfg, st, k, amount, reason, reference, true); r.Success? ==> Travels(st, r.value, None)
  {
    var r := Refund(cfg, st, k, amount, reason, reference, true);
    if r.Success? {
      var o := st.orders[k];
      var o1 := o.(payments := o.payments + [Payment(amount, PaymentRefunded, reference)]).Logged(RefundRecorded(true));
      assert st.orders[k := o1][k := o1.Moved(Refunded)] == st.orders[k := o1.Moved(Refunded)];
      OneChanged(st, r.value, k, PayBack(amount, reference, true), None);
    }
  }

  lemma RefundTravels(cfg: Config, st: State, k: nat, amount: int, reason: string, reference: Option<string>, restock: bool)
    ensures var r := Refund(cfg, st, k, amount, reason, reference, restock); r.Success? ==> Travels(st, r.value, None)
  {
    var r := Refund(cfg, st, k, amount, reason, reference, restock);
    if restock {
      RestockTravels(cfg, st, k, amount, reason, reference);
    } else if r.Success? {
      var st1 := st.(orders := st.orders[k := Changed(st.orders[k], PayBack(amount, reference, false))]);
      OneChanged(st, st1, k, PayBack(amount, reference, false), None);
      UpdateStatusTravels(cfg, st1, k, Refunded, None);
      if r.value != st1 {
        TravelsOn(st, st1, r.value, None);
      }
    }
  }

  lemma ThenTravels(st: State, st1: State, r: Result<State>)
    requires Travels(st, st1, None) && (r.Success? ==> Travels(st1, r.value, None))
    ensures Travels(st, Committed(st1, r).state, None)
  {
    if r.Success? {
      TravelsOn(st, st1, r.value, None);
    }
  }

  lemma HandleCallbackTravels(cfg: Config, st: State, k: nat, tran: string, valid: bool, amount: Option<int>)
    ensures Travels(st, HandleCallback(cfg, st, k, tran, valid, amount).state, None)
  {
    Stays(st, st, None);
    if k < |st.orders| && !HasReference(st.orders, Some(tran)) {
      var o := st.orders[k];
      var reported := if amount.Some? then amount.value else 0;
      var booked := if amount.Some? then amount.value else o.grandTotal;
      var how := if valid && reported == o.grandTotal then PaymentPaid else PaymentFailed;
      var r := RecordPayment(cfg, st, k, booked, how, Some(tran));
      RecordPaymentTravels(cfg, st, k, booked, how, Some(tran), None);
      if r.Success? {
        ClaimTravels(cfg, r.value, k, None);
        UpdateStatusTravels(cfg, r.value, k, Confirmed, None);
        ThenTravels(st, r.value, ClaimPending(cfg, r.value, k));
        ThenTravels(st, r.value, UpdateStatus(cfg, r.value, k, Confirmed));
      }
    }
  }

  lemma MarkFailedTravels(cfg: Config, st: State, k: nat, tran: string)
    ensures Travels(st, MarkFailed(cfg, st, k, tran).state, None)
  {
    Stays(st, st, None);
    if k < |st.orders| && !HasReference(st.orders, Some(tran)) {
      var r := RecordPayment(cfg, st, k, st.orders[k].grandTotal, PaymentFailed, Some(tran));
      RecordPaymentTravels(cfg, st, k, st.orders[k].grandTotal, PaymentFailed, Some(tran), None);
      if r.Success? {
        ClaimTravels(cfg, r.value, k, None);
        ThenTravels(st, r.value, ClaimPending(cfg, r.value, k));
      }
    }
  }

  lemma EditsTravel(cfg: Config, st: State, op: Op)
    requires op.OpAddItem? || op.OpUpdateItemQuantity? || op.OpRemoveItem? || op.OpChangeItemVariant?
          || op.OpAdjustItemUnitPrice? || op.OpApplyOrderDiscount? || op.OpUpdateShipping?
    ensures Travels(st, Step(cfg, st, op), None)
  {
    Stays(st, st, None);
    var k, st1 := op.k, Step(cfg, st, op);
    if st1 != st {
      var o1 := st1.orders[k];
      var e := o1.events[|o1.events| - 1];
      OneChanged(st, st1, k, Edit(o1.lines, o1.shipping, o1.discount, e), None);
    }
  }

  lemma PlaceTravels(cfg: Config, st: State, source: Source, requests: seq<Request>,
                     shipping: nat, tax: nat, discount: nat, expiresAt: int)
    ensures var r := Place(cfg, st, source, requests, shipping, tax, discount, expiresAt);
            r.Success? ==> Advances(st, r.value, None)
  {
    var r := Place(cfg, st, source, requests, shipping, tax, discount, expiresAt);
    if r.Success? {
      forall k | 0 <= k < |st.orders| ensures Reaches(st.orders[k], r.value.orders[k], false) {
        assert Leads(st.orders[k], [], r.value.orders[k], false);
      }
    }
  }

  /** The order on which a call books a refund without looking at what was paid. */
  function BookedAt(op: Op): Option<nat> {
    if op.OpRecordPayment? && op.how == PaymentRefunded then Some(op.k) else None
  }

  lemma UpdateFulfillmentTravels(st: State, parcel: nat, report: ParcelStatus)
    ensures var r := UpdateFulfillment(st, parcel, report); r.Success? ==> Travels(st, r.value, None)
  {
    var k := OrderOfParcel(st.orders, parcel);
    if k < |st.orders| {
      OneChanged(st, UpdateFulfillment(st, parcel, report).value, k,
                 Report(ParcelIndex(st.orders[k].parcels, parcel), report), None);
    }
  }

  lemma MoneyTravels(cfg: Config, st: State, op: Op)
    requires op.OpRecordPayment? || op.OpRecordCodCollection? || op.OpRefund?
    ensures Travels(st, Step(cfg, st, op), BookedAt(op))
  {
    Stays(st, st, BookedAt(op));
    match op
    case OpRecordPayment(k, amount, how, reference) =>
      RecordPaymentTravels(cfg, st, k, amount, how, reference, BookedAt(op));
    case OpRecordCodCollection(parcel, amount) =>
      RecordPaymentTravels(cfg, st, OrderOfParcel(st.orders, parcel), amount, PaymentPaid, CodReference(parcel), None);
    case OpRefund(k, amount, reason, reference, restock) => RefundTravels(cfg, st, k, amount, reason, reference, restock);
  }

  /** Every call takes every order through allowed changes, and places at most one new order. */
  lemma StepTravels(cfg: Config, st: State, op: Op)
    ensures Advances(st, Step(cfg, st, op), BookedAt(op))
  {
    Stays(st, st, BookedAt(op));
    match op
    case OpPlace(source, requests, shipping, tax, discount, expiresAt) =>
      PlaceTravels(cfg, st, source, requests, shipping, tax, discount, expiresAt);
    case OpUpdateStatus(k, to) => UpdateStatusTravels(cfg, st, k, to, None);
    case OpClaimPending(k) => ClaimTravels(cfg, st, k, None);
    case OpReleaseExpired(now) => ReleaseExpiredTravels(cfg, st, now, 0);
    case OpRecordPayment(_, _, _, _) => MoneyTravels(cfg, st, op);
    case OpRecordCodCollection(_, _) => MoneyTravels(cfg, st, op);
    case OpRefund(_, _, _, _, _) => MoneyTravels(cfg, st, op);
    case OpHandleCallback(k, tran, valid, received) => HandleCallbackTravels(cfg, st, k, tran, valid, received);
    case OpMarkFailed(k, tran) => MarkFailedTravels(cfg, st, k, tran);
    case OpUpdateFulfillment(parcel, report) => UpdateFulfillmentTravels(st, parcel, report);
    case OpRestock(_, _) => Stays(st, Step(cfg, st, op), None);
    case OpAdjust(_, _) => Stays(st, Step(cfg, st, op), None);
    case OpReceiveSerial(_) => Stays(st, Step(cfg, st, op), None);
    case _ => EditsTravel(cfg, st, op);
  }
}
