/** Payment references are used once, and gateway callbacks are idempotent, over every run. */
module Gateway {
  import opened Outcomes
  import opened Orders
  import opened Engine
  import opened Timeline
  import Text

  /** The payments of one order that carry a reference. */
  function Carrying(payments: seq<Payment>, reference: string): nat {
    if payments == [] then 0
    else (if payments[0].reference == Some(reference) then 1 else 0) + Carrying(payments[1..], reference)
  }

  function Uses(orders: seq<Order>, reference: string): nat {
    if orders == [] then 0 else Carrying(orders[0].payments, reference) + Uses(orders[1..], reference)
  }

  lemma {:induction false} CarryingSnoc(payments: seq<Payment>, p: Payment, reference: string)
    ensures Carrying(payments + [p], reference)
         == Carrying(payments, reference) + (if p.reference == Some(reference) then 1 else 0)
  {
    if payments != [] {
      assert (payments + [p])[1..] == payments[1..] + [p];
      CarryingSnoc(payments[1..], p, reference);
    }
  }

  lemma {:induction false} CarryingSome(payments: seq<Payment>, reference: string)
    ensures Carrying(payments, reference) > 0
        <==> exists i :: 0 <= i < |payments| && payments[i].reference == Some(reference)
  {
    if payments != [] {
      CarryingSome(payments[1..], reference);
      if Carrying(payments[1..], reference) > 0 {
        var i :| 0 <= i < |payments[1..]| && payments[1..][i].reference == Some(reference);
        assert payments[i + 1].reference == Some(reference);
      }
      if i :| 0 <= i < |payments| && payments[i].reference == Some(reference) {
        assert i > 0 ==> payments[1..][i - 1].reference == Some(reference);
      }
    }
  }

  /** A reference is used when and only when the unique index would reject it. */
  lemma {:induction false} UsesReject(orders: seq<Order>, reference: string)
    ensures Uses(orders, reference) > 0 <==> HasReference(orders, Some(reference))
  {
    if orders != [] {
      UsesReject(orders[1..], reference);
      CarryingSome(orders[0].payments, reference);
      if HasReference(orders[1..], Some(reference)) {
        var k, i :| 0 <= k < |orders[1..]| && 0 <= i < |orders[1..][k].payments|
                    && orders[1..][k].payments[i].reference == Some(reference);
        assert orders[k + 1].payments[i].reference == Some(reference);
      }
      if Carrying(orders[0].payments, reference) > 0 {
        var i :| 0 <= i < |orders[0].payments| && orders[0].payments[i].reference == Some(reference);
      }
      if HasReference(orders, Some(reference)) {
        var k, i :| 0 <= k < |orders| && 0 <= i < |orders[k].payments| && orders[k].payments[i].reference == Some(reference);
        if k > 0 {
          assert orders[1..][k - 1].payments[i].reference == Some(reference);
        }
      }
    }
  }

  lemma {:induction false} UsesReplace(orders: seq<Order>, k: nat, o: Order, reference: string)
    requires k < |orders|
    ensures Uses(orders[k := o], reference)
         == Uses(orders, reference) - Carrying(orders[k].payments, reference) + Carrying(o.payments, reference)
  {
    if k > 0 {
      assert orders[k := o][1..] == orders[1..][k - 1 := o];
      UsesReplace(orders[1..], k - 1, o, reference);
    } else {
      assert orders[k := o][1..] == orders[1..];
    }
  }

  lemma {:induction false} UsesSnoc(orders: seq<Order>, o: Order, reference: string)
    ensures Uses(orders + [o], reference) == Uses(orders, reference) + Carrying(o.payments, reference)
  {
    if orders != [] {
      assert (orders + [o])[1..] == orders[1..] + [o];
      UsesSnoc(orders[1..], o, reference);
    }
  }

  lemma {:induction false} UsesSame(a: seq<Order>, b: seq<Order>, reference: string)
    requires |a| == |b| && forall k :: 0 <= k < |a| ==> a[k].payments == b[k].payments
    ensures Uses(a, reference) == Uses(b, reference)
  {
    if a != [] {
      assert a[0].payments == b[0].payments;
      UsesSame(a[1..], b[1..], reference);
    }
  }

  // What a call does to the payments

  /** No payment was written. */
  predicate SamePayments(st: State, st1: State) {
    |st1.orders| == |st.orders| && forall k :: 0 <= k < |st.orders| ==> st1.orders[k].payments == st.orders[k].payments
  }

  /** One payment was written, with a reference that no earlier payment carried. */
  predicate OnePayment(st: State, st1: State, k: nat, p: Payment) {
    && k < |st.orders| == |st1.orders| && !HasReference(st.orders, p.reference)
    && st1.orders[k].payments == st.orders[k].payments + [p]
    && forall j :: 0 <= j < |st.orders| && j != k ==> st1.orders[j].payments == st.orders[j].payments
  }

  lemma UpdateStatusPays(cfg: Config, st: State, k: nat, to: Status)
    ensures UpdateStatus(cfg, st, k, to).Success? ==> SamePayments(st, UpdateStatus(cfg, st, k, to).value)
  {
  }

  lemma ClaimPays(cfg: Config, st: State, k: nat)
    ensures ClaimPending(cfg, st, k).Success? ==> SamePayments(st, ClaimPending(cfg, st, k).value)
  {
  }

  lemma {:induction false} ReleaseExpiredPays(cfg: Config, st: State, now: int, k: nat)
    requires k <= |st.orders|
    ensures ReleaseExpired(cfg, st, now, k).Success? ==> SamePayments(st, ReleaseExpired(cfg, st, now, k).value)
    decreases |st.orders| - k
  {
    if k < |st.orders| {
      if Expired(st.orders[k], now) && ClaimPending(cfg, st, k).Success? {
        ClaimPays(cfg, st, k);
        ReleaseExpiredPays(cfg, ClaimPending(cfg, st, k).value, now, k + 1);
      } else {
        ReleaseExpiredPays(cfg, st, now, k + 1);
      }
    }
  }

  lemma RecordPaymentPays(cfg: Config, st: State, k: nat, amount: int, how: PaymentStatus, reference: Option<string>)
    ensures var r := RecordPayment(cfg, st, k, amount, how, reference);
            r.Success? ==> OnePayment(st, r.value, k, Payment(amount, how, reference))
  {
    if RecordPayment(cfg, st, k, amount, how, reference).Success? {
      var o1 := st.orders[k].(payments := st.orders[k].payments + [Payment(amount, how, reference)]).Logged(PaymentRecorded);
      UpdateStatusPays(cfg, st.(orders := st.orders[k := o1]), k, Confirmed);
    }
  }

  lemma RefundPays(cfg: Config, st: State, k: nat, amount: int, reason: string, reference: Option<string>, restock: bool)
    ensures var r := Refund(cfg, st, k, amount, reason, reference, restock);
            r.Success? ==> OnePayment(st, r.value, k, Payment(amount, PaymentRefunded, reference))
  {
    var r := Refund(cfg, st, k, amount, reason, reference, restock);
    if r.Success? {
      var tables := if restock then ApplyAll(cfg.catalog, st.tables, Return, st.orders[k].lines).value else st.tables;
      var o1 := st.orders[k].(payments := st.orders[k].payments + [Payment(amount, PaymentRefunded, reference)])
                            .Logged(RefundRecorded(restock));
      UpdateStatusPays(cfg, st.(tables := tables, orders := st.orders[k := o1]), k, Refunded);
    }
  }

  lemma HandleCallbackPays(cfg: Config, st: State, k: nat, tran: string, valid: bool, amount: Option<int>)
    returns (p: Payment)
    ensures var st1 := HandleCallback(cfg, st, k, tran, valid, amount).state;
            SamePayments(st, st1) || OnePayment(st, st1, k, p)
  {
    p := Payment(0, PaymentFailed, None);
    if k < |st.orders| {
      var o := st.orders[k];
      var reported := if amount.Some? then amount.value else 0;
      var booked := if amount.Some? then amount.value else o.grandTotal;
      var how := if valid && reported == o.grandTotal then PaymentPaid else PaymentFailed;
      p := Payment(booked, how, Some(tran));
      var r := RecordPayment(cfg, st, k, booked, how, Some(tran));
      RecordPaymentPays(cfg, st, k, booked, how, Some(tran));
      if r.Success? {
        ClaimPays(cfg, r.value, k);
        UpdateStatusPays(cfg, r.value, k, Confirmed);
      }
    }
  }

  lemma MarkFailedPays(cfg: Config, st: State, k: nat, tran: string) returns (p: Payment)
    ensures var st1 := MarkFailed(cfg, st, k, tran).state; SamePayments(st, st1) || OnePayment(st, st1, k, p)
  {
    p := Payment(0, PaymentFailed, None);
    if k < |st.orders| {
      p := Payment(st.orders[k].grandTotal, PaymentFailed, Some(tran));
      var r := RecordPayment(cfg, st, k, st.orders[k].grandTotal, PaymentFailed, Some(tran));
      RecordPaymentPays(cfg, st, k, st.orders[k].grandTotal, PaymentFailed, Some(tran));
      if r.Success? {
        ClaimPays(cfg, r.value, k);
      }
    }
  }

  lemma UpdateFulfillmentPays(st: State, parcel: nat, report: ParcelStatus)
    ensures var r := UpdateFulfillment(st, parcel, report); r.Success? ==> SamePayments(st, r.value)
  {
  }

  lemma EditsPay(cfg: Config, st: State, op: Op)
    requires op.OpAddItem? || op.OpUpdateItemQuantity? || op.OpRemoveItem? || op.OpChangeItemVariant?
          || op.OpAdjustItemUnitPrice? || op.OpApplyOrderDiscount? || op.OpUpdateShipping?
    ensures SamePayments(st, Step(cfg, st, op))
  {
  }

  lemma QuietPays(cfg: Config, st: State, op: Op)
    requires !op.OpPlace? && !op.OpRecordPayment? && !op.OpRecordCodCollection? && !op.OpRefund?
    requires !op.OpHandleCallback? && !op.OpMarkFailed?
    ensures SamePayments(st, Step(cfg, st, op))
  {
    match op
    case OpUpdateStatus(k, to) => UpdateStatusPays(cfg, st, k, to);
    case OpClaimPending(k) => ClaimPays(cfg, st, k);
    case OpReleaseExpired(now) => ReleaseExpiredPays(cfg, st, now, 0);
    case OpUpdateFulfillment(parcel, report) => UpdateFulfillmentPays(st, parcel, report);
    case OpRestock(_, _) =>
    case OpAdjust(_, _) =>
    case OpReceiveSerial(_) =>
    case _ => EditsPay(cfg, st, op);
  }

  /** A call writes at most one payment row, and only under a fresh reference. */
  lemma StepPays(cfg: Config, st: State, op: Op) returns (k: nat, p: Payment)
    requires !op.OpPlace?
    ensures SamePayments(st, Step(cfg, st, op)) || OnePayment(st, Step(cfg, st, op), k, p)
  {
    k, p := 0, Payment(0, PaymentFailed, None);
    match op
    case OpRecordPayment(j, amount, how, reference) =>
      k, p := j, Payment(amount, how, reference);
      RecordPaymentPays(cfg, st, j, amount, how, reference);
    case OpRecordCodCollection(parcel, amount) =>
      k, p := OrderOfParcel(st.orders, parcel), Payment(amount, PaymentPaid, CodReference(parcel));
      RecordPaymentPays(cfg, st, k, amount, PaymentPaid, CodReference(parcel));
    case OpRefund(j, amount, reason, reference, restock) =>
      k, p := j, Payment(amount, PaymentRefunded, reference);
      RefundPays(cfg, st, j, amount, reason, reference, restock);
    case OpHandleCallback(j, tran, valid, received) =>
      k := j;
      p := HandleCallbackPays(cfg, st, j, tran, valid, received);
    case OpMarkFailed(j, tran) =>
      k := j;
      p := MarkFailedPays(cfg, st, j, tran);
    case _ => QuietPays(cfg, st, op);
  }

  /** References are used at most once, and stay used. */
  lemma StepUses(cfg: Config, st: State, op: Op, reference: string)
    requires Uses(st.orders, reference) <= 1
    ensures Uses(st.orders, reference) <= Uses(Step(cfg, st, op).orders, reference) <= 1
  {
    var st1 := Step(cfg, st, op);
    if op.OpPlace? {
      if st1 != st {
        UsesSnoc(st.orders, st1.orders[|st.orders|], reference);
      }
    } else {
      var k, p := StepPays(cfg, st, op);
      if SamePayments(st, st1) {
        UsesSame(st.orders, st1.orders, reference);
      } else {
        var paid := st.orders[k := st.orders[k].(payments := st.orders[k].payments + [p])];
        UsesReplace(st.orders, k, paid[k], reference);
        CarryingSnoc(st.orders[k].payments, p, reference);
        UsesSame(paid, st1.orders, reference);
        UsesReject(st.orders, reference);
      }
    }
  }

  /** In every reachable state at most one payment carries a transaction reference. */
  lemma {:induction false} ReferencesAreUnique(cfg: Config, st: State, ops: seq<Op>, reference: string)
    requires Uses(st.orders, reference) <= 1
    ensures Uses(st.orders, reference) <= Uses(Run(cfg, st, ops).orders, reference) <= 1
    decreases ops
  {
    if ops != [] {
      StepUses(cfg, st, ops[0], reference);
      ReferencesAreUnique(cfg, Step(cfg, st, ops[0]), ops[1..], reference);
    }
  }

  /** Once a transaction is on file, every later delivery of it, after any run, changes nothing. */
  lemma RepeatedCallbacksAreIgnored(cfg: Config, st: State, ops: seq<Op>, k: nat, tran: string,
                                    valid: bool, amount: Option<int>)
    requires HasReference(st.orders, Some(tran)) && Uses(st.orders, tran) <= 1
    ensures var end := Run(cfg, st, ops);
            && HandleCallback(cfg, end, k, tran, valid, amount) == Delivery(end, None)
            && MarkFailed(cfg, end, k, tran) == Delivery(end, None)
  {
    UsesReject(st.orders, tran);
    ReferencesAreUnique(cfg, st, ops, tran);
    UsesReject(Run(cfg, st, ops).orders, tran);
  }

  lemma KeepsReference(st: State, st1: State, reference: string)
    requires SamePayments(st, st1) && HasReference(st.orders, Some(reference))
    ensures HasReference(st1.orders, Some(reference))
  {
    UsesReject(st.orders, reference);
    UsesSame(st.orders, st1.orders, reference);
    UsesReject(st1.orders, reference);
  }

  lemma PaymentLeavesReference(cfg: Config, st: State, k: nat, amount: int, how: PaymentStatus, reference: string)
    ensures var r := RecordPayment(cfg, st, k, amount, how, Some(reference));
            r.Success? ==> HasReference(r.value.orders, Some(reference))
  {
    var r := RecordPayment(cfg, st, k, amount, how, Some(reference));
    if r.Success? {
      RecordPaymentPays(cfg, st, k, amount, how, Some(reference));
      var payments := r.value.orders[k].payments;
      assert payments[|payments| - 1].reference == Some(reference);
    }
  }

  /** Delivering the same callback twice leaves the state of delivering it once, whatever the first delivery met. */
  lemma CallbackTwice(cfg: Config, st: State, k: nat, tran: string, valid: bool, amount: Option<int>)
    ensures var once := HandleCallback(cfg, st, k, tran, valid, amount).state;
            HandleCallback(cfg, once, k, tran, valid, amount).state == once
  {
    var once := HandleCallback(cfg, st, k, tran, valid, amount).state;
    if k < |st.orders| && once != st {
      var o := st.orders[k];
      var reported := if amount.Some? then amount.value else 0;
      var booked := if amount.Some? then amount.value else o.grandTotal;
      var how := if valid && reported == o.grandTotal then PaymentPaid else PaymentFailed;
      var r := RecordPayment(cfg, st, k, booked, how, Some(tran));
      PaymentLeavesReference(cfg, st, k, booked, how, tran);
      ClaimPays(cfg, r.value, k);
      UpdateStatusPays(cfg, r.value, k, Confirmed);
      if once != r.value {
        KeepsReference(r.value, once, tran);
      }
    }
  }

  /** And so does failing the same transaction twice. */
  lemma FailedTwice(cfg: Config, st: State, k: nat, tran: string)
    ensures var once := MarkFailed(cfg, st, k, tran).state; MarkFailed(cfg, once, k, tran).state == once
  {
    var once := MarkFailed(cfg, st, k, tran).state;
    if k < |st.orders| && once != st {
      var r := RecordPayment(cfg, st, k, st.orders[k].grandTotal, PaymentFailed, Some(tran));
      PaymentLeavesReference(cfg, st, k, st.orders[k].grandTotal, PaymentFailed, tran);
      ClaimPays(cfg, r.value, k);
      if once != r.value {
        KeepsReference(r.value, once, tran);
      }
    }
  }

  /** Once a consignment's cash is booked, booking it again, after any run, changes nothing. */
  lemma RepeatedCollectionsAreIgnored(cfg: Config, st: State, ops: seq<Op>, parcel: nat, amount: int)
    requires HasReference(st.orders, CodReference(parcel)) && Uses(st.orders, CodReference(parcel).value) <= 1
    ensures var end := Run(cfg, st, ops); Step(cfg, end, OpRecordCodCollection(parcel, amount)) == end
  {
    var end := Run(cfg, st, ops);
    UsesReject(st.orders, CodReference(parcel).value);
    ReferencesAreUnique(cfg, st, ops, CodReference(parcel).value);
    UsesReject(end.orders, CodReference(parcel).value);
    assert !RecordPayment(cfg, end, OrderOfParcel(end.orders, parcel), amount, PaymentPaid, CodReference(parcel)).Success?;
  }

  /** Two consignments never share a reference. */
  lemma CodReferencesDiffer(a: nat, b: nat)
    requires CodReference(a) == CodReference(b)
    ensures a == b
  {
    assert ("cod:" + Text.Decimal(a))[4..] == Text.Decimal(a);
    assert ("cod:" + Text.Decimal(b))[4..] == Text.Decimal(b);
    Text.DecimalInjective(a, b);
  }

  /**
   A callback takes an order out of Pending only into Confirmed, fully paid, or into Cancelled;
   and an order that left Pending is never moved by a callback again.
   */
  lemma CallbacksConfirmOnlyPaidOrders(cfg: Config, st: State, k: nat, tran: string, valid: bool, amount: Option<int>)
    requires k < |st.orders| && TotalsSound(st.orders[k])
    ensures var o, o1 := st.orders[k], HandleCallback(cfg, st, k, tran, valid, amount).state.orders[k];
            && (o1.status == o.status || (o.status == Pending && o1.status in {Confirmed, Cancelled}))
            && (o1.status == Confirmed && o.status == Pending ==>
                  valid && o1.AmountPaid() == o1.grandTotal == o.grandTotal)
  {
    var o := st.orders[k];
    var reported := if amount.Some? then amount.value else 0;
    var booked := if amount.Some? then amount.value else o.grandTotal;
    var how := if valid && reported == o.grandTotal then PaymentPaid else PaymentFailed;
    AmountSnoc(o.payments, Payment(booked, how, Some(tran)), PaymentPaid);
  }
}
