/** Serials change hands only with an order's goods, and a cancellation hands back what the confirmation took. */
module Attribution {
  import opened Outcomes
  import opened Inventory
  import opened Orders
  import opened Engine
  import opened Meters
  import opened Counters
  import opened Rows
  import opened LineIds
  import opened Lifecycle

  // Serials change hands only with an order's goods

  predicate HeldBy(s: Serial, lines: seq<Line>) {
    s.holder.Sold? && LinesWith(lines, s.holder.item) > 0
  }

  /** A line of a serialized variant that could hold this serial. */
  predicate HoldsFor(c: Catalog, lines: seq<Line>, s: Serial) {
    HeldBy(s, lines) && s.variant in c && c[s.variant].tracking == Serialized
  }

  /** What one action may do to one serial. */
  predicate HandsOver(c: Catalog, a: Action, lines: seq<Line>, s: Serial, s1: Serial) {
    || s1 == s
    || (a == Sell && s.holder == Available && HoldsFor(c, lines, s1) && s1.variant == s.variant)
    || (a == Return && HoldsFor(c, lines, s) && s1 == s.(holder := Available))
  }

  lemma {:induction false} AssignAt(serials: seq<Serial>, ids: seq<nat>, h: Holder, i: nat)
    requires (forall j :: 0 <= j < |ids| ==> ids[j] < |serials|) && i < |serials|
    ensures Assign(serials, ids, h)[i] == if i in ids then serials[i].(holder := h) else serials[i]
    decreases ids
  {
    if ids != [] {
      AssignAt(serials[ids[0] := serials[ids[0]].(holder := h)], ids[1..], h, i);
    }
  }

  lemma ReassignAt(s: Tables, v: nat, from: Holder, to: Holder, n: nat, i: nat)
    requires Reassign(s, v, from, to, n).Success? && i < |s.serials|
    ensures var serials := Reassign(s, v, from, to, n).value.serials;
            && |serials| == |s.serials|
            && (serials[i] == s.serials[i] || (s.serials[i] == Serial(v, from) && serials[i] == Serial(v, to)))
  {
    var ids := Pick(s.serials, v, from, n, 0);
    PickFinds(s.serials, v, from, n, 0);
    AssignAt(s.serials, ids, to, i);
  }

  lemma ApplyHandsOver(c: Catalog, s: Tables, a: Action, l: Line, lines: seq<Line>, i: nat)
    requires Apply(c, s, a, l).Success? && i < |s.serials| && LinesWith(lines, l.item) > 0
    ensures var serials := Apply(c, s, a, l).value.serials;
            |serials| == |s.serials| && HandsOver(c, a, lines, s.serials[i], serials[i])
  {
    if Counts(c, l) && c[l.variant].tracking == Serialized {
      if a == Sell {
        ReassignAt(s, l.variant, Available, Sold(l.item), WholeUnits(l.quantity), i);
      } else if a == Return {
        ReassignAt(s, l.variant, Sold(l.item), Available, WholeUnits(l.quantity), i);
      }
    }
  }

  lemma {:induction false} ApplyAllHandsOver(c: Catalog, s: Tables, a: Action, done: seq<Line>, lines: seq<Line>, i: nat)
    requires ApplyAll(c, s, a, lines).Success? && i < |s.serials|
    ensures var serials := ApplyAll(c, s, a, lines).value.serials;
            |serials| == |s.serials| && HandsOver(c, a, done + lines, s.serials[i], serials[i])
    decreases lines
  {
    if lines != [] {
      var l, all := lines[0], done + lines;
      assert all == done + [l] + lines[1..] && lines == [l] + lines[1..];
      LinesWithConcat(done, lines, l.item);
      assert LinesWith(lines, l.item) > 0;
      ApplyHandsOver(c, s, a, l, all, i);
      ApplyAllHandsOver(c, Apply(c, s, a, l).value, a, done + [l], lines[1..], i);
    }
  }

  /** The serials the lines hold are the same before and after. */
  predicate SameHeld(serials: seq<Serial>, serials1: seq<Serial>, lines: seq<Line>) {
    && |serials| <= |serials1|
    && forall i :: 0 <= i < |serials1| ==>
         if i < |serials| then HeldBy(serials[i], lines) || HeldBy(serials1[i], lines) ==> serials1[i] == serials[i]
         else !HeldBy(serials1[i], lines)
  }

  predicate SameGoods(o: Order, o1: Order) {
    Taken(o1.events) == Taken(o.events) && BroughtBack(o1.events) == BroughtBack(o.events)
  }

  /** Moving another order's goods leaves this order's serials alone. */
  lemma OthersApart(c: Catalog, st: State, j: nat, k: nat, a: Action)
    requires ItemsUnique(st) && j < |st.orders| && k < |st.orders|
    requires j != k || (a != Sell && a != Return)
    requires ApplyAll(c, st.tables, a, st.orders[j].lines).Success?
    ensures SameHeld(st.tables.serials, ApplyAll(c, st.tables, a, st.orders[j].lines).value.serials, st.orders[k].lines)
  {
    var lines, s := st.orders[j].lines, st.tables.serials;
    var s1 := ApplyAll(c, st.tables, a, lines).value.serials;
    assert [] + lines == lines;
    ApplyAllKeepsLength(c, st.tables, a, lines);
    forall i | 0 <= i < |s|
      ensures HeldBy(s[i], st.orders[k].lines) || HeldBy(s1[i], st.orders[k].lines) ==> s1[i] == s[i]
    {
      ApplyAllHandsOver(c, st.tables, a, [], lines, i);
      if s1[i] != s[i] {
        ItemsApart(st.orders, j, k, if a == Sell then s1[i].holder.item else s[i].holder.item);
      }
    }
  }

  lemma {:induction false} ApplyAllKeepsLength(c: Catalog, s: Tables, a: Action, lines: seq<Line>)
    requires ApplyAll(c, s, a, lines).Success?
    ensures |ApplyAll(c, s, a, lines).value.serials| == |s.serials|
    decreases lines
  {
    if lines != [] {
      ApplyAllKeepsLength(c, Apply(c, s, a, lines[0]).value, a, lines[1..]);
    }
  }

  lemma TransitionHeld(cfg: Config, st: State, j: nat, to: Status, k: nat)
    requires ItemsUnique(st) && j < |st.orders| && k < |st.orders| && Transition(cfg, st, j, to).Success?
    requires SameGoods(st.orders[k], Transition(cfg, st, j, to).value.orders[k])
    ensures SameHeld(st.tables.serials, Transition(cfg, st, j, to).value.tables.serials, st.orders[k].lines)
  {
    var o := st.orders[j];
    MovedCounts(o, to);
    if to == Confirmed {
      OthersApart(cfg.catalog, st, j, k, Sell);
    } else if to == Cancelled && o.status == Pending {
      OthersApart(cfg.catalog, st, j, k, Unhold);
    } else if to == Cancelled && o.status in {Confirmed, Processing, Shipped} {
      OthersApart(cfg.catalog, st, j, k, Return);
    }
  }

  lemma UpdateStatusHeld(cfg: Config, st: State, j: nat, to: Status, k: nat)
    requires ItemsUnique(st) && k < |st.orders|
    ensures var r := UpdateStatus(cfg, st, j, to);
            r.Success? && SameGoods(st.orders[k], r.value.orders[k]) ==>
              SameHeld(st.tables.serials, r.value.tables.serials, st.orders[k].lines)
  {
    var r := UpdateStatus(cfg, st, j, to);
    if r.Success? && SameGoods(st.orders[k], r.value.orders[k]) {
      TransitionHeld(cfg, st, j, to, k);
    }
  }

  lemma RecordPaymentHeld(cfg: Config, st: State, j: nat, amount: int, how: PaymentStatus, reference: Option<string>, k: nat)
    requires ItemsUnique(st) && k < |st.orders|
    ensures var r := RecordPayment(cfg, st, j, amount, how, reference);
            r.Success? && SameGoods(st.orders[k], r.value.orders[k]) ==>
              SameHeld(st.tables.serials, r.value.tables.serials, st.orders[k].lines)
  {
    if RecordPayment(cfg, st, j, amount, how, reference).Success? {
      var o1 := st.orders[j].(payments := st.orders[j].payments + [Payment(amount, how, reference)]);
      var st1 := st.(orders := st.orders[j := o1.Logged(PaymentRecorded)]);
      Logs(o1, PaymentRecorded);
      SameLinesKeepItems(st, st1);
      UpdateStatusHeld(cfg, st1, j, Confirmed, k);
    }
  }

  lemma RefundHeld(cfg: Config, st: State, j: nat, amount: int, reason: string, reference: Option<string>,
                   restock: bool, k: nat)
    requires ItemsUnique(st) && k < |st.orders|
    ensures var r := Refund(cfg, st, j, amount, reason, reference, restock);
            r.Success? && SameGoods(st.orders[k], r.value.orders[k]) ==>
              SameHeld(st.tables.serials, r.value.tables.serials, st.orders[k].lines)
  {
    var r := Refund(cfg, st, j, amount, reason, reference, restock);
    if r.Success? && SameGoods(st.orders[k], r.value.orders[k]) && restock {
      var booked := st.orders[j].(payments := st.orders[j].payments + [Payment(amount, PaymentRefunded, reference)]);
      Logs(booked, RefundRecorded(restock));
      MovedCounts(booked.Logged(RefundRecorded(restock)), Refunded);
      OthersApart(cfg.catalog, st, j, k, Return);
    }
  }

  lemma {:induction false} HoldsKeepSerials(c: Catalog, s: Tables, a: Action, lines: seq<Line>)
    requires (a == Hold || a == Unhold) && ApplyAll(c, s, a, lines).Success?
    ensures ApplyAll(c, s, a, lines).value.serials == s.serials
    decreases lines
  {
    if lines != [] {
      HoldsKeepSerials(c, Apply(c, s, a, lines[0]).value, a, lines[1..]);
    }
  }

  lemma ClaimKeepsSerials(cfg: Config, st: State, k: nat)
    ensures ClaimPending(cfg, st, k).Success? ==> ClaimPending(cfg, st, k).value.tables.serials == st.tables.serials
  {
    if k < |st.orders| && st.orders[k].status == Pending && ClaimPending(cfg, st, k).Success? {
      HoldsKeepSerials(cfg.catalog, st.tables, Unhold, st.orders[k].lines);
    }
  }

  lemma {:induction false} SweepKeepsSerials(cfg: Config, st: State, now: int, k: nat)
    requires k <= |st.orders|
    ensures var r := ReleaseExpired(cfg, st, now, k); r.Success? ==> r.value.tables.serials == st.tables.serials
    decreases |st.orders| - k
  {
    if k < |st.orders| {
      if Expired(st.orders[k], now) && ClaimPending(cfg, st, k).Success? {
        ClaimKeepsSerials(cfg, st, k);
        SweepKeepsSerials(cfg, ClaimPending(cfg, st, k).value, now, k + 1);
      } else {
        SweepKeepsSerials(cfg, st, now, k + 1);
      }
    }
  }

  lemma MarkFailedKeepsSerials(cfg: Config, st: State, k: nat, tran: string)
    ensures MarkFailed(cfg, st, k, tran).state.tables.serials == st.tables.serials
  {
    if k < |st.orders| {
      var r := RecordPayment(cfg, st, k, st.orders[k].grandTotal, PaymentFailed, Some(tran));
      if r.Success? {
        ClaimKeepsSerials(cfg, r.value, k);
      }
    }
  }

  lemma PlaceKeepsSerials(cfg: Config, st: State, op: Op)
    requires op.OpPlace?
    ensures Step(cfg, st, op).tables.serials == st.tables.serials
  {
    if Step(cfg, st, op) != st {
      HoldsKeepSerials(cfg.catalog, st.tables, Hold, NewLines(op.requests, st.nextItem));
    }
  }

  // What an order no longer pending keeps

  /** Its lines, and its place on a timeline that only grows. */
  predicate Settled(o: Order, o1: Order) {
    && o1.status != Pending && o1.lines == o.lines
    && Taken(o.events) <= Taken(o1.events) && BroughtBack(o.events) <= BroughtBack(o1.events)
  }

  lemma ReportGrows(o: Order)
    requires o.status != Pending
    ensures Settled(o, Propagated(o))
  {
    MovedCounts(o, Delivered);
    Logs(o, Notice(FulfillmentUpdated, DeliveredAwaitingShipped));
    Logs(o, Notice(FinancialAdjustmentRequired, AllConsignmentsFailed));
    Logs(o, Notice(FinancialAdjustmentRequired, PartialFailure(FailedIds(o.parcels))));
  }

  lemma ReportSettles(o: Order, i: nat, status: ParcelStatus)
    requires o.status != Pending && i < |o.parcels|
    ensures Settled(o, Reported(o, i, status))
  {
    var moved := o.(parcels := o.parcels[i := o.parcels[i].(status := status)]);
    Logs(moved, ParcelReported(status));
    ReportGrows(moved.Logged(ParcelReported(status)));
  }

  lemma ChangeSettles(o: Order, ch: Change)
    requires o.status != Pending && Allowed(o, ch)
    ensures Settled(o, Changed(o, ch))
  {
    match ch
    case Edit(_, _, _, _) =>
    case Move(to) => MovedCounts(o, to);
    case Pay(amount, how, reference) =>
      Logs(o.(payments := o.payments + [Payment(amount, how, reference)]), PaymentRecorded);
    case PayBack(amount, reference, restock) =>
      var paidBack := o.(payments := o.payments + [Payment(amount, PaymentRefunded, reference)]);
      Logs(paidBack, RefundRecorded(restock));
      MovedCounts(paidBack.Logged(RefundRecorded(restock)), Refunded);
    case Report(i, status) => ReportSettles(o, i, status);
  }

  lemma {:induction false} LeadsSettles(o: Order, chs: seq<Change>, o1: Order, booked: bool)
    requires o.status != Pending && Leads(o, chs, o1, booked)
    ensures Settled(o, o1)
    decreases chs
  {
    if chs != [] {
      ChangeSettles(o, chs[0]);
      LeadsSettles(Changed(o, chs[0]), chs[1..], o1, booked);
    }
  }

  lemma ReachesSettles(o: Order, o1: Order, booked: bool)
    requires o.status != Pending && Reaches(o, o1, booked)
    ensures Settled(o, o1)
  {
    var chs :| Leads(o, chs, o1, booked);
    LeadsSettles(o, chs, o1, booked);
  }

  lemma CallbackHeld(cfg: Config, st: State, j: nat, tran: string, valid: bool, amount: Option<int>, k: nat)
    requires ItemsUnique(st) && k < |st.orders| && st.orders[k].status != Pending
    ensures var st1 := HandleCallback(cfg, st, j, tran, valid, amount).state;
            |st1.orders| == |st.orders| &&
            (SameGoods(st.orders[k], st1.orders[k]) ==>
              SameHeld(st.tables.serials, st1.tables.serials, st.orders[k].lines))
  {
    if j < |st.orders| {
      var o := st.orders[j];
      var booked := if amount.Some? then amount.value else o.grandTotal;
      var reported := if amount.Some? then amount.value else 0;
      var status := if valid && reported == o.grandTotal then PaymentPaid else PaymentFailed;
      var r := RecordPayment(cfg, st, j, booked, status, Some(tran));
      if r.Success? {
        RecordPaymentTravels(cfg, st, j, booked, status, Some(tran), None);
        RecordPaymentRows(cfg, st, j, booked, status, Some(tran));
        RecordPaymentHeld(cfg, st, j, booked, status, Some(tran), k);
        ReachesSettles(st.orders[k], r.value.orders[k], false);
        SameLinesKeepItems(st, r.value);
        AfterPaymentHeld(cfg, st, r.value, j, k);
      }
    }
  }

  /** The transition that follows a recorded payment. */
  lemma AfterPaymentHeld(cfg: Config, st: State, st1: State, j: nat, k: nat)
    requires k < |st.orders| == |st1.orders| && Settled(st.orders[k], st1.orders[k]) && ItemsUnique(st1)
    requires SameGoods(st.orders[k], st1.orders[k]) ==>
               SameHeld(st.tables.serials, st1.tables.serials, st.orders[k].lines)
    ensures var r := ClaimPending(cfg, st1, j);
            |Committed(st1, r).state.orders| == |st.orders| &&
            (SameGoods(st.orders[k], Committed(st1, r).state.orders[k]) ==>
              SameHeld(st.tables.serials, Committed(st1, r).state.tables.serials, st.orders[k].lines))
    ensures var r := UpdateStatus(cfg, st1, j, Confirmed);
            |Committed(st1, r).state.orders| == |st.orders| &&
            (SameGoods(st.orders[k], Committed(st1, r).state.orders[k]) ==>
              SameHeld(st.tables.serials, Committed(st1, r).state.tables.serials, st.orders[k].lines))
  {
    ClaimKeepsSerials(cfg, st1, j);
    ClaimTravels(cfg, st1, j, None);
    UpdateStatusHeld(cfg, st1, j, Confirmed, k);
    UpdateStatusTravels(cfg, st1, j, Confirmed, None);
    if ClaimPending(cfg, st1, j).Success? {
      ReachesSettles(st1.orders[k], ClaimPending(cfg, st1, j).value.orders[k], false);
    }
    if UpdateStatus(cfg, st1, j, Confirmed).Success? {
      ReachesSettles(st1.orders[k], UpdateStatus(cfg, st1, j, Confirmed).value.orders[k], false);
    }
  }

  /** A call that leaves an order's goods where they are leaves its serials where they are. */
  lemma StepHeld(cfg: Config, st: State, op: Op, k: nat)
    requires ItemsUnique(st) && k < |st.orders| && st.orders[k].status != Pending
    ensures var st1 := Step(cfg, st, op);
            && k < |st1.orders| && Settled(st.orders[k], st1.orders[k])
            && (SameGoods(st.orders[k], st1.orders[k]) ==>
                 SameHeld(st.tables.serials, st1.tables.serials, st.orders[k].lines))
  {
    StepTravels(cfg, st, op);
    ReachesSettles(st.orders[k], Step(cfg, st, op).orders[k], BookedAt(op) == Some(k));
    if op.OpHandleCallback? {
      CallbackHeld(cfg, st, op.k, op.tran, op.valid, op.received, k);
    } else if op.OpUpdateStatus? {
      UpdateStatusHeld(cfg, st, op.k, op.status, k);
    } else if op.OpRefund? {
      RefundHeld(cfg, st, op.k, op.amount, op.reason, op.reference, op.restock, k);
    } else if op.OpRecordPayment? || op.OpRecordCodCollection? {
      PaymentStepHeld(cfg, st, op, k);
    } else {
      QuietSerials(cfg, st, op);
    }
  }

  lemma PaymentStepHeld(cfg: Config, st: State, op: Op, k: nat)
    requires ItemsUnique(st) && k < |st.orders| && st.orders[k].status != Pending
    requires op.OpRecordPayment? || op.OpRecordCodCollection?
    ensures var st1 := Step(cfg, st, op);
            k < |st1.orders| ==> SameGoods(st.orders[k], st1.orders[k]) ==>
                 SameHeld(st.tables.serials, st1.tables.serials, st.orders[k].lines)
  {
    match op
    case OpRecordPayment(j, amount, how, reference) => RecordPaymentHeld(cfg, st, j, amount, how, reference, k);
    case OpRecordCodCollection(parcel, amount) =>
      RecordPaymentHeld(cfg, st, OrderOfParcel(st.orders, parcel), amount, PaymentPaid, CodReference(parcel), k);
  }

  lemma EditsKeepSerials(cfg: Config, st: State, op: Op)
    requires op.OpAddItem? || op.OpUpdateItemQuantity? || op.OpRemoveItem? || op.OpChangeItemVariant?
          || op.OpAdjustItemUnitPrice? || op.OpApplyOrderDiscount? || op.OpUpdateShipping?
    ensures Step(cfg, st, op).tables.serials == st.tables.serials
  {
  }

  /** The other calls change no serial; receiving one appends it. */
  lemma QuietSerials(cfg: Config, st: State, op: Op)
    requires !op.OpUpdateStatus? && !op.OpRecordPayment? && !op.OpRecordCodCollection? && !op.OpRefund?
    requires !op.OpHandleCallback?
    ensures Step(cfg, st, op).tables.serials
         == st.tables.serials + (if op.OpReceiveSerial? then [Serial(op.variant, Available)] else [])
  {
    match op
    case OpPlace(_, _, _, _, _, _) => PlaceKeepsSerials(cfg, st, op);
    case OpClaimPending(k) => ClaimKeepsSerials(cfg, st, k);
    case OpReleaseExpired(now) => SweepKeepsSerials(cfg, st, now, 0);
    case OpMarkFailed(k, tran) => MarkFailedKeepsSerials(cfg, st, k, tran);
    case OpUpdateFulfillment(_, _) =>
    case OpRestock(_, _) =>
    case OpAdjust(_, _) =>
    case OpReceiveSerial(_) =>
    case _ => EditsKeepSerials(cfg, st, op);
  }

  /** Over a run that leaves an order's goods with it, the order keeps the very same serials. */
  lemma {:induction false} RunHeld(cfg: Config, st: State, ops: seq<Op>, k: nat)
    requires ItemsUnique(st) && k < |st.orders| && st.orders[k].status != Pending
    ensures var end := Run(cfg, st, ops);
            && k < |end.orders| && Settled(st.orders[k], end.orders[k])
            && (SameGoods(st.orders[k], end.orders[k]) ==>
                 SameHeld(st.tables.serials, end.tables.serials, st.orders[k].lines))
    decreases ops
  {
    if ops != [] {
      var st1 := Step(cfg, st, ops[0]);
      StepHeld(cfg, st, ops[0], k);
      StepKeepsItems(cfg, st, ops[0]);
      RunHeld(cfg, st1, ops[1..], k);
    }
  }

  // A cancellation hands back what the confirmation took

  /** Before and after it has the goods, no serial of a serialized variant is with the order. */
  lemma NothingHeld(c: Catalog, st: State, k: nat, i: nat)
    requires Counted(c, {}, st) && ItemsUnique(st) && k < |st.orders| && !InPhase(st.orders[k], Keeping)
    requires i < |st.tables.serials|
    ensures !HoldsFor(c, st.orders[k].lines, st.tables.serials[i])
  {
    var s, lines := st.tables.serials[i], st.orders[k].lines;
    if HoldsFor(c, lines, s) {
      var m := SerialsOf(s.variant, s.holder.item);
      assert m.Runs(c, {}) && m.Read(st.tables) == Total(c, st.orders, Keeping, m.Gauge());
      var without := st.orders[k].(lines := []);
      ItemUsesReplace(st.orders, k, without, s.holder.item);
      NoUsesNoTotal(c, st.orders[k := without], Keeping, s.variant, s.holder.item);
      TotalReplace(c, st.orders, k, without, Keeping, m.Gauge());
      CountUpdate(st.tables.serials, i, Serial(s.variant, Available), s.variant, s.holder);
    }
  }

  /** What selling and returning the lines of an order do to a serial. */
  lemma LinesHandOver(c: Catalog, s: Tables, a: Action, lines: seq<Line>, i: nat)
    requires ApplyAll(c, s, a, lines).Success? && i < |s.serials|
    ensures var s1 := ApplyAll(c, s, a, lines).value.serials;
            |s1| == |s.serials| && HandsOver(c, a, lines, s.serials[i], s1[i])
  {
    assert [] + lines == lines;
    ApplyAllHandsOver(c, s, a, [], lines, i);
  }

  /** The serial changed hands between the two states. */
  predicate Took(st: State, st1: State, i: nat) {
    i < |st.tables.serials| <= |st1.tables.serials| && st1.tables.serials[i] != st.tables.serials[i]
  }

  /** From `st2` to `st3` exactly the serials taken from `st` to `st1` change hands, and are as they were in `st`. */
  predicate HandedBack(st: State, st1: State, st2: State, st3: State, i: nat)
    requires i < |st2.tables.serials|
  {
    && |st3.tables.serials| == |st2.tables.serials|
    && (st3.tables.serials[i] != st2.tables.serials[i] <==> Took(st, st1, i))
    && (Took(st, st1, i) ==> st3.tables.serials[i] == st.tables.serials[i])
  }

  /** What holds after a confirmation, however the run went on. */
  lemma AfterConfirmation(cfg: Config, st: State, k: nat, ops: seq<Op>)
    requires Counted(cfg.catalog, {}, st) && ItemsUnique(st) && UpdateStatus(cfg, st, k, Confirmed).Success?
    ensures var st1 := UpdateStatus(cfg, st, k, Confirmed).value; var st2 := Run(cfg, st1, ops);
            && Counted(cfg.catalog, {}, st2) && ItemsUnique(st2)
            && k < |st1.orders| && k < |st2.orders|
            && st2.orders[k].status != Pending && st2.orders[k].lines == st.orders[k].lines
            && Taken(st1.orders[k].events) == 1 && BroughtBack(st1.orders[k].events) == 0
            && (SameGoods(st1.orders[k], st2.orders[k]) ==>
                  SameHeld(st1.tables.serials, st2.tables.serials, st.orders[k].lines))
  {
    var st1 := UpdateStatus(cfg, st, k, Confirmed).value;
    UpdateStatusCounts(cfg, {}, st, k, Confirmed);
    UpdateStatusRows(cfg, st, k, Confirmed);
    SameLinesKeepItems(st, st1);
    NothingAsked(cfg, st1, ops);
    RunCounts(cfg, {}, st1, ops);
    RunKeepsItems(cfg, st1, ops);
    RunHeld(cfg, st1, ops, k);
    assert GoodsLogged(st1.orders[k]);
  }

  /** The two ends of that run side by side. */
  lemma EndsMatch(cfg: Config, st: State, st1: State, st2: State, st3: State, k: nat, i: nat)
    requires Counted(cfg.catalog, {}, st) && ItemsUnique(st) && UpdateStatus(cfg, st, k, Confirmed) == Success(st1)
    requires SameHeld(st1.tables.serials, st2.tables.serials, st.orders[k].lines) && i < |st2.tables.serials|
    requires ApplyAll(cfg.catalog, st2.tables, Return, st.orders[k].lines) == Success(st3.tables)
    requires Counted(cfg.catalog, {}, st3) && ItemsUnique(st3) && k < |st3.orders|
    requires st3.orders[k].lines == st.orders[k].lines && !InPhase(st3.orders[k], Keeping)
    ensures HandedBack(st, st1, st2, st3, i)
  {
    var c, lines := cfg.catalog, st.orders[k].lines;
    LinesHandOver(c, st2.tables, Return, lines, i);
    NothingHeld(c, st3, k, i);
    ApplyAllKeepsLength(c, st.tables, Sell, lines);
    if i < |st.tables.serials| {
      LinesHandOver(c, st.tables, Sell, lines, i);
      assert GoodsLogged(st.orders[k]);
      NothingHeld(c, st, k, i);
    }
  }

  /**
   However the run between them went: a serial changes hands when an order is cancelled if and
   only if it changed hands when that order was confirmed, and it is handed back as it was.
   */
  lemma CancelReturnsWhatConfirmTook(cfg: Config, st: State, k: nat, ops: seq<Op>, i: nat)
    requires Counted(cfg.catalog, {}, st) && ItemsUnique(st) && UpdateStatus(cfg, st, k, Confirmed).Success?
    requires var st1 := UpdateStatus(cfg, st, k, Confirmed).value;
             UpdateStatus(cfg, Run(cfg, st1, ops), k, Cancelled).Success?
             && i < |Run(cfg, st1, ops).tables.serials|
    ensures var st1 := UpdateStatus(cfg, st, k, Confirmed).value;
            var st2 := Run(cfg, st1, ops);
            HandedBack(st, st1, st2, UpdateStatus(cfg, st2, k, Cancelled).value, i)
  {
    var st1 := UpdateStatus(cfg, st, k, Confirmed).value;
    var st2 := Run(cfg, st1, ops);
    var st3 := UpdateStatus(cfg, st2, k, Cancelled).value;
    AfterConfirmation(cfg, st, k, ops);
    assert GoodsLogged(st2.orders[k]);
    UpdateStatusCounts(cfg, {}, st2, k, Cancelled);
    UpdateStatusRows(cfg, st2, k, Cancelled);
    SameLinesKeepItems(st2, st3);
    assert GoodsLogged(st3.orders[k]);
    EndsMatch(cfg, st, st1, st2, st3, k, i);
  }

  /** And so it is when an order is refunded with its goods. */
  lemma RefundReturnsWhatConfirmTook(cfg: Config, st: State, k: nat, ops: seq<Op>, amount: int, reason: string,
                                     reference: Option<string>, i: nat)
    requires Counted(cfg.catalog, {}, st) && ItemsUnique(st) && UpdateStatus(cfg, st, k, Confirmed).Success?
    requires var st2 := Run(cfg, UpdateStatus(cfg, st, k, Confirmed).value, ops);
             Refund(cfg, st2, k, amount, reason, reference, true).Success? && i < |st2.tables.serials|
    ensures var st1 := UpdateStatus(cfg, st, k, Confirmed).value;
            var st2 := Run(cfg, st1, ops);
            HandedBack(st, st1, st2, Refund(cfg, st2, k, amount, reason, reference, true).value, i)
  {
    var st1 := UpdateStatus(cfg, st, k, Confirmed).value;
    var st2 := Run(cfg, st1, ops);
    var st3 := Refund(cfg, st2, k, amount, reason, reference, true).value;
    AfterConfirmation(cfg, st, k, ops);
    assert GoodsLogged(st2.orders[k]);
    RefundCounts(cfg, {}, st2, k, amount, reason, reference, true);
    RefundRows(cfg, st2, k, amount, reason, reference, true);
    SameLinesKeepItems(st2, st3);
    RestockingRefund(cfg, st2, k, amount, reason, reference);
    RestockedOrder(st2.orders[k], Payment(amount, PaymentRefunded, reference));
    EndsMatch(cfg, st, st1, st2, st3, k, i);
  }

  /** A refund with its goods leaves a delivered order without them. */
  lemma RestockedOrder(o: Order, p: Payment)
    requires GoodsLogged(o) && o.status == Delivered
    ensures !InPhase(o.(payments := o.payments + [p]).Logged(RefundRecorded(true)).Moved(Refunded), Keeping)
  {
    var booked := o.(payments := o.payments + [p]);
    Logs(booked, RefundRecorded(true));
    MovedCounts(booked.Logged(RefundRecorded(true)), Refunded);
  }
}
