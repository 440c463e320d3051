/** When the shortage exceptions inside committing and returning stock can be reached, and what ends in them. */
module Shortages {
  import opened Outcomes
  import opened Inventory
  import opened Orders
  import opened Engine
  import opened Meters
  import opened Counters
  import opened Rows
  import opened StockLedger
  import opened Timeline
  import Text

  // Selling: only serials can run short, for a counted row is clamped

  predicate InSerials(c: Catalog, l: Line) {
    Counts(c, l) && c[l.variant].tracking == Serialized
  }

  /** Of every serialized variant there are as many available serials as the lines ask for together. */
  predicate Serves(c: Catalog, s: Tables, lines: seq<Line>) {
    forall v: nat :: v in c && c[v].tracking == Serialized ==>
      Units(c, lines, OfUnits(v)) <= 1000 * Count(s.serials, v, Available)
  }

  lemma SellSucceedsIff(c: Catalog, s: Tables, l: Line)
    requires Counts(c, l) ==> l.variant in s.stock
    ensures var r := Apply(c, s, Sell, l);
            && (r.Success? <==> (InSerials(c, l) ==> WholeUnits(l.quantity) <= Count(s.serials, l.variant, Available)))
            && (r.Failure? ==> r.error == InsufficientStock)
  {
    if InSerials(c, l) {
      ReassignMoves(s, l.variant, Available, Sold(l.item), WholeUnits(l.quantity), 0, Available);
    }
  }

  /** A sale takes its own units off the serials available. */
  lemma SaleTakes(c: Catalog, s: Tables, l: Line, v: nat)
    requires Apply(c, s, Sell, l).Success? && v in c && c[v].tracking == Serialized
    ensures 1000 * Count(Apply(c, s, Sell, l).value.serials, v, Available)
         == 1000 * Count(s.serials, v, Available) - Share(c, OfUnits(v), l)
  {
    if InSerials(c, l) {
      ReassignMoves(s, l.variant, Available, Sold(l.item), WholeUnits(l.quantity), v, Available);
    }
  }

  lemma ServesRest(c: Catalog, s: Tables, lines: seq<Line>)
    requires lines != [] && Apply(c, s, Sell, lines[0]).Success?
    ensures Serves(c, s, lines) <==> Serves(c, Apply(c, s, Sell, lines[0]).value, lines[1..])
  {
    var s1 := Apply(c, s, Sell, lines[0]).value;
    forall v: nat | v in c && c[v].tracking == Serialized
      ensures Units(c, lines, OfUnits(v)) <= 1000 * Count(s.serials, v, Available)
          <==> Units(c, lines[1..], OfUnits(v)) <= 1000 * Count(s1.serials, v, Available)
    {
      SaleTakes(c, s, lines[0], v);
    }
  }

  /** The lines can be sold if and only if their serials are there, and nothing else goes wrong. */
  lemma {:induction false} SellAllSucceedsIff(c: Catalog, s: Tables, lines: seq<Line>)
    requires LinesRowed(c, s, lines)
    ensures var r := ApplyAll(c, s, Sell, lines);
            && (r.Success? <==> Serves(c, s, lines))
            && (r.Failure? ==> r.error == InsufficientStock)
    decreases lines
  {
    if lines != [] {
      var l := lines[0];
      assert Counts(c, l) ==> l.variant in s.stock;
      SellSucceedsIff(c, s, l);
      if Apply(c, s, Sell, l).Success? {
        var s1 := Apply(c, s, Sell, l).value;
        AppliesToRow(c, s, Sell, l);
        forall i | 0 <= i < |lines[1..]| && Counts(c, lines[1..][i]) ensures lines[1..][i].variant in s1.stock {
          assert Counts(c, lines[i + 1]);
        }
        ServesRest(c, s, lines);
        SellAllSucceedsIff(c, s1, lines[1..]);
      } else {
        assert Units(c, lines, OfUnits(l.variant)) >= 1000 * WholeUnits(l.quantity);
      }
    }
  }

  lemma {:induction false} UnholdAllSucceeds(c: Catalog, s: Tables, lines: seq<Line>)
    requires LinesRowed(c, s, lines)
    ensures ApplyAll(c, s, Unhold, lines).Success?
    decreases lines
  {
    if lines != [] {
      assert Counts(c, lines[0]) ==> lines[0].variant in s.stock;
      var s1 := Apply(c, s, Unhold, lines[0]).value;
      forall i | 0 <= i < |lines[1..]| && Counts(c, lines[1..][i]) ensures lines[1..][i].variant in s1.stock {
        assert Counts(c, lines[i + 1]);
      }
      UnholdAllSucceeds(c, s1, lines[1..]);
    }
  }

  /** Every line's serials are on file as sold to it. */
  predicate Attributed(c: Catalog, s: Tables, lines: seq<Line>) {
    forall i :: 0 <= i < |lines| && Counts(c, lines[i]) && c[lines[i].variant].tracking == Serialized ==>
      var m := SerialsOf(lines[i].variant, lines[i].item); Units(c, lines, m.Gauge()) <= m.Read(s)
  }

  lemma {:induction false} ReturnAllSucceeds(c: Catalog, s: Tables, lines: seq<Line>)
    requires LinesRowed(c, s, lines) && Attributed(c, s, lines)
    ensures ApplyAll(c, s, Return, lines).Success?
    decreases lines
  {
    if lines != [] {
      var l, rest := lines[0], lines[1..];
      if Counts(c, l) {
        var m := SerialsOf(l.variant, l.item);
        assert c[l.variant].tracking == Serialized ==> Units(c, lines, m.Gauge()) <= m.Read(s);
        ReassignMoves(s, l.variant, Sold(l.item), Available, WholeUnits(l.quantity), 0, Available);
      }
      var s1 := Apply(c, s, Return, l).value;
      AppliesToRow(c, s, Return, l);
      forall i | 0 <= i < |rest| && Counts(c, rest[i]) && c[rest[i].variant].tracking == Serialized
        ensures var m := SerialsOf(rest[i].variant, rest[i].item); Units(c, rest, m.Gauge()) <= m.Read(s1)
      {
        var m := SerialsOf(rest[i].variant, rest[i].item);
        assert Counts(c, lines[i + 1]) && Units(c, lines, m.Gauge()) <= m.Read(s);
        ApplySerials(c, s, Return, l, rest[i].variant, rest[i].item);
      }
      forall i | 0 <= i < |rest| && Counts(c, rest[i]) ensures rest[i].variant in s1.stock {
        assert Counts(c, lines[i + 1]);
      }
      ReturnAllSucceeds(c, s1, rest);
    }
  }

  /** In a state whose counters are exact, the goods an order took can always be taken back. */
  lemma GoodsCanReturn(c: Catalog, st: State, k: nat)
    requires Counted(c, {}, st) && Rowed(c, st) && k < |st.orders| && InPhase(st.orders[k], Keeping)
    ensures ApplyAll(c, st.tables, Return, st.orders[k].lines).Success?
  {
    var lines := st.orders[k].lines;
    forall i | 0 <= i < |lines| && Counts(c, lines[i]) && c[lines[i].variant].tracking == Serialized
      ensures var m := SerialsOf(lines[i].variant, lines[i].item); Units(c, lines, m.Gauge()) <= m.Read(st.tables)
    {
      var m := SerialsOf(lines[i].variant, lines[i].item);
      assert m.Runs(c, {}) && m.Read(st.tables) == Total(c, st.orders, Keeping, m.Gauge());
      TotalReplace(c, st.orders, k, st.orders[k], Keeping, m.Gauge());
    }
    assert LinesRowed(c, st.tables, lines);
    ReturnAllSucceeds(c, st.tables, lines);
  }

  // Confirming

  /** The serials for the order's lines are there. */
  predicate Servable(cfg: Config, st: State, k: nat)
    requires k < |st.orders|
  {
    Serves(cfg.catalog, st.tables, st.orders[k].lines)
  }

  lemma GoodsCanLeaveIff(cfg: Config, st: State, ops: seq<Op>, k: nat)
    requires Fresh(st) && k < |Run(cfg, st, ops).orders|
    ensures var end := Run(cfg, st, ops);
            var r := ApplyAll(cfg.catalog, end.tables, Sell, end.orders[k].lines);
            && (r.Success? <==> Servable(cfg, end, k))
            && (r.Failure? ==> r.error == InsufficientStock)
  {
    var end := Run(cfg, st, ops);
    RunRows(cfg, st, ops);
    assert LinesRowed(cfg.catalog, end.tables, end.orders[k].lines);
    SellAllSucceedsIff(cfg.catalog, end.tables, end.orders[k].lines);
  }

  /** In every reachable state a pending order can be confirmed if and only if its serials are there. */
  lemma ConfirmSucceedsIff(cfg: Config, st: State, ops: seq<Op>, k: nat)
    requires Fresh(st)
    requires var orders := Run(cfg, st, ops).orders; k < |orders| && orders[k].status == Pending
    ensures var end := Run(cfg, st, ops);
            var r := UpdateStatus(cfg, end, k, Confirmed);
            && (r.Success? <==> Servable(cfg, end, k))
            && (r.Failure? ==> r.error == InsufficientStock)
  {
    GoodsCanLeaveIff(cfg, st, ops, k);
  }

  /** While the order is pending, its serialized variants deny backorders and were ordered in whole units. */
  predicate Promised(cfg: Config, st: State, ops: seq<Op>, k: nat) {
    var orders := Run(cfg, st, ops).orders;
    k < |orders| && orders[k].status == Pending ==>
      forall i :: 0 <= i < |orders[k].lines| && InSerials(cfg.catalog, orders[k].lines[i]) ==>
        var v := orders[k].lines[i].variant; Denied(cfg.catalog, v) && WholeRun(cfg, st, ops, {v})
  }

  lemma {:induction false} NoSerialsNoUnits(c: Catalog, lines: seq<Line>, v: nat)
    requires forall i :: 0 <= i < |lines| && InSerials(c, lines[i]) ==> lines[i].variant != v
    requires v in c && c[v].tracking == Serialized
    ensures Units(c, lines, OfUnits(v)) == 0
  {
    if lines != [] {
      forall i | 0 <= i < |lines[1..]| && InSerials(c, lines[1..][i]) ensures lines[1..][i].variant != v {
        assert lines[1..][i] == lines[i + 1];
      }
      NoSerialsNoUnits(c, lines[1..], v);
    }
  }

  /** What was reserved of such a variant is there in serials. */
  lemma ReservedIsServed(cfg: Config, st: State, ops: seq<Op>, k: nat, v: nat)
    requires Fresh(st) && Denied(cfg.catalog, v) && cfg.catalog[v].tracking == Serialized && WholeRun(cfg, st, ops, {v})
    requires var end := Run(cfg, st, ops);
             k < |end.orders| && end.orders[k].status == Pending && v in end.tables.stock
    ensures var end := Run(cfg, st, ops);
            Units(cfg.catalog, end.orders[k].lines, OfUnits(v)) <= 1000 * Count(end.tables.serials, v, Available)
  {
    var end, c := Run(cfg, st, ops), cfg.catalog;
    UnguardedRunsAreCareful(cfg, st, ops, v);
    RunSound(cfg, {v}, st, ops, v);
    ReservedCovers(c, {v}, end, k, v);
    assert WholeLines(c, {v}, end.orders[k].lines);
    UnitsAreWhole(c, end.orders[k].lines, v);
  }

  lemma PromisedAreServable(cfg: Config, st: State, ops: seq<Op>, k: nat)
    requires Fresh(st) && Promised(cfg, st, ops, k)
    requires var orders := Run(cfg, st, ops).orders; k < |orders| && orders[k].status == Pending
    ensures Servable(cfg, Run(cfg, st, ops), k)
  {
    var end, c := Run(cfg, st, ops), cfg.catalog;
    var lines := end.orders[k].lines;
    RunRows(cfg, st, ops);
    assert LinesRowed(c, end.tables, lines);
    forall v: nat | v in c && c[v].tracking == Serialized
      ensures Units(c, lines, OfUnits(v)) <= 1000 * Count(end.tables.serials, v, Available)
    {
      if i :| 0 <= i < |lines| && InSerials(c, lines[i]) && lines[i].variant == v {
        ReservedIsServed(cfg, st, ops, k, v);
      } else {
        NoSerialsNoUnits(c, lines, v);
      }
    }
  }

  /**
   A pending order whose serialized variants deny backorders can be confirmed in every state reached
   by runs that order those in whole units, whatever its other lines: nothing runs short.
   */
  lemma ConfirmNeverRunsShort(cfg: Config, st: State, ops: seq<Op>, k: nat)
    requires Fresh(st) && Promised(cfg, st, ops, k)
    requires var orders := Run(cfg, st, ops).orders; k < |orders| && orders[k].status == Pending
    ensures UpdateStatus(cfg, Run(cfg, st, ops), k, Confirmed).Success?
  {
    PromisedAreServable(cfg, st, ops, k);
    ConfirmSucceedsIff(cfg, st, ops, k);
  }

  // Payments and refunds, which move goods on the way

  predicate PaymentAccepted(st: State, k: nat, amount: int, how: PaymentStatus, reference: Option<string>) {
    && k < |st.orders| && amount > 0 && st.orders[k].status != Cancelled && !HasReference(st.orders, reference)
    && (how == PaymentPaid ==> amount <= st.orders[k].grandTotal - st.orders[k].AmountPaid())
  }

  predicate AutoConfirms(cfg: Config, o: Order, amount: int, how: PaymentStatus) {
    how == PaymentPaid && o.status == Pending && cfg.autoConfirm && o.AmountPaid() + amount >= o.grandTotal
  }

  /**
   In every reachable state recording a payment succeeds if and only if its own guards hold and,
   when it confirms the order on the way, the serials are there.
   */
  lemma PaymentSucceedsIff(cfg: Config, st: State, ops: seq<Op>, k: nat, amount: int, how: PaymentStatus,
                           reference: Option<string>)
    requires Fresh(st)
    ensures var end := Run(cfg, st, ops);
            var r := RecordPayment(cfg, end, k, amount, how, reference);
            var accepted := PaymentAccepted(end, k, amount, how, reference);
            && (r.Success? <==> accepted && (AutoConfirms(cfg, end.orders[k], amount, how) ==> Servable(cfg, end, k)))
            && (r.Failure? ==> r.error in {NotFound, InvalidState, DuplicateReference, InsufficientStock})
            && (r == Failure(InsufficientStock) <==> r.Failure? && accepted)
            && (r.Success? ==>
                  && k < |r.value.orders|
                  && var confirms := AutoConfirms(cfg, end.orders[k], amount, how);
                     r.value.orders[k].status == if confirms then Confirmed else end.orders[k].status)
  {
    var end := Run(cfg, st, ops);
    if PaymentAccepted(end, k, amount, how, reference) {
      GoodsCanLeaveIff(cfg, st, ops, k);
    }
  }

  predicate RefundAccepted(st: State, k: nat, amount: int, reason: string, reference: Option<string>, restock: bool) {
    && Text.Trim(reason) != "" && k < |st.orders| && !HasReference(st.orders, reference)
    && var o := st.orders[k];
       && 0 < amount <= o.AmountPaid() - o.AmountRefunded()
       && (restock ==> o.status == Delivered && amount == o.AmountPaid() - o.AmountRefunded())
  }

  /** A refund is refused by its own guards only: taking the goods back never runs short. */
  lemma RefundSucceedsIff(cfg: Config, st: State, ops: seq<Op>, k: nat, amount: int, reason: string,
                          reference: Option<string>, restock: bool)
    requires Fresh(st)
    ensures Refund(cfg, Run(cfg, st, ops), k, amount, reason, reference, restock).Success?
        <==> RefundAccepted(Run(cfg, st, ops), k, amount, reason, reference, restock)
  {
    var end := Run(cfg, st, ops);
    NothingAsked(cfg, st, ops);
    RunCounts(cfg, {}, st, ops);
    RunRows(cfg, st, ops);
    if RefundAccepted(end, k, amount, reason, reference, restock) && restock {
      assert GoodsLogged(end.orders[k]);
      GoodsCanReturn(cfg.catalog, end, k);
    }
  }

  /** Whatever the policies, an order that may be cancelled can be, in every reachable state. */
  lemma CancelNeverFails(cfg: Config, st: State, ops: seq<Op>, k: nat)
    requires Fresh(st) && k < |Run(cfg, st, ops).orders|
    ensures var end := Run(cfg, st, ops);
            UpdateStatus(cfg, end, k, Cancelled).Success? <==> Cancelled in end.orders[k].status.AllowedNext()
  {
    var end, c := Run(cfg, st, ops), cfg.catalog;
    NothingAsked(cfg, st, ops);
    RunCounts(cfg, {}, st, ops);
    RunRows(cfg, st, ops);
    if Cancelled in end.orders[k].status.AllowedNext() {
      CancelSucceeds(cfg, end, k);
    }
  }

  lemma CancelSucceeds(cfg: Config, st: State, k: nat)
    requires Counted(cfg.catalog, {}, st) && Rowed(cfg.catalog, st) && k < |st.orders|
    requires Cancelled in st.orders[k].status.AllowedNext()
    ensures UpdateStatus(cfg, st, k, Cancelled).Success?
  {
    var lines := st.orders[k].lines;
    assert GoodsLogged(st.orders[k]) && LinesRowed(cfg.catalog, st.tables, lines);
    if st.orders[k].status == Pending {
      UnholdAllSucceeds(cfg.catalog, st.tables, lines);
    } else {
      GoodsCanReturn(cfg.catalog, st, k);
    }
  }

  // Gateway callbacks

  lemma ClaimSucceeds(cfg: Config, st: State, k: nat)
    requires Counted(cfg.catalog, {}, st) && Rowed(cfg.catalog, st)
    ensures ClaimPending(cfg, st, k).Success?
  {
    if k < |st.orders| && st.orders[k].status == Pending {
      CancelSucceeds(cfg, st, k);
    }
  }

  lemma FailedPaymentClaims(cfg: Config, st: State, k: nat, amount: int, tran: string)
    requires Counted(cfg.catalog, {}, st) && Rowed(cfg.catalog, st)
    ensures var r := RecordPayment(cfg, st, k, amount, PaymentFailed, Some(tran));
            r.Success? ==> ClaimPending(cfg, r.value, k).Success?
  {
    var r := RecordPayment(cfg, st, k, amount, PaymentFailed, Some(tran));
    if r.Success? {
      RecordPaymentCounts(cfg, {}, st, k, amount, PaymentFailed, Some(tran));
      RecordPaymentRows(cfg, st, k, amount, PaymentFailed, Some(tran));
      ClaimSucceeds(cfg, r.value, k);
    }
  }

  /** A failed payment never throws. */
  lemma MarkFailedNeverThrows(cfg: Config, st: State, ops: seq<Op>, k: nat, tran: string)
    requires Fresh(st)
    ensures MarkFailed(cfg, Run(cfg, st, ops), k, tran).thrown == None
  {
    var end := Run(cfg, st, ops);
    NothingAsked(cfg, st, ops);
    RunCounts(cfg, {}, st, ops);
    RunRows(cfg, st, ops);
    if k < |end.orders| {
      FailedPaymentClaims(cfg, end, k, end.orders[k].grandTotal, tran);
    }
  }

  /** The gateway reports the whole amount of an order still pending, and nothing was paid before. */
  predicate PaysInFull(st: State, k: nat, tran: string, valid: bool, received: Option<int>) {
    && k < |st.orders| && st.orders[k].status == Pending && !HasReference(st.orders, Some(tran))
    && valid && received == Some(st.orders[k].grandTotal) && st.orders[k].grandTotal > 0
    && st.orders[k].AmountPaid() == 0
  }

  /** A full payment on a pending order: what the callback ends in, with and without automatic confirmation. */
  lemma FullPaymentEnds(cfg: Config, st: State, ops: seq<Op>, k: nat, tran: string, valid: bool, received: Option<int>)
    requires Fresh(st) && PaysInFull(Run(cfg, st, ops), k, tran, valid, received)
    ensures var end := Run(cfg, st, ops);
            var d := HandleCallback(cfg, end, k, tran, valid, received);
            if Servable(cfg, end, k)
            then k < |d.state.orders| && d.state.orders[k].status == Confirmed
                 && d.thrown == if cfg.autoConfirm then Some(InvalidTransition) else None
            else && d.thrown == Some(InsufficientStock)
                 && (cfg.autoConfirm ==> d.state == end)
                 && (!cfg.autoConfirm ==>
                       && k < |d.state.orders| && d.state.orders[k].status == Pending
                       && d.state.orders[k].payments
                            == end.orders[k].payments + [Payment(end.orders[k].grandTotal, PaymentPaid, Some(tran))])
  {
    var end := Run(cfg, st, ops);
    GoodsCanLeaveIff(cfg, st, ops, k);
    PaymentSucceedsIff(cfg, st, ops, k, end.orders[k].grandTotal, PaymentPaid, Some(tran));
  }

  /** Every other callback throws nothing: refused payments are swallowed, failed ones cancel. */
  lemma OthersThrowNothing(cfg: Config, st: State, ops: seq<Op>, k: nat, tran: string, valid: bool, received: Option<int>)
    requires Fresh(st) && !PaysInFull(Run(cfg, st, ops), k, tran, valid, received)
    ensures HandleCallback(cfg, Run(cfg, st, ops), k, tran, valid, received).thrown == None
  {
    var end := Run(cfg, st, ops);
    NothingAsked(cfg, st, ops);
    RunCounts(cfg, {}, st, ops);
    RunRows(cfg, st, ops);
    OrdersStaySound(cfg, st, ops);
    if k < |end.orders| && !HasReference(end.orders, Some(tran)) {
      var o := end.orders[k];
      var reported := if received.Some? then received.value else 0;
      var booked := if received.Some? then received.value else o.grandTotal;
      assert TotalsSound(o);
      if valid && reported == o.grandTotal {
        PaymentSucceedsIff(cfg, st, ops, k, booked, PaymentPaid, Some(tran));
      } else {
        PaymentSucceedsIff(cfg, st, ops, k, booked, PaymentFailed, Some(tran));
        FailedPaymentClaims(cfg, end, k, booked, tran);
      }
    }
  }

  /**
   In every reachable state a callback throws if and only if it pays a pending order in full and
   either orders are confirmed automatically, so that the payment has already confirmed the order
   when the callback confirms it again, or the serials are not there. Without automatic confirmation
   the order then stays pending with the payment on file.
   */
  lemma CallbackThrowsIff(cfg: Config, st: State, ops: seq<Op>, k: nat, tran: string, valid: bool, received: Option<int>)
    requires Fresh(st)
    ensures var end := Run(cfg, st, ops);
            var d := HandleCallback(cfg, end, k, tran, valid, received);
            && (d.thrown.Some? <==>
                  PaysInFull(end, k, tran, valid, received) && (cfg.autoConfirm || !Servable(cfg, end, k)))
            && (d.thrown.Some? ==>
                  if Servable(cfg, end, k)
                  then d.thrown == Some(InvalidTransition) && k < |d.state.orders| && d.state.orders[k].status == Confirmed
                  else d.thrown == Some(InsufficientStock) &&
                       if cfg.autoConfirm then d.state == end
                       else && k < |d.state.orders| && d.state.orders[k].status == Pending
                            && d.state.orders[k].AmountPaid() == d.state.orders[k].grandTotal
                            && HasReference(d.state.orders, Some(tran)))
  {
    var end := Run(cfg, st, ops);
    if PaysInFull(end, k, tran, valid, received) {
      FullPaymentEnds(cfg, st, ops, k, tran, valid, received);
      if !cfg.autoConfirm && !Servable(cfg, end, k) {
        PaidButPending(cfg, end, k, tran, valid, received);
      }
    } else {
      OthersThrowNothing(cfg, st, ops, k, tran, valid, received);
    }
  }

  lemma PaidButPending(cfg: Config, st: State, k: nat, tran: string, valid: bool, received: Option<int>)
    requires PaysInFull(st, k, tran, valid, received)
    requires var o1 := HandleCallback(cfg, st, k, tran, valid, received).state.orders;
             k < |o1| && o1[k].status == Pending
             && o1[k].payments == st.orders[k].payments + [Payment(st.orders[k].grandTotal, PaymentPaid, Some(tran))]
    ensures var o1 := HandleCallback(cfg, st, k, tran, valid, received).state.orders;
            o1[k].AmountPaid() == o1[k].grandTotal && HasReference(o1, Some(tran))
  {
    var o1 := HandleCallback(cfg, st, k, tran, valid, received).state.orders;
    AmountSnoc(st.orders[k].payments, Payment(st.orders[k].grandTotal, PaymentPaid, Some(tran)), PaymentPaid);
    assert o1[k].payments[|st.orders[k].payments|].reference == Some(tran);
  }

  lemma ClaimsExpired(cfg: Config, st: State, k: nat)
    requires Counted(cfg.catalog, {}, st) && Rowed(cfg.catalog, st) && k < |st.orders| && st.orders[k].status == Pending
    ensures var r := ClaimPending(cfg, st, k);
            && r.Success? && r.value.orders == st.orders[k := st.orders[k].Moved(Cancelled)]
            && Counted(cfg.catalog, {}, r.value) && Rowed(cfg.catalog, r.value)
  {
    CancelSucceeds(cfg, st, k);
    ClaimCounts(cfg, {}, st, k);
    ClaimRows(cfg, st, k);
  }

  /** The sweep never throws, and leaves no expired reservation behind. */
  lemma {:induction false} SweepSucceeds(cfg: Config, st: State, now: int, k: nat)
    requires Counted(cfg.catalog, {}, st) && Rowed(cfg.catalog, st) && k <= |st.orders|
    ensures var r := ReleaseExpired(cfg, st, now, k);
            && r.Success? && |r.value.orders| == |st.orders|
            && (forall j :: k <= j < |st.orders| ==>
                  r.value.orders[j] == if st.orders[j].status == Pending && st.orders[j].expiresAt < now
                                       then st.orders[j].Moved(Cancelled) else st.orders[j])
            && (forall j :: 0 <= j < k ==> r.value.orders[j] == st.orders[j])
    decreases |st.orders| - k
  {
    if k < |st.orders| {
      if Expired(st.orders[k], now) {
        ClaimsExpired(cfg, st, k);
        SweepSucceeds(cfg, ClaimPending(cfg, st, k).value, now, k + 1);
      } else {
        SweepSucceeds(cfg, st, now, k + 1);
      }
    }
  }
}
