/** The subscription billing ledger: charges, the payments allocated to them, and their settlement. */
module Subscriptions {
  import opened Outcomes
  import Text

  datatype Intent = AssignPlan | ExtendSubscription

  datatype ChargeStatus = Open | PartiallyPaid | Paid | Void

  /** A backfilled charge carries the reference of its payment, a created one none. */
  datatype Charge = Charge(
    tenant: nat, plan: nat, intent: Intent, base: nat, discount: nat, net: nat, paid: nat,
    status: ChargeStatus, reference: Option<string>)
  {
    predicate Receiving() {
      status in {Open, PartiallyPaid}
    }

    function Outstanding(): nat {
      if net > paid then net - paid else 0
    }
  }

  datatype PaymentStatus = Pending | Verified | Rejected

  datatype Payment = Payment(
    tenant: nat, plan: nat, intent: Intent, charge: Option<nat>, amount: nat, status: PaymentStatus,
    reference: Option<string>)

  /** A change of a tenant's subscription, made when a payment settled a charge. */
  datatype Operation = Operation(charge: nat, payment: nat)

  datatype Ledger = Ledger(charges: seq<Charge>, payments: seq<Payment>, operations: seq<Operation>)

  // Creating a charge

  datatype Discount = Percentage | Fixed

  function DiscountAmount(base: nat, kind: Option<Discount>, value: Option<int>): Result<nat> {
    if kind.None? || value.None? then Success(0)
    else if value.value <= 0 then Failure(InvalidArgument)
    else if kind == Some(Percentage) && value.value > 100 then Failure(InvalidArgument)
    else
      var amount := if kind == Some(Percentage) then base * value.value / 100
                    else if value.value < base then value.value else base;
      if amount >= base then Failure(InvalidArgument) else Success(amount)
  }

  predicate HasOpenCharge(charges: seq<Charge>, tenant: nat, intent: Intent) {
    exists i :: 0 <= i < |charges| && charges[i].tenant == tenant && charges[i].intent == intent && charges[i].Receiving()
  }

  function CreateCharge(l: Ledger, tenant: nat, plan: nat, active: bool, intent: Intent, base: int,
                        kind: Option<Discount>, value: Option<int>): Result<Ledger>
  {
    if !active || HasOpenCharge(l.charges, tenant, intent) then Failure(InvalidState)
    else if base <= 0 then Failure(InvalidArgument)
    else
      var discount :- DiscountAmount(base, kind, value);
      var net := base - discount;
      if net <= 0 then Failure(InvalidArgument)
      else Success(l.(charges := l.charges + [Charge(tenant, plan, intent, base, discount, net, 0, Open, None)]))
  }

  // Payments

  const MANUAL_METHODS: set<string> := {"bkash", "nagad", "rocket", "other"}

  function Upper(s: string): string {
    seq(|s|, i requires 0 <= i < |s| =>
      if 'a' <= s[i] <= 'z' then (s[i] as int - 'a' as int + 'A' as int) as char else s[i])
  }

  function Normalized(reference: string): string {
    Upper(Text.Trim(reference))
  }

  predicate ReferenceExists(payments: seq<Payment>, reference: string) {
    exists i :: 0 <= i < |payments| && payments[i].reference == Some(reference)
  }

  function Record(l: Ledger, charge: nat, active: bool, reference: string, method_: string, amount: Option<int>,
                  days: Option<int>): Result<Ledger>
  {
    if charge >= |l.charges| then Failure(NotFound)
    else
      var c := l.charges[charge];
      var resolved := if amount.Some? then amount.value else c.Outstanding();
      if !c.Receiving() || !active then Failure(InvalidState)
      else if resolved <= 0 || resolved > c.Outstanding() || method_ !in MANUAL_METHODS then Failure(InvalidArgument)
      else if Normalized(reference) == "" then Failure(InvalidArgument)
      else if c.intent == ExtendSubscription && (days.None? || days.value <= 0) then Failure(InvalidArgument)
      else if ReferenceExists(l.payments, Normalized(reference)) then Failure(DuplicateReference)
      else
        var p := Payment(c.tenant, c.plan, c.intent, Some(charge), resolved, Pending, Some(Normalized(reference)));
        Success(l.(payments := l.payments + [p]))
  }

  /** `accepted` says whether the subscription service carried out the change without throwing. */
  function Verify(l: Ledger, payment: nat, active: bool, accepted: bool): Result<Ledger> {
    if payment >= |l.payments| then Failure(NotFound)
    else
      var p := l.payments[payment];
      if p.status != Pending || p.charge.None? then Failure(InvalidState)
      else if p.charge.value >= |l.charges| then Failure(NotFound)
      else
        var k := p.charge.value;
        var c := l.charges[k];
        if !c.Receiving() || !active then Failure(InvalidState)
        else if p.amount <= 0 || p.amount > c.Outstanding() then Failure(InvalidArgument)
        else
          var settled := c.paid + p.amount >= c.net;
          if settled && !accepted then Failure(InvalidState)
          else
            var c1 := c.(paid := c.paid + p.amount, status := if settled then Paid else PartiallyPaid);
            Success(Ledger(l.charges[k := c1], l.payments[payment := p.(status := Verified)],
                           if settled then l.operations + [Operation(k, payment)] else l.operations))
  }

  function Reject(l: Ledger, payment: nat, reason: string): Result<Ledger> {
    if Text.Trim(reason) == "" then Failure(InvalidArgument)
    else if payment >= |l.payments| then Failure(NotFound)
    else if l.payments[payment].status != Pending then Failure(InvalidState)
    else Success(l.(payments := l.payments[payment := l.payments[payment].(status := Rejected)]))
  }

  // Payments older than charges

  predicate Unlinked(p: Payment) {
    p.status == Verified && p.charge.None?
  }

  /** The (string) cast of a nullable column. */
  function Written(reference: Option<string>): string {
    if reference.Some? then reference.value else ""
  }

  /** The charge that stands for a payment made before there were charges. */
  function PaidBy(p: Payment): Charge {
    Charge(p.tenant, p.plan, p.intent, p.amount, 0, p.amount, p.amount, Paid, Some(Written(p.reference)))
  }

  /** One verified payment gets a charge of its own, paid with it. */
  function Linked(l: Ledger, i: nat): Ledger
    requires i < |l.payments|
  {
    var p := l.payments[i];
    Ledger(l.charges + [PaidBy(p)], l.payments[i := p.(charge := Some(|l.charges|))], l.operations)
  }

  /** From payment `i` on; with the number of payments linked. */
  function Backfill(l: Ledger, i: nat): (Ledger, nat)
    requires i <= |l.payments|
    decreases |l.payments| - i
  {
    if i == |l.payments| then (l, 0)
    else if !Unlinked(l.payments[i]) then Backfill(l, i + 1)
    else
      var rest := Backfill(Linked(l, i), i + 1);
      (rest.0, rest.1 + 1)
  }

  // Runs

  datatype Call =
    | CallCreate(tenant: nat, plan: nat, active: bool, intent: Intent, base: int, kind: Option<Discount>, value: Option<int>)
    | CallRecord(charge: nat, active: bool, reference: string, method_: string, amount: Option<int>, days: Option<int>)
    | CallVerify(payment: nat, active: bool, accepted: bool)
    | CallReject(payment: nat, reason: string)
    | CallBackfill

  function Kept(l: Ledger, r: Result<Ledger>): Ledger {
    if r.Success? then r.value else l
  }

  function Step(l: Ledger, c: Call): Ledger {
    match c
    case CallCreate(tenant, plan, active, intent, base, kind, value) =>
      Kept(l, CreateCharge(l, tenant, plan, active, intent, base, kind, value))
    case CallRecord(charge, active, reference, method_, amount, days) =>
      Kept(l, Record(l, charge, active, reference, method_, amount, days))
    case CallVerify(payment, active, accepted) => Kept(l, Verify(l, payment, active, accepted))
    case CallReject(payment, reason) => Kept(l, Reject(l, payment, reason))
    case CallBackfill => Backfill(l, 0).0
  }

  function Run(l: Ledger, calls: seq<Call>): Ledger
    decreases calls
  {
    if calls == [] then l else Run(Step(l, calls[0]), calls[1..])
  }

  // What the ledger says

  /** The verified money allocated to a charge. */
  function Received(payments: seq<Payment>, charge: nat): nat {
    if payments == [] then 0
    else (if payments[0].status == Verified && payments[0].charge == Some(charge) then payments[0].amount else 0)
         + Received(payments[1..], charge)
  }

  function Settlements(operations: seq<Operation>, charge: nat): nat {
    if operations == [] then 0
    else (if operations[0].charge == charge then 1 else 0) + Settlements(operations[1..], charge)
  }

  predicate StatusFits(c: Charge) {
    match c.status
    case Open => c.paid == 0 < c.net
    case PartiallyPaid => 0 < c.paid < c.net
    case Paid => c.paid == c.net
    case Void => false
  }

  predicate ChargeSound(l: Ledger, k: nat)
    requires k < |l.charges|
  {
    var c := l.charges[k];
    && c.paid == Received(l.payments, k) <= c.net == c.base - c.discount
    && StatusFits(c) && (c.Receiving() ==> c.reference.None?)
    && Settlements(l.operations, k) == (if c.status == Paid && c.reference.None? then 1 else 0)
  }

  predicate PaymentSound(l: Ledger, p: Payment) {
    p.charge.Some? ==>
      && p.charge.value < |l.charges|
      && p.tenant == l.charges[p.charge.value].tenant && p.intent == l.charges[p.charge.value].intent
  }

  predicate OneOpen(charges: seq<Charge>) {
    forall i, j :: 0 <= i < j < |charges| && charges[i].Receiving() && charges[j].Receiving() ==>
      charges[i].tenant != charges[j].tenant || charges[i].intent != charges[j].intent
  }

  predicate OneReference(payments: seq<Payment>) {
    forall i, j :: 0 <= i < j < |payments| && payments[i].reference.Some? ==>
      payments[i].reference != payments[j].reference
  }

  predicate Sound(l: Ledger) {
    && (forall k :: 0 <= k < |l.charges| ==> ChargeSound(l, k))
    && (forall i :: 0 <= i < |l.payments| ==> PaymentSound(l, l.payments[i]))
    && (forall i :: 0 <= i < |l.operations| ==> l.operations[i].charge < |l.charges|)
    && OneOpen(l.charges) && OneReference(l.payments)
  }

  // Sums

  lemma {:induction false} ReceivedUpdate(payments: seq<Payment>, i: nat, p: Payment, k: nat)
    requires i < |payments|
    ensures Received(payments[i := p], k) == Received(payments, k)
            - (if payments[i].status == Verified && payments[i].charge == Some(k) then payments[i].amount else 0)
            + (if p.status == Verified && p.charge == Some(k) then p.amount else 0)
  {
    if i > 0 {
      assert payments[i := p][1..] == payments[1..][i - 1 := p];
      ReceivedUpdate(payments[1..], i - 1, p, k);
    } else {
      assert payments[i := p][1..] == payments[1..];
    }
  }

  lemma {:induction false} ReceivedSnoc(payments: seq<Payment>, p: Payment, k: nat)
    requires p.status != Verified
    ensures Received(payments + [p], k) == Received(payments, k)
  {
    if payments != [] {
      assert (payments + [p])[1..] == payments[1..] + [p];
      ReceivedSnoc(payments[1..], p, k);
    }
  }

  lemma {:induction false} SettlementsSnoc(operations: seq<Operation>, o: Operation, k: nat)
    ensures Settlements(operations + [o], k) == Settlements(operations, k) + (if o.charge == k then 1 else 0)
  {
    if operations != [] {
      assert (operations + [o])[1..] == operations[1..] + [o];
      SettlementsSnoc(operations[1..], o, k);
    }
  }

  /** Nothing points at a charge that does not exist yet. */
  lemma {:induction false} NothingReceivedYet(l: Ledger, payments: seq<Payment>)
    requires forall i :: 0 <= i < |payments| ==> payments[i].charge != Some(|l.charges|)
    ensures Received(payments, |l.charges|) == 0
  {
    if payments != [] {
      NothingReceivedYet(l, payments[1..]);
    }
  }

  lemma {:induction false} NothingSettledYet(operations: seq<Operation>, k: nat)
    requires forall i :: 0 <= i < |operations| ==> operations[i].charge < k
    ensures Settlements(operations, k) == 0
  {
    if operations != [] {
      NothingSettledYet(operations[1..], k);
    }
  }

  // Every call keeps the ledger sound

  lemma CreateKeeps(l: Ledger, tenant: nat, plan: nat, active: bool, intent: Intent, base: int,
                    kind: Option<Discount>, value: Option<int>)
    requires Sound(l)
    ensures Sound(Kept(l, CreateCharge(l, tenant, plan, active, intent, base, kind, value)))
  {
    var r := CreateCharge(l, tenant, plan, active, intent, base, kind, value);
    if r.Success? {
      NewChargeKeeps(l, r.value);
    }
  }

  lemma NewChargeKeeps(l: Ledger, l1: Ledger)
    requires Sound(l) && l1.payments == l.payments && l1.operations == l.operations
    requires |l1.charges| == |l.charges| + 1 && l1.charges[..|l.charges|] == l.charges
    requires var c := l1.charges[|l.charges|];
             c.paid == 0 && c.status == Open && c.reference.None? && c.net > 0 && c.net == c.base - c.discount
             && !HasOpenCharge(l.charges, c.tenant, c.intent)
    ensures Sound(l1)
  {
    var n := |l.charges|;
    assert forall i :: 0 <= i < n ==> l1.charges[i] == l.charges[i];
    forall i | 0 <= i < |l.payments| ensures l.payments[i].charge != Some(n) && PaymentSound(l1, l.payments[i]) {
      assert PaymentSound(l, l.payments[i]);
    }
    NothingReceivedYet(l, l.payments);
    NothingSettledYet(l.operations, n);
    forall k | 0 <= k < |l1.charges| ensures ChargeSound(l1, k) {
      assert k < n ==> ChargeSound(l, k);
    }
  }

  lemma RecordKeeps(l: Ledger, charge: nat, active: bool, reference: string, method_: string, amount: Option<int>,
                    days: Option<int>)
    requires Sound(l)
    ensures Sound(Kept(l, Record(l, charge, active, reference, method_, amount, days)))
  {
    var r := Record(l, charge, active, reference, method_, amount, days);
    if r.Success? {
      var p := r.value.payments[|l.payments|];
      forall k | 0 <= k < |l.charges| ensures ChargeSound(r.value, k) {
        assert ChargeSound(l, k);
        ReceivedSnoc(l.payments, p, k);
      }
      forall i | 0 <= i < |r.value.payments| ensures PaymentSound(r.value, r.value.payments[i]) {
        assert i < |l.payments| ==> PaymentSound(l, l.payments[i]);
      }
    }
  }

  lemma VerifyKeeps(l: Ledger, payment: nat, active: bool, accepted: bool)
    requires Sound(l)
    ensures Sound(Kept(l, Verify(l, payment, active, accepted)))
  {
    var r := Verify(l, payment, active, accepted);
    if r.Success? {
      var l1, p := r.value, l.payments[payment];
      var c := p.charge.value;
      forall k | 0 <= k < |l1.charges| ensures ChargeSound(l1, k) {
        assert ChargeSound(l, k);
        ReceivedUpdate(l.payments, payment, p.(status := Verified), k);
        SettlementsSnoc(l.operations, Operation(c, payment), k);
      }
      forall i | 0 <= i < |l1.payments| ensures PaymentSound(l1, l1.payments[i]) {
        assert PaymentSound(l, l.payments[i]);
      }
    }
  }

  lemma RejectKeeps(l: Ledger, payment: nat, reason: string)
    requires Sound(l)
    ensures Sound(Kept(l, Reject(l, payment, reason)))
  {
    var r := Reject(l, payment, reason);
    if r.Success? {
      forall k | 0 <= k < |l.charges| ensures ChargeSound(r.value, k) {
        assert ChargeSound(l, k);
        ReceivedUpdate(l.payments, payment, l.payments[payment].(status := Rejected), k);
      }
      forall i | 0 <= i < |r.value.payments| ensures PaymentSound(r.value, r.value.payments[i]) {
        assert PaymentSound(l, l.payments[i]);
      }
    }
  }

  lemma LinkedKeeps(l: Ledger, i: nat)
    requires Sound(l) && i < |l.payments| && Unlinked(l.payments[i])
    ensures Sound(Linked(l, i))
  {
    var l1, n, p := Linked(l, i), |l.charges|, l.payments[i];
    forall j | 0 <= j < |l.payments| ensures l.payments[j].charge != Some(n) && PaymentSound(l1, l1.payments[j]) {
      assert PaymentSound(l, l.payments[j]);
    }
    NothingReceivedYet(l, l.payments);
    NothingSettledYet(l.operations, n);
    forall k | 0 <= k < |l1.charges| ensures ChargeSound(l1, k) {
      assert k < n ==> ChargeSound(l, k);
      ReceivedUpdate(l.payments, i, p.(charge := Some(n)), k);
    }
  }

  lemma {:induction false} BackfillKeeps(l: Ledger, i: nat)
    requires Sound(l) && i <= |l.payments|
    ensures Sound(Backfill(l, i).0)
    decreases |l.payments| - i
  {
    if i < |l.payments| {
      if Unlinked(l.payments[i]) {
        LinkedKeeps(l, i);
        BackfillKeeps(Linked(l, i), i + 1);
      } else {
        BackfillKeeps(l, i + 1);
      }
    }
  }

  /**
   Over every run: each charge has received exactly its verified payments and never more than it
   asks, its status says how much that is, it changed the subscription exactly once if it was
   settled by a verification, and a tenant has at most one open charge per intent.
   */
  lemma {:induction false} LedgerStaysSound(l: Ledger, calls: seq<Call>)
    requires Sound(l)
    ensures Sound(Run(l, calls))
    decreases calls
  {
    if calls != [] {
      match calls[0] {
        case CallCreate(tenant, plan, active, intent, base, kind, value) =>
          CreateKeeps(l, tenant, plan, active, intent, base, kind, value);
        case CallRecord(charge, active, reference, method_, amount, days) =>
          RecordKeeps(l, charge, active, reference, method_, amount, days);
        case CallVerify(payment, active, accepted) => VerifyKeeps(l, payment, active, accepted);
        case CallReject(payment, reason) => RejectKeeps(l, payment, reason);
        case CallBackfill => BackfillKeeps(l, 0);
      }
      LedgerStaysSound(Step(l, calls[0]), calls[1..]);
    }
  }

  // What each call leaves behind

  /** The charge asks for the base less the discount, and a tenant has no second one of that kind open. */
  lemma CreateLeaves(l: Ledger, tenant: nat, plan: nat, active: bool, intent: Intent, base: int,
                     kind: Option<Discount>, value: Option<int>)
    ensures var r := CreateCharge(l, tenant, plan, active, intent, base, kind, value);
            && (r.Success? <==>
                  && active && base > 0 && DiscountAmount(base, kind, value).Success?
                  && forall i :: 0 <= i < |l.charges| ==>
                       l.charges[i].tenant != tenant || l.charges[i].intent != intent
                       || l.charges[i].status in {Paid, Void})
            && (r.Success? ==>
                  var discount := DiscountAmount(base, kind, value).value;
                  r.value == Ledger(l.charges + [Charge(tenant, plan, intent, base, discount, base - discount, 0, Open, None)],
                                    l.payments, l.operations))
  {
    if base > 0 {
      DiscountGranted(base, kind, value);
    }
    if HasOpenCharge(l.charges, tenant, intent) {
      var i :| 0 <= i < |l.charges| && l.charges[i].tenant == tenant && l.charges[i].intent == intent && l.charges[i].Receiving();
      assert l.charges[i].status !in {Paid, Void};
    } else {
      forall i | 0 <= i < |l.charges| && l.charges[i].tenant == tenant && l.charges[i].intent == intent
        ensures l.charges[i].status in {Paid, Void}
      {
        assert !l.charges[i].Receiving();
        assert l.charges[i].status.Open? || l.charges[i].status.PartiallyPaid?
               || l.charges[i].status.Paid? || l.charges[i].status.Void?;
      }
    }
  }

  /** What a call to record a payment says it is for: the amount given, or else what is outstanding. */
  function Asked(c: Charge, amount: Option<int>): int {
    match amount
    case Some(given) => given
    case None => if c.net > c.paid then c.net - c.paid else 0
  }

  /** Recording appends one pending payment for what was asked, and refuses exactly these. */
  lemma RecordLeaves(l: Ledger, charge: nat, active: bool, reference: string, method_: string, amount: Option<int>,
                     days: Option<int>)
    ensures var r := Record(l, charge, active, reference, method_, amount, days);
            && (r.Success? <==>
                  && charge < |l.charges| && active && l.charges[charge].status in {Open, PartiallyPaid}
                  && 0 < Asked(l.charges[charge], amount) <= l.charges[charge].net - l.charges[charge].paid
                  && method_ in {"bkash", "nagad", "rocket", "other"} && Normalized(reference) != ""
                  && (l.charges[charge].intent == ExtendSubscription ==> days.Some? && days.value > 0)
                  && forall i :: 0 <= i < |l.payments| ==> l.payments[i].reference != Some(Normalized(reference)))
            && (r.Success? ==>
                  var c := l.charges[charge];
                  && Asked(c, amount) > 0
                  && r.value == Ledger(l.charges,
                       l.payments + [Payment(c.tenant, c.plan, c.intent, Some(charge), Asked(c, amount), Pending,
                                             Some(Normalized(reference)))],
                       l.operations))
  {
  }

  /** Verifying adds the payment to its charge, and settles the charge and changes the subscription when it is complete. */
  lemma VerifyLeaves(l: Ledger, payment: nat, active: bool, accepted: bool)
    ensures var r := Verify(l, payment, active, accepted);
            && (r.Success? <==>
                  && active && payment < |l.payments| && l.payments[payment].status == Pending
                  && l.payments[payment].charge.Some? && l.payments[payment].charge.value < |l.charges|
                  && var c := l.charges[l.payments[payment].charge.value];
                     && c.status in {Open, PartiallyPaid} && 0 < l.payments[payment].amount <= c.net - c.paid
                     && (c.paid + l.payments[payment].amount == c.net ==> accepted))
            && (r.Success? ==>
                  var p := l.payments[payment]; var k := p.charge.value;
                  var paid := l.charges[k].paid + p.amount; var complete := paid == l.charges[k].net;
                  r.value == Ledger(l.charges[k := l.charges[k].(paid := paid, status := if complete then Paid else PartiallyPaid)],
                                    l.payments[payment := p.(status := Verified)],
                                    l.operations + if complete then [Operation(k, payment)] else []))
  {
    assert l.operations + [] == l.operations;
  }

  /** Rejecting marks one pending payment, for a reason. */
  lemma RejectLeaves(l: Ledger, payment: nat, reason: string)
    ensures var r := Reject(l, payment, reason);
            && (r.Success? <==>
                  Text.Trim(reason) != "" && payment < |l.payments| && l.payments[payment].status == Pending)
            && (r.Success? ==>
                  r.value == Ledger(l.charges, l.payments[payment := l.payments[payment].(status := Rejected)], l.operations))
  {
  }

  // Payments are worth what they were recorded for

  /** The amounts that the calls of a run recorded payments for, in order. */
  function AmountsAsked(l: Ledger, calls: seq<Call>): seq<int>
    decreases calls
  {
    if calls == [] then []
    else
      var l1 := Step(l, calls[0]);
      (if calls[0].CallRecord? && |l1.payments| > |l.payments| && calls[0].charge < |l.charges|
       then [Asked(l.charges[calls[0].charge], calls[0].amount)] else [])
      + AmountsAsked(l1, calls[1..])
  }

  predicate SameAmounts(l: Ledger, l1: Ledger) {
    && |l.payments| == |l1.payments|
    && forall i :: 0 <= i < |l.payments| ==> l1.payments[i].amount == l.payments[i].amount
  }

  lemma {:induction false} BackfillKeepsAmounts(l: Ledger, i: nat)
    requires i <= |l.payments|
    ensures SameAmounts(l, Backfill(l, i).0)
    decreases |l.payments| - i
  {
    if i < |l.payments| {
      BackfillKeepsAmounts(if Unlinked(l.payments[i]) then Linked(l, i) else l, i + 1);
    }
  }

  /** A call changes no amount, and only recording adds a payment. */
  lemma StepKeepsAmounts(l: Ledger, c: Call)
    ensures var l1 := Step(l, c);
            if c.CallRecord? && |l1.payments| > |l.payments|
            then c.charge < |l.charges| && |l1.payments| == |l.payments| + 1 && l1.payments[..|l.payments|] == l.payments
                 && l1.payments[|l.payments|].amount == Asked(l.charges[c.charge], c.amount)
            else SameAmounts(l, l1)
  {
    match c
    case CallCreate(tenant, plan, active, intent, base, kind, value) =>
    case CallRecord(charge, active, reference, method_, amount, days) =>
      RecordLeaves(l, charge, active, reference, method_, amount, days);
    case CallVerify(payment, active, accepted) =>
    case CallReject(payment, reason) =>
    case CallBackfill => BackfillKeepsAmounts(l, 0);
  }

  /** Over every run each payment is worth what was asked when it was recorded. */
  lemma {:induction false} PaymentsAreWorthWhatWasAsked(l: Ledger, calls: seq<Call>)
    ensures var end := Run(l, calls); var asked := AmountsAsked(l, calls);
            && |end.payments| == |l.payments| + |asked|
            && (forall i :: 0 <= i < |l.payments| ==> end.payments[i].amount == l.payments[i].amount)
            && (forall i :: 0 <= i < |asked| ==> end.payments[|l.payments| + i].amount == asked[i])
    decreases calls
  {
    if calls != [] {
      var l1 := Step(l, calls[0]);
      var asked, rest := AmountsAsked(l, calls), AmountsAsked(l1, calls[1..]);
      StepKeepsAmounts(l, calls[0]);
      PaymentsAreWorthWhatWasAsked(l1, calls[1..]);
      if calls[0].CallRecord? && |l1.payments| > |l.payments| {
        assert asked == [Asked(l.charges[calls[0].charge], calls[0].amount)] + rest;
      } else {
        assert asked == rest;
      }
    }
  }

  /** What was asked for in the payments that were verified for a charge. */
  function AskedFor(asked: seq<int>, payments: seq<Payment>, charge: nat): int
    requires |asked| == |payments|
  {
    if payments == [] then 0
    else (if payments[0].status == Verified && payments[0].charge == Some(charge) then asked[0] else 0)
         + AskedFor(asked[1..], payments[1..], charge)
  }

  lemma {:induction false} ReceivedIsAsked(asked: seq<int>, payments: seq<Payment>, charge: nat)
    requires |asked| == |payments| && forall i :: 0 <= i < |payments| ==> payments[i].amount == asked[i]
    ensures Received(payments, charge) == AskedFor(asked, payments, charge)
  {
    if payments != [] {
      ReceivedIsAsked(asked[1..], payments[1..], charge);
    }
  }

  /**
   Over every run from an empty ledger: a charge is settled if and only if the amounts that its
   verified payments were recorded for add up to what it asks, and they never add up to more.
   */
  lemma SettledIffAskedInFull(calls: seq<Call>, charge: nat)
    requires charge < |Run(Ledger([], [], []), calls).charges|
    ensures var end := Run(Ledger([], [], []), calls); var asked := AmountsAsked(Ledger([], [], []), calls);
            && |asked| == |end.payments|
            && AskedFor(asked, end.payments, charge) <= end.charges[charge].net
            && (end.charges[charge].status == Paid <==> AskedFor(asked, end.payments, charge) == end.charges[charge].net)
  {
    var empty := Ledger([], [], []);
    LedgerStaysSound(empty, calls);
    PaymentsAreWorthWhatWasAsked(empty, calls);
    assert ChargeSound(Run(empty, calls), charge);
    ReceivedIsAsked(AmountsAsked(empty, calls), Run(empty, calls).payments, charge);
  }

  // Backfilling

  function UnlinkedFrom(payments: seq<Payment>, i: nat): nat
    requires i <= |payments|
    decreases |payments| - i
  {
    if i == |payments| then 0 else (if Unlinked(payments[i]) then 1 else 0) + UnlinkedFrom(payments, i + 1)
  }

  lemma {:induction false} UnlinkedAfter(payments: seq<Payment>, i: nat, p: Payment, j: nat)
    requires i < j <= |payments|
    ensures UnlinkedFrom(payments[i := p], j) == UnlinkedFrom(payments, j)
    decreases |payments| - j
  {
    if j < |payments| {
      UnlinkedAfter(payments, i, p, j + 1);
    }
  }

  /** Backfilling changes nothing but the charge of the verified payments without one. */
  lemma {:induction false} BackfillFrame(l: Ledger, i: nat)
    requires i <= |l.payments|
    ensures var (l1, linked) := Backfill(l, i);
            && linked == UnlinkedFrom(l.payments, i) && l1.operations == l.operations
            && |l1.charges| == |l.charges| + linked && l1.charges[..|l.charges|] == l.charges
            && |l1.payments| == |l.payments|
            && (forall j :: 0 <= j < |l.payments| ==>
                  if j >= i && Unlinked(l.payments[j])
                  then l1.payments[j].charge.Some? && l1.payments[j] == l.payments[j].(charge := l1.payments[j].charge)
                  else l1.payments[j] == l.payments[j])
    decreases |l.payments| - i
  {
    if i < |l.payments| {
      if Unlinked(l.payments[i]) {
        var l0 := Linked(l, i);
        BackfillFrame(l0, i + 1);
        UnlinkedAfter(l.payments, i, l0.payments[i], i + 1);
        assert l0.charges[..|l.charges|] == l.charges;
        assert Backfill(l, i).0.charges[..|l.charges|] == Backfill(l, i).0.charges[..|l0.charges|][..|l.charges|];
      } else {
        BackfillFrame(l, i + 1);
      }
    }
  }

  lemma {:induction false} UnlinkedFalls(payments: seq<Payment>, i: nat, j: nat)
    requires i <= j <= |payments|
    ensures UnlinkedFrom(payments, j) <= UnlinkedFrom(payments, i)
    ensures i < j && Unlinked(payments[i]) ==> UnlinkedFrom(payments, j) < UnlinkedFrom(payments, i)
    decreases j - i
  {
    if i < j {
      UnlinkedFalls(payments, i + 1, j);
    }
  }

  /** The new charges stand in the order of their payments. */
  lemma {:induction false} BackfillLinksAt(l: Ledger, i: nat, j: nat)
    requires i <= j < |l.payments| && Unlinked(l.payments[j])
    ensures var l1 := Backfill(l, i).0;
            var k := |l.charges| + UnlinkedFrom(l.payments, i) - UnlinkedFrom(l.payments, j);
            && j < |l1.payments| && |l.charges| <= k < |l1.charges|
            && l1.payments[j].charge == Some(k) && l1.charges[k] == PaidBy(l.payments[j])
    decreases |l.payments| - i
  {
    if Unlinked(l.payments[i]) {
      var l0 := Linked(l, i);
      UnlinkedAfter(l.payments, i, l0.payments[i], i + 1);
      BackfillFrame(l0, i + 1);
      if i < j {
        UnlinkedAfter(l.payments, i, l0.payments[i], j);
        BackfillLinksAt(l0, i + 1, j);
      } else {
        var charges := Backfill(l, i).0.charges;
        assert charges[..|l0.charges|][|l.charges|] == l0.charges[|l.charges|];
      }
    } else {
      BackfillLinksAt(l, i + 1, j);
    }
  }

  /**
   Every verified payment without a charge gets a new charge of its own that mirrors it, no two
   payments get the same one, and nothing else changes.
   */
  lemma BackfillLinksAll(l: Ledger)
    ensures var (l1, linked) := Backfill(l, 0);
            && linked == UnlinkedFrom(l.payments, 0) && l1.operations == l.operations
            && |l1.charges| == |l.charges| + linked && l1.charges[..|l.charges|] == l.charges
            && |l1.payments| == |l.payments|
            && (forall j :: 0 <= j < |l.payments| ==>
                  var p, p1 := l.payments[j], l1.payments[j];
                  if p.status != Verified || p.charge.Some? then p1 == p
                  else
                    && p1.charge.Some? && p1 == p.(charge := p1.charge)
                    && |l.charges| <= p1.charge.value < |l1.charges|
                    && l1.charges[p1.charge.value]
                       == Charge(p.tenant, p.plan, p.intent, p.amount, 0, p.amount, p.amount, Paid, Some(Written(p.reference))))
            && (forall i, j :: 0 <= i < j < |l.payments| && Unlinked(l.payments[i]) && Unlinked(l.payments[j]) ==>
                  l1.payments[i].charge != l1.payments[j].charge)
  {
    var l1 := Backfill(l, 0).0;
    BackfillFrame(l, 0);
    forall j | 0 <= j < |l.payments| && Unlinked(l.payments[j])
      ensures l1.payments[j].charge == Some(|l.charges| + UnlinkedFrom(l.payments, 0) - UnlinkedFrom(l.payments, j))
      ensures |l.charges| <= l1.payments[j].charge.value < |l1.charges|
      ensures l1.charges[l1.payments[j].charge.value] == PaidBy(l.payments[j])
    {
      BackfillLinksAt(l, 0, j);
    }
    forall i, j | 0 <= i < j < |l.payments| && Unlinked(l.payments[i]) && Unlinked(l.payments[j])
      ensures l1.payments[i].charge != l1.payments[j].charge
    {
      UnlinkedFalls(l.payments, i, j);
    }
  }

  lemma {:induction false} NothingToLink(l: Ledger, i: nat)
    requires i <= |l.payments| && forall j :: i <= j < |l.payments| ==> !Unlinked(l.payments[j])
    ensures Backfill(l, i) == (l, 0)
    decreases |l.payments| - i
  {
    if i < |l.payments| {
      NothingToLink(l, i + 1);
    }
  }

  /** Running it again links nothing and changes nothing. */
  lemma BackfillTwice(l: Ledger)
    ensures Backfill(Backfill(l, 0).0, 0) == (Backfill(l, 0).0, 0)
  {
    var l1 := Backfill(l, 0).0;
    BackfillFrame(l, 0);
    forall j | 0 <= j < |l1.payments| ensures !Unlinked(l1.payments[j]) {
      assert |l1.payments| == |l.payments| && (Unlinked(l.payments[j]) ==> l1.payments[j].charge.Some?);
    }
    NothingToLink(l1, 0);
  }

  // Single calls

  /** Exactly which discounts are granted, and how large they are. */
  lemma DiscountGranted(base: nat, kind: Option<Discount>, value: Option<int>)
    requires base > 0
    ensures var r := DiscountAmount(base, kind, value);
            && (r.Success? <==>
                  kind.None? || value.None? ||
                  (0 < value.value && (if kind == Some(Percentage) then value.value < 100 else value.value < base)))
            && (r.Success? ==> r.value < base)
            && (kind.None? || value.None? ==> r == Success(0))
            && (r.Success? && kind == Some(Percentage) && value.Some? ==>
                  100 * r.value <= base * value.value < 100 * r.value + 100)
            && (r.Success? && kind == Some(Fixed) && value.Some? ==> r.value == value.value)
  {
    if kind == Some(Percentage) && value.Some? && 0 < value.value <= 100 {
      PercentageOf(base, value.value);
    }
  }

  lemma PercentageOf(base: nat, p: nat)
    requires base > 0 && p <= 100
    ensures base * p / 100 < base <==> p < 100
    ensures 100 * (base * p / 100) <= base * p < 100 * (base * p / 100) + 100
  {
    if p < 100 {
      assert base * p <= base * 99;
    }
  }

  lemma {:induction false} UpperTrimsLeft(s: string)
    ensures Text.TrimLeft(Upper(s)) == Upper(Text.TrimLeft(s))
  {
    if s != "" && Text.IsBlank(s[0]) {
      assert Upper(s)[1..] == Upper(s[1..]);
      UpperTrimsLeft(s[1..]);
    }
  }

  lemma {:induction false} UpperTrimsRight(s: string)
    ensures Text.TrimRight(Upper(s)) == Upper(Text.TrimRight(s))
  {
    if s != "" && Text.IsBlank(s[|s| - 1]) {
      assert Upper(s)[..|s| - 1] == Upper(s[..|s| - 1]);
      UpperTrimsRight(s[..|s| - 1]);
    }
  }

  /** A normal form is the reference without the blanks around it, with each small letter replaced by its capital. */
  lemma NormalizedIs(reference: string) returns (i: nat, j: nat)
    ensures i <= j <= |reference| && |Normalized(reference)| == j - i
    ensures forall k :: 0 <= k < |reference| && !(i <= k < j) ==> Text.IsBlank(reference[k])
    ensures i < j ==> !Text.IsBlank(reference[i]) && !Text.IsBlank(reference[j - 1])
    ensures forall k :: i <= k < j ==>
              Normalized(reference)[k - i] as int
                == reference[k] as int - if 'a' <= reference[k] <= 'z' then 32 else 0
  {
    i, j := Text.TrimCuts(reference);
  }

  /** A stored reference is its own normal form, so it is found again however it is typed. */
  lemma ReferencesAreNormal(l: Ledger, charge: nat, active: bool, reference: string, again: string, method_: string,
                            amount: Option<int>, days: Option<int>)
    requires Record(l, charge, active, reference, method_, amount, days).Success?
    requires Normalized(again) == Normalized(reference)
    ensures var l1 := Record(l, charge, active, reference, method_, amount, days).value;
            && Normalized(Normalized(reference)) == Normalized(reference)
            && l1.payments[|l.payments|].reference == Some(Normalized(again))
            && !Record(l1, charge, active, again, method_, amount, days).Success?
  {
    var t := Text.Trim(reference);
    Text.TrimStops(reference);
    UpperTrimsLeft(t);
    UpperTrimsRight(Text.TrimLeft(t));
    assert Upper(Upper(t)) == Upper(t);
    var l1 := Record(l, charge, active, reference, method_, amount, days).value;
    assert l1.payments[|l.payments|].reference == Some(Normalized(again));
  }

  /** A pending payment can be verified if and only if its charge still has that much outstanding. */
  lemma VerifiableIff(l: Ledger, payment: nat)
    requires Sound(l) && payment < |l.payments|
    requires l.payments[payment].status == Pending && l.payments[payment].charge.Some? && l.payments[payment].amount > 0
    ensures Verify(l, payment, true, true).Success?
        <==> l.payments[payment].amount <= l.charges[l.payments[payment].charge.value].net
                                           - l.charges[l.payments[payment].charge.value].paid
  {
    assert PaymentSound(l, l.payments[payment]);
    assert ChargeSound(l, l.payments[payment].charge.value);
  }

  /** When the subscription service throws, the payment stays pending and the charge unpaid. */
  lemma RefusedSettlementChangesNothing(l: Ledger, payment: nat, active: bool)
    ensures var r := Verify(l, payment, active, false);
            r.Success? ==>
              && r.value.operations == l.operations && l.payments[payment].charge.Some?
              && r.value.charges[l.payments[payment].charge.value].status == PartiallyPaid
  {
  }
}

/** The subscription charge and payment services as they run. */
module SubscriptionService {
  import opened Outcomes
  import opened Subscriptions
  import Text

  predicate Ends(before: Ledger, r: Result<Ledger>, outcome: Outcome, after: Ledger) {
    match r
    case Success(l) => outcome == Done && after == l
    case Failure(e) => outcome == Thrown(e) && after == before
  }

  class Service {
    var charges: seq<Charge>
    var payments: seq<Payment>
    var operations: seq<Operation>

    constructor (l: Ledger)
      ensures Now() == l
    {
      charges, payments, operations := l.charges, l.payments, l.operations;
    }

    function Now(): Ledger
      reads this
    {
      Ledger(charges, payments, operations)
    }

    method CreateCharge(tenant: nat, plan: nat, active: bool, intent: Intent, base: int,
                        kind: Option<Discount>, value: Option<int>) returns (outcome: Outcome)
      modifies this
      ensures Ends(old(Now()), Subscriptions.CreateCharge(old(Now()), tenant, plan, active, intent, base, kind, value),
                   outcome, Now())
    {
      if !active || HasOpenCharge(charges, tenant, intent) {
        return Thrown(InvalidState);
      }
      if base <= 0 {
        return Thrown(InvalidArgument);
      }
      var discount := DiscountAmount(base, kind, value);
      if discount.Failure? {
        return Thrown(discount.error);
      }
      var net := base - discount.value;
      if net <= 0 {
        return Thrown(InvalidArgument);
      }
      charges := charges + [Charge(tenant, plan, intent, base, discount.value, net, 0, Open, None)];
      return Done;
    }

    method Record(charge: nat, active: bool, reference: string, method_: string, amount: Option<int>, days: Option<int>)
      returns (outcome: Outcome)
      modifies this
      ensures Ends(old(Now()), Subscriptions.Record(old(Now()), charge, active, reference, method_, amount, days),
                   outcome, Now())
    {
      if charge >= |charges| {
        return Thrown(NotFound);
      }
      var c := charges[charge];
      if !c.Receiving() || !active {
        return Thrown(InvalidState);
      }
      var outstanding := c.Outstanding();
      var resolved := if amount.Some? then amount.value else outstanding;
      if resolved <= 0 || resolved > outstanding || method_ !in MANUAL_METHODS {
        return Thrown(InvalidArgument);
      }
      var normalized := Normalized(reference);
      if normalized == "" {
        return Thrown(InvalidArgument);
      }
      if c.intent == ExtendSubscription && (days.None? || days.value <= 0) {
        return Thrown(InvalidArgument);
      }
      if ReferenceExists(payments, normalized) {
        return Thrown(DuplicateReference);
      }
      payments := payments + [Payment(c.tenant, c.plan, c.intent, Some(charge), resolved, Pending, Some(normalized))];
      return Done;
    }

    method Verify(payment: nat, active: bool, accepted: bool) returns (outcome: Outcome)
      modifies this
      ensures Ends(old(Now()), Subscriptions.Verify(old(Now()), payment, active, accepted), outcome, Now())
    {
      if payment >= |payments| {
        return Thrown(NotFound);
      }
      var p := payments[payment];
      if p.status != Pending || p.charge.None? {
        return Thrown(InvalidState);
      }
      var k := p.charge.value;
      if k >= |charges| {
        return Thrown(NotFound);
      }
      var c := charges[k];
      if !c.Receiving() || !active {
        return Thrown(InvalidState);
      }
      if p.amount <= 0 || p.amount > c.Outstanding() {
        return Thrown(InvalidArgument);
      }
      var newPaid := c.paid + p.amount;
      var settled := newPaid >= c.net;
      if settled {
        if !accepted {
          return Thrown(InvalidState);
        }
        operations := operations + [Operation(k, payment)];
      }
      charges := charges[k := c.(paid := newPaid, status := if settled then Paid else PartiallyPaid)];
      payments := payments[payment := p.(status := Verified)];
      return Done;
    }

    method Reject(payment: nat, reason: string) returns (outcome: Outcome)
      modifies this
      ensures Ends(old(Now()), Subscriptions.Reject(old(Now()), payment, reason), outcome, Now())
    {
      if Text.Trim(reason) == "" {
        return Thrown(InvalidArgument);
      }
      if payment >= |payments| {
        return Thrown(NotFound);
      }
      if payments[payment].status != Pending {
        return Thrown(InvalidState);
      }
      payments := payments[payment := payments[payment].(status := Rejected)];
      return Done;
    }

    method BackfillVerifiedPayments() returns (linked: nat)
      modifies this
      ensures (Now(), linked) == Backfill(old(Now()), 0)
    {
      linked := 0;
      var i := 0;
      while i < |payments|
        invariant 0 <= i <= |payments|
        invariant Backfill(old(Now()), 0) == (Backfill(Now(), i).0, linked + Backfill(Now(), i).1)
        decreases |payments| - i
      {
        var p := payments[i];
        if p.status == Verified && p.charge.None? {
          charges := charges + [Charge(p.tenant, p.plan, p.intent, p.amount, 0, p.amount, p.amount, Paid,
                                     Some(Written(p.reference)))];
          payments := payments[i := p.(charge := Some(|charges| - 1))];
          linked := linked + 1;
        }
        i := i + 1;
      }
    }

    // Runs

    /** Any call, whatever it throws. */
    method Execute(c: Call)
      modifies this
      ensures Now() == Step(old(Now()), c)
    {
      var outcome := Done;
      match c
      case CallCreate(tenant, plan, active, intent, base, kind, value) =>
        outcome := CreateCharge(tenant, plan, active, intent, base, kind, value);
      case CallRecord(charge, active, reference, method_, amount, days) =>
        outcome := Record(charge, active, reference, method_, amount, days);
      case CallVerify(payment, active, accepted) => outcome := Verify(payment, active, accepted);
      case CallReject(payment, reason) => outcome := Reject(payment, reason);
      case CallBackfill => var linked := BackfillVerifiedPayments();
    }

    /** What the theorems about runs say of this object. */
    method Serve(calls: seq<Call>)
      modifies this
      ensures Now() == Run(old(Now()), calls)
    {
      var i := 0;
      while i < |calls|
        invariant 0 <= i <= |calls|
        invariant Run(Now(), calls[i..]) == Run(old(Now()), calls)
      {
        assert calls[i..][1..] == calls[i + 1..];
        Execute(calls[i]);
        i := i + 1;
      }
    }
  }
}
