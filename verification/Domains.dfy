/** Custom domains: the DNS verification protocol and the lifecycle of a domain. */
module Domains {
  import opened Outcomes
  import Text

  // A call reads the domain row first and locks it later. Whatever it read is a parameter, `seen`,
  // so a run of these calls covers every interleaving of the reads with the locked updates.

  datatype Status = Pending | Verified | Active | Failed | Suspended | Revoked {

    predicate CanTransitionTo(to: Status) {
      this == to ||
      match this
      case Pending => to in {Verified, Failed, Revoked}
      case Verified => to in {Pending, Active, Revoked}
      case Active => to in {Suspended, Revoked}
      case Failed => to in {Pending, Verified, Revoked}
      case Suspended => to in {Active, Revoked}
      case Revoked => false
    }
  }

  /** SHA-256 as a collision-free digest. */
  datatype Digest = Digest(value: string)

  /** `verified` says that verified_at is set. */
  datatype Domain = Domain(
    tenant: nat, status: Status, digest: Digest, expiresAt: int, attempts: nat, verified: bool)

  /** `primary` is the primary_domain_id column of the tenants. */
  datatype State = State(domains: map<nat, Domain>, primary: map<nat, nat>, nextId: nat)

  datatype LookupStatus = RecordsFound | Missing | Empty | NxDomain | ServFail | TemporaryFailure | ResolverError {
    predicate IsRetryable() {
      this in {Missing, Empty, ServFail, TemporaryFailure, ResolverError}
    }
  }

  datatype Lookup = Lookup(status: LookupStatus, values: seq<string>, errorCode: Option<string>)

  datatype CheckResult = CheckResult(verified: bool, retryable: bool)

  function Put(st: State, id: nat, d: Domain): State {
    st.(domains := st.domains[id := d])
  }

  // The DNS check: the lookup ran outside the lock, for the challenge `expected`

  predicate Matches(values: seq<string>, digest: Digest) {
    exists i :: 0 <= i < |values| && Digest(Text.Trim(values[i])) == digest
  }

  function Failing(d: Domain, max: nat, retryable: bool): Domain {
    var willRetry := retryable && d.attempts + 1 < max;
    d.(status := if willRetry then Pending else Failed, attempts := d.attempts + 1)
  }

  predicate Retryable(lookup: Lookup) {
    lookup.status.IsRetryable() && lookup.errorCode != Some("invalid_hostname")
    && lookup.errorCode != Some("invalid_record_name")
  }

  predicate Fresh(st: State, id: nat, expected: Digest) {
    id in st.domains && st.domains[id].digest == expected && st.domains[id].status == Pending
  }

  function Checked(d: Domain, max: nat, lookup: Lookup, now: int): Domain {
    if d.expiresAt < now then Failing(d, max, false)
    else if lookup.status == RecordsFound then
      if Matches(lookup.values, d.digest) then d.(status := Verified, verified := true, attempts := d.attempts + 1)
      else Failing(d, max, false)
    else Failing(d, max, Retryable(lookup))
  }

  function Check(st: State, max: nat, id: nat, expected: Digest, lookup: Lookup, now: int): (State, CheckResult) {
    if !Fresh(st, id, expected) then (st, CheckResult(false, false))
    else
      var d := Checked(st.domains[id], max, lookup, now);
      (Put(st, id, d), CheckResult(d.status == Verified, d.status == Pending))
  }

  // The lifecycle

  function Create(st: State, tenant: nat, token: string, expiresAt: int): State {
    Put(st, st.nextId, Domain(tenant, Pending, Digest(token), expiresAt, 0, false)).(nextId := st.nextId + 1)
  }

  /** The locked row, when it may move to `to`. */
  function Movable(st: State, id: nat, to: Status): Result<Domain> {
    if id !in st.domains then Failure(NotFound)
    else if !st.domains[id].status.CanTransitionTo(to) then Failure(InvalidTransition)
    else Success(st.domains[id])
  }

  function Regenerate(st: State, id: nat, seen: Domain, token: string, expiresAt: int): Result<State> {
    if seen.status !in {Pending, Verified, Failed} then Failure(InvalidState)
    else
      var d :- Movable(st, id, Pending);
      Success(Put(st, id, d.(status := Pending, digest := Digest(token), expiresAt := expiresAt,
                             attempts := 0, verified := false)))
  }

  function RecordVerificationFailure(st: State, id: nat): Result<State> {
    var d :- Movable(st, id, Failed);
    Success(Put(st, id, d.(status := Failed, attempts := d.attempts + 1)))
  }

  /** The challenge is checked against the row that was read. */
  predicate Answers(seen: Domain, value: string, now: int) {
    seen.status in {Pending, Failed} && seen.expiresAt >= now && value != "" && Digest(value) == seen.digest
  }

  function MarkVerified(st: State, id: nat, seen: Domain, value: string, now: int): (State, Option<Error>) {
    if seen.status !in {Pending, Failed} then (st, Some(InvalidState))
    else if !Answers(seen, value, now) then
      match RecordVerificationFailure(st, id)
      case Success(st1) => (st1, Some(InvalidState))
      case Failure(e) => (st, Some(e))
    else
      match Movable(st, id, Verified)
      case Failure(e) => (st, Some(e))
      case Success(d) => (Put(st, id, d.(status := Verified, verified := true, attempts := d.attempts + 1)), None)
  }

  function Activate(st: State, id: nat, seen: Domain): Result<State> {
    if seen.status == Active then Success(st)
    else if seen.status !in {Verified, Suspended} || !seen.verified then Failure(InvalidState)
    else
      var d :- Movable(st, id, Active);
      Success(Put(st, id, d.(status := Active)))
  }

  /** clearPrimaryIf */
  function Dethroned(st: State, tenant: nat, id: nat): State {
    if tenant in st.primary && st.primary[tenant] == id then st.(primary := st.primary - {tenant}) else st
  }

  /** Suspending and revoking differ in the status only. */
  function Retire(st: State, id: nat, seen: Domain, to: Status): Result<State> {
    if seen.status == to then Success(st)
    else
      var d :- Movable(st, id, to);
      Success(Dethroned(Put(st, id, d.(status := to)), seen.tenant, id))
  }

  function SetPrimary(st: State, id: nat, seen: Domain): Result<State> {
    if seen.status != Active || !seen.verified then Failure(InvalidState)
    else if id !in st.domains then Failure(NotFound)
    else Success(st.(primary := st.primary[seen.tenant := id]))
  }

  function ClearPrimaryDomain(st: State, id: nat, seen: Domain): Result<State> {
    if id !in st.domains then Failure(NotFound) else Success(Dethroned(st, seen.tenant, id))
  }

  function RemovePendingDomain(st: State, id: nat, seen: Domain): Result<State> {
    if seen.status !in {Pending, Failed} then Failure(InvalidState)
    else if id !in st.domains then Failure(NotFound)
    else if st.domains[id].status !in {Pending, Failed} then Failure(InvalidState)
    else Success(st.(domains := st.domains - {id}))
  }

  // Runs

  datatype Call =
    | CallCreate(owner: nat, token: string, expiresAt: int)
    | CallRegenerate(id: nat, seen: Domain, token: string, expiresAt: int)
    | CallCheck(id: nat, expected: Digest, lookup: Lookup, now: int)
    | CallMarkVerified(id: nat, seen: Domain, value: string, now: int)
    | CallRecordFailure(id: nat)
    | CallActivate(id: nat, seen: Domain)
    | CallSuspend(id: nat, seen: Domain)
    | CallRevoke(id: nat, seen: Domain)
    | CallSetPrimary(id: nat, seen: Domain)
    | CallClearPrimary(id: nat, seen: Domain)
    | CallRemove(id: nat, seen: Domain)

  function Kept(st: State, r: Result<State>): State {
    if r.Success? then r.value else st
  }

  function Step(max: nat, st: State, c: Call): State {
    match c
    case CallCreate(owner, token, expiresAt) => Create(st, owner, token, expiresAt)
    case CallRegenerate(id, seen, token, expiresAt) => Kept(st, Regenerate(st, id, seen, token, expiresAt))
    case CallCheck(id, expected, lookup, now) => Check(st, max, id, expected, lookup, now).0
    case CallMarkVerified(id, seen, value, now) => MarkVerified(st, id, seen, value, now).0
    case CallRecordFailure(id) => Kept(st, RecordVerificationFailure(st, id))
    case CallActivate(id, seen) => Kept(st, Activate(st, id, seen))
    case CallSuspend(id, seen) => Kept(st, Retire(st, id, seen, Suspended))
    case CallRevoke(id, seen) => Kept(st, Retire(st, id, seen, Revoked))
    case CallSetPrimary(id, seen) => Kept(st, SetPrimary(st, id, seen))
    case CallClearPrimary(id, seen) => Kept(st, ClearPrimaryDomain(st, id, seen))
    case CallRemove(id, seen) => Kept(st, RemovePendingDomain(st, id, seen))
  }

  /** The state after a run that starts without domains; the limit is at least one, as max(1, ...) makes it. */
  function After(max: nat, calls: seq<Call>): State {
    if calls == [] then State(map[], map[], 0) else Step(max, After(max, calls[..|calls| - 1]), calls[|calls| - 1])
  }

  function Run(max: nat, st: State, calls: seq<Call>): State
    decreases calls
  {
    if calls == [] then st else Run(max, Step(max, st, calls[0]), calls[1..])
  }

  /** An object that has served some calls and then serves more has served them all. */
  lemma {:induction false} RunAfter(max: nat, served: seq<Call>, calls: seq<Call>)
    ensures Run(max, After(max, served), calls) == After(max, served + calls)
    decreases calls
  {
    if calls == [] {
      assert served + calls == served;
    } else {
      AfterSnoc(max, served, calls[0]);
      RunAfter(max, served + [calls[0]], calls[1..]);
      assert served + [calls[0]] + calls[1..] == served + calls;
    }
  }

  lemma AfterSnoc(max: nat, calls: seq<Call>, c: Call)
    ensures After(max, calls + [c]) == Step(max, After(max, calls), c)
  {
    assert (calls + [c])[..|calls|] == calls;
  }

  // What each call leaves behind, whatever row it read

  /** The transitions, and staying put. */
  lemma TransitionsAre(from: Status, to: Status)
    ensures from.CanTransitionTo(to) <==>
              || from == to
              || (to == Revoked)
              || (to == Verified && from in {Pending, Failed})
              || (to == Failed && from == Pending)
              || (to == Pending && from in {Verified, Failed})
              || (to == Active && from in {Verified, Suspended})
              || (to == Suspended && from == Active)
  {
  }

  /** Only the row of `id` was written. */
  predicate WritesRow(st: State, st1: State, id: nat, d: Domain) {
    st1 == State(st.domains[id := d], st.primary, st.nextId)
  }

  /** The tenant's primary domain was given up if it was `id`, and every other tenant keeps its own. */
  predicate GivesUpPrimary(st: State, st1: State, tenant: nat, id: nat) {
    st1.primary == if tenant in st.primary && st.primary[tenant] == id then st.primary - {tenant} else st.primary
  }

  lemma CreateLeaves(max: nat, st: State, owner: nat, token: string, expiresAt: int)
    ensures Step(max, st, CallCreate(owner, token, expiresAt))
         == State(st.domains[st.nextId := Domain(owner, Pending, Digest(token), expiresAt, 0, false)], st.primary, st.nextId + 1)
  {
  }

  /** A new challenge starts over: pending, unverified, no attempts. */
  lemma RegenerateLeaves(max: nat, st: State, id: nat, seen: Domain, token: string, expiresAt: int)
    requires id in st.domains
    ensures var st1 := Step(max, st, CallRegenerate(id, seen, token, expiresAt)); var d := st.domains[id];
            if seen.status in {Pending, Verified, Failed} && d.status in {Pending, Verified, Failed}
            then WritesRow(st, st1, id, Domain(d.tenant, Pending, Digest(token), expiresAt, 0, false))
            else st1 == st
  {
  }

  /** A check counts an attempt, and is over when it was answered, came too late, was answered wrongly, or was the last. */
  lemma CheckLeaves(max: nat, st: State, id: nat, expected: Digest, lookup: Lookup, now: int)
    requires id in st.domains
    ensures var st1 := Step(max, st, CallCheck(id, expected, lookup, now)); var d := st.domains[id];
            var answered := lookup.status == RecordsFound
                            && exists i :: 0 <= i < |lookup.values| && Digest(Text.Trim(lookup.values[i])) == d.digest;
            var again := d.expiresAt >= now && lookup.status in {Missing, Empty, ServFail, TemporaryFailure, ResolverError}
                         && lookup.errorCode !in {Some("invalid_hostname"), Some("invalid_record_name")} && d.attempts + 1 < max;
            if d.digest != expected || d.status != Pending then st1 == st
            else if d.expiresAt >= now && answered
            then WritesRow(st, st1, id, d.(status := Verified, verified := true, attempts := d.attempts + 1))
            else WritesRow(st, st1, id, d.(status := if again then Pending else Failed, attempts := d.attempts + 1))
  {
  }

  /** Manual verification: the right answer in time verifies, any other counts as a failure. */
  lemma MarkVerifiedLeaves(max: nat, st: State, id: nat, seen: Domain, value: string, now: int)
    requires id in st.domains
    ensures var st1 := Step(max, st, CallMarkVerified(id, seen, value, now)); var d := st.domains[id];
            var right := seen.expiresAt >= now && value != "" && Digest(value) == seen.digest;
            if seen.status !in {Pending, Failed} then st1 == st
            else if right && d.status in {Pending, Failed, Verified}
            then WritesRow(st, st1, id, d.(status := Verified, verified := true, attempts := d.attempts + 1))
            else if !right && d.status in {Pending, Failed}
            then WritesRow(st, st1, id, d.(status := Failed, attempts := d.attempts + 1))
            else st1 == st
  {
  }

  lemma RecordFailureLeaves(max: nat, st: State, id: nat)
    requires id in st.domains
    ensures var st1 := Step(max, st, CallRecordFailure(id)); var d := st.domains[id];
            if d.status in {Pending, Failed} then WritesRow(st, st1, id, d.(status := Failed, attempts := d.attempts + 1))
            else st1 == st
  {
  }

  /** Activating needs a verified row that was read as verified or suspended, and a locked row that is so too. */
  lemma ActivateLeaves(max: nat, st: State, id: nat, seen: Domain)
    requires id in st.domains
    ensures var st1 := Step(max, st, CallActivate(id, seen)); var d := st.domains[id];
            if seen.status in {Verified, Suspended} && seen.verified && d.status in {Verified, Suspended, Active}
            then WritesRow(st, st1, id, d.(status := Active))
            else st1 == st
  {
  }

  /** Suspending an active domain suspends it, and its tenant has it no longer as primary. */
  lemma SuspendLeaves(max: nat, st: State, id: nat, seen: Domain)
    requires id in st.domains
    ensures var st1 := Step(max, st, CallSuspend(id, seen)); var d := st.domains[id];
            if seen.status != Suspended && d.status in {Active, Suspended}
            then st1.domains == st.domains[id := d.(status := Suspended)] && st1.nextId == st.nextId
                 && GivesUpPrimary(st, st1, seen.tenant, id)
            else st1 == st
  {
  }

  /** Revoking revokes a domain in whatever state it is, and its tenant has it no longer as primary. */
  lemma RevokeLeaves(max: nat, st: State, id: nat, seen: Domain)
    requires id in st.domains
    ensures var st1 := Step(max, st, CallRevoke(id, seen)); var d := st.domains[id];
            if seen.status != Revoked
            then st1.domains == st.domains[id := d.(status := Revoked)] && st1.nextId == st.nextId
                 && GivesUpPrimary(st, st1, seen.tenant, id)
            else st1 == st
  {
  }

  /** On a current read every domain that is not revoked yet is revoked, and is nobody's primary of its tenant. */
  lemma RevokedForGood(max: nat, st: State, id: nat)
    requires id in st.domains
    ensures var d := st.domains[id]; var st1 := Step(max, st, CallRevoke(id, d));
            && id in st1.domains && st1.domains[id] == d.(status := Revoked)
            && (d.status != Revoked ==> !(d.tenant in st1.primary && st1.primary[d.tenant] == id))
            && (forall j :: j in st.domains && j != id ==> j in st1.domains && st1.domains[j] == st.domains[j])
            && (forall t :: t in st.primary && t != d.tenant ==> t in st1.primary && st1.primary[t] == st.primary[t])
  {
    RevokeLeaves(max, st, id, st.domains[id]);
  }

  /** The tenant's primary domain is set, exactly when the row was read as active and verified. */
  lemma SetPrimaryLeaves(max: nat, st: State, id: nat, seen: Domain)
    requires id in st.domains
    ensures Step(max, st, CallSetPrimary(id, seen))
         == if seen.status == Active && seen.verified then State(st.domains, st.primary[seen.tenant := id], st.nextId) else st
  {
  }

  lemma ClearPrimaryLeaves(max: nat, st: State, id: nat, seen: Domain)
    requires id in st.domains
    ensures var st1 := Step(max, st, CallClearPrimary(id, seen));
            st1.domains == st.domains && st1.nextId == st.nextId && GivesUpPrimary(st, st1, seen.tenant, id)
  {
  }

  /** A domain is removed exactly when it was read as pending or failed and still is. */
  lemma RemoveLeaves(max: nat, st: State, id: nat, seen: Domain)
    requires id in st.domains
    ensures Step(max, st, CallRemove(id, seen))
         == if seen.status in {Pending, Failed} && st.domains[id].status in {Pending, Failed}
            then State(st.domains - {id}, st.primary, st.nextId) else st
  {
  }

  /** Which calls end in an exception; suspending or activating what was read as such already does not. */
  lemma RefusedIff(st: State, id: nat, seen: Domain, token: string, value: string, expiresAt: int, now: int)
    requires id in st.domains
    ensures var d := st.domains[id];
            && (Regenerate(st, id, seen, token, expiresAt).Failure? <==>
                  seen.status !in {Pending, Verified, Failed} || d.status !in {Pending, Verified, Failed})
            && (Activate(st, id, seen).Failure? <==>
                  && seen.status != Active
                  && (seen.status !in {Verified, Suspended} || !seen.verified || d.status !in {Verified, Suspended, Active}))
            && (Retire(st, id, seen, Suspended).Failure? <==> seen.status != Suspended && d.status !in {Active, Suspended})
            && Retire(st, id, seen, Revoked).Success? && ClearPrimaryDomain(st, id, seen).Success?
            && (SetPrimary(st, id, seen).Failure? <==> seen.status != Active || !seen.verified)
            && (RemovePendingDomain(st, id, seen).Failure? <==>
                  seen.status !in {Pending, Failed} || d.status !in {Pending, Failed})
            && (RecordVerificationFailure(st, id).Failure? <==> d.status !in {Pending, Failed})
            && (MarkVerified(st, id, seen, value, now).1 == None <==>
                  && seen.status in {Pending, Failed} && seen.expiresAt >= now && value != "" && Digest(value) == seen.digest
                  && d.status in {Pending, Failed, Verified})
  {
  }

  /** Calls on a domain that is gone change nothing. */
  lemma MissingDomainKept(max: nat, st: State, c: Call)
    requires !c.CallCreate? && c.id !in st.domains
    ensures Step(max, st, c) == st
  {
  }

  // Status changes

  /** Whatever was read, every status change is an allowed transition, and only pending or failed domains go. */
  lemma StatusFollowsTransitions(max: nat, st: State, c: Call, id: nat)
    requires id in st.domains && id < st.nextId
    ensures var st1 := Step(max, st, c);
            if id in st1.domains
            then st.domains[id].status.CanTransitionTo(st1.domains[id].status) && st1.domains[id].tenant == st.domains[id].tenant
            else st.domains[id].status in {Pending, Failed}
  {
  }

  predicate RowSound(max: nat, d: Domain) {
    && (d.status == Pending ==> d.attempts < max && !d.verified)
    && (d.status == Failed ==> !d.verified)
    && (d.status in {Verified, Active, Suspended} ==> d.verified)
  }

  /** What holds of every row, in any interleaving. */
  predicate RowsSound(max: nat, st: State) {
    forall id :: id in st.domains ==> id < st.nextId && RowSound(max, st.domains[id])
  }

  /** A call writes at most one row. */
  lemma StepWritesOne(max: nat, st: State, c: Call, id: nat)
    requires id in Step(max, st, c).domains
    requires c.CallCreate? || c.id != id
    ensures (c.CallCreate? && id == st.nextId) || (id in st.domains && Step(max, st, c).domains[id] == st.domains[id])
  {
  }

  lemma StepKeepsRow(max: nat, st: State, c: Call)
    requires max >= 1 && RowsSound(max, st) && !c.CallCreate? && c.id in Step(max, st, c).domains
    ensures RowSound(max, Step(max, st, c).domains[c.id]) && c.id in st.domains
  {
    assert c.id in st.domains;
    assert RowSound(max, st.domains[c.id]);
  }

  lemma StepKeepsRows(max: nat, st: State, c: Call)
    requires max >= 1 && RowsSound(max, st)
    ensures RowsSound(max, Step(max, st, c)) && st.nextId <= Step(max, st, c).nextId
  {
    var st1 := Step(max, st, c);
    assert st1.nextId == if c.CallCreate? then st.nextId + 1 else st.nextId;
    forall id | id in st1.domains ensures id < st1.nextId && RowSound(max, st1.domains[id]) {
      if !c.CallCreate? && c.id == id {
        StepKeepsRow(max, st, c);
      } else {
        StepWritesOne(max, st, c, id);
      }
    }
  }

  /** Pending always leaves an attempt, and only verified domains are ever active, whatever was read. */
  lemma {:induction false} RowsStaySound(max: nat, calls: seq<Call>)
    requires max >= 1
    ensures RowsSound(max, After(max, calls))
  {
    if calls != [] {
      RowsStaySound(max, calls[..|calls| - 1]);
      StepKeepsRows(max, After(max, calls[..|calls| - 1]), calls[|calls| - 1]);
    }
  }

  /** A revoked domain stays revoked through every later call. */
  lemma {:induction false} RevokedIsFinal(max: nat, calls: seq<Call>, more: seq<Call>, id: nat)
    requires max >= 1 && id in After(max, calls).domains && After(max, calls).domains[id].status == Revoked
    ensures var end := After(max, calls + more); id in end.domains && end.domains[id].status == Revoked
  {
    if more == [] {
      assert calls + more == calls;
    } else {
      var n := |more| - 1;
      assert (calls + more)[..|calls + more| - 1] == calls + more[..n];
      RevokedIsFinal(max, calls, more[..n], id);
      RowsStaySound(max, calls + more[..n]);
      StatusFollowsTransitions(max, After(max, calls + more[..n]), more[n], id);
    }
  }

  // Primary domains

  /** The tenant's primary domain is its own, active and verified. */
  predicate PrimarySafe(st: State, t: nat) {
    t in st.primary ==>
      var id := st.primary[t];
      id in st.domains && st.domains[id].tenant == t && st.domains[id].status == Active && st.domains[id].verified
  }

  predicate WritesPrimary(c: Call) {
    c.CallSetPrimary? || c.CallSuspend? || c.CallRevoke?
  }

  /** The row that the call passes on as `seen` was read at some earlier point of the run. */
  ghost predicate WasRead(max: nat, calls: seq<Call>, c: Call)
    requires WritesPrimary(c)
  {
    exists n :: 0 <= n <= |calls| && c.id in After(max, calls[..n]).domains && c.seen == After(max, calls[..n]).domains[c.id]
  }

  ghost predicate ReadRun(max: nat, calls: seq<Call>) {
    calls == [] ||
    var earlier, c := calls[..|calls| - 1], calls[|calls| - 1];
    ReadRun(max, earlier) && (WritesPrimary(c) ==> WasRead(max, earlier, c))
  }

  /** A domain never changes hands, and the id of a removed one is not used again. */
  lemma {:induction false} TenantsStay(max: nat, calls: seq<Call>, more: seq<Call>, id: nat)
    requires max >= 1 && id in After(max, calls).domains
    ensures var end := After(max, calls + more);
            id < end.nextId && (id in end.domains ==> end.domains[id].tenant == After(max, calls).domains[id].tenant)
  {
    if more == [] {
      assert calls + more == calls;
      RowsStaySound(max, calls);
    } else {
      var n := |more| - 1;
      var before := After(max, calls + more[..n]);
      assert calls + more == calls + more[..n] + [more[n]];
      AfterSnoc(max, calls + more[..n], more[n]);
      TenantsStay(max, calls, more[..n], id);
      RowsStaySound(max, calls + more[..n]);
      StepKeepsRows(max, before, more[n]);
      if id in Step(max, before, more[n]).domains {
        if !Issues(before, more[n], id) {
          StepDrawsIds(max, before, more[n], id);
        }
        StatusFollowsTransitions(max, before, more[n], id);
      }
    }
  }

  /** However stale, a row that was read names the tenant of the row that is locked. */
  lemma ReadsNameTheirTenant(max: nat, calls: seq<Call>, c: Call)
    requires max >= 1 && WritesPrimary(c) && WasRead(max, calls, c) && c.id in After(max, calls).domains
    ensures After(max, calls).domains[c.id].tenant == c.seen.tenant
  {
    var n :| 0 <= n <= |calls| && c.id in After(max, calls[..n]).domains && c.seen == After(max, calls[..n]).domains[c.id];
    assert calls[..n] + calls[n..] == calls;
    TenantsStay(max, calls[..n], calls[n..], c.id);
  }

  /** The call makes a domain the tenant's primary one. */
  predicate Crowns(st: State, c: Call, t: nat) {
    c.CallSetPrimary? && c.seen.tenant == t && SetPrimary(st, c.id, c.seen).Success?
  }

  /** The last call that did so found the locked row no longer active, and did not look. */
  predicate Misplaced(max: nat, calls: seq<Call>, t: nat) {
    calls != [] &&
    var before, c := After(max, calls[..|calls| - 1]), calls[|calls| - 1];
    if Crowns(before, c, t) then before.domains[c.id].status != Active else Misplaced(max, calls[..|calls| - 1], t)
  }

  lemma StepKeepsPrimary(max: nat, st: State, c: Call, t: nat)
    requires max >= 1 && RowsSound(max, st) && !Crowns(st, c, t) && PrimarySafe(st, t)
    requires WritesPrimary(c) && c.id in st.domains ==> st.domains[c.id].tenant == c.seen.tenant
    ensures PrimarySafe(Step(max, st, c), t)
  {
  }

  /**
   In any interleaving a tenant's primary domain is its own, active and verified, unless the last
   setPrimary() of that tenant chose a domain that had left Active since it was read.
   */
  lemma {:induction false} PrimariesStaySafe(max: nat, calls: seq<Call>, t: nat)
    requires max >= 1 && ReadRun(max, calls)
    ensures PrimarySafe(After(max, calls), t) || Misplaced(max, calls, t)
  {
    if calls != [] {
      var earlier, c := calls[..|calls| - 1], calls[|calls| - 1];
      PrimariesStaySafe(max, earlier, t);
      RowsStaySound(max, earlier);
      if WritesPrimary(c) && c.id in After(max, earlier).domains {
        ReadsNameTheirTenant(max, earlier, c);
      }
      if Crowns(After(max, earlier), c, t) {
        SetPrimarySafeIffStillActive(max, After(max, earlier), c.id, c.seen);
      } else if PrimarySafe(After(max, earlier), t) {
        StepKeepsPrimary(max, After(max, earlier), c, t);
      }
    }
  }

  /** setPrimary() leaves its tenant safe if and only if the locked row is that tenant's and still active. */
  lemma SetPrimarySafeIffStillActive(max: nat, st: State, id: nat, seen: Domain)
    requires max >= 1 && RowsSound(max, st) && SetPrimary(st, id, seen).Success?
    ensures PrimarySafe(SetPrimary(st, id, seen).value, seen.tenant)
        <==> st.domains[id].tenant == seen.tenant && st.domains[id].status == Active
  {
    assert SetPrimary(st, id, seen).value.primary[seen.tenant] == id;
  }

  lemma ActivatedRun(tenant: nat, token: string, pending: Domain, active: Domain)
    requires token != ""
    requires pending == Domain(tenant, Pending, Digest(token), 0, 0, false)
    requires active == Domain(tenant, Active, Digest(token), 0, 1, true)
    ensures After(2, [CallCreate(tenant, token, 0), CallMarkVerified(0, pending, token, 0),
                      CallActivate(0, active.(status := Verified))])
         == State(map[0 := active], map[], 1)
  {
    var create, mark := CallCreate(tenant, token, 0), CallMarkVerified(0, pending, token, 0);
    var activate := CallActivate(0, active.(status := Verified));
    AfterSnoc(2, [], create);
    AfterSnoc(2, [create], mark);
    AfterSnoc(2, [create, mark], activate);
    assert [] + [create] == [create] && [create] + [mark] == [create, mark];
    assert [create, mark] + [activate] == [create, mark, activate];
    assert After(2, [create]) == State(map[0 := pending], map[], 1);
    assert After(2, [create, mark]) == State(map[0 := active.(status := Verified)], map[], 1);
  }

  /** Read as active, suspended by someone else, then made primary all the same. */
  lemma SuspendedPrimary(tenant: nat, token: string)
    requires token != ""
    ensures var pending := Domain(tenant, Pending, Digest(token), 0, 0, false);
            var active := Domain(tenant, Active, Digest(token), 0, 1, true);
            var calls := [CallCreate(tenant, token, 0), CallMarkVerified(0, pending, token, 0),
                          CallActivate(0, active.(status := Verified))] + [CallSuspend(0, active)];
            && PrimarySafe(After(2, calls), tenant)
            && !PrimarySafe(After(2, calls + [CallSetPrimary(0, active)]), tenant)
  {
    var pending := Domain(tenant, Pending, Digest(token), 0, 0, false);
    var active := Domain(tenant, Active, Digest(token), 0, 1, true);
    var calls := [CallCreate(tenant, token, 0), CallMarkVerified(0, pending, token, 0),
                  CallActivate(0, active.(status := Verified))];
    ActivatedRun(tenant, token, pending, active);
    AfterSnoc(2, calls, CallSuspend(0, active));
    AfterSnoc(2, calls + [CallSuspend(0, active)], CallSetPrimary(0, active));
    assert After(2, calls + [CallSuspend(0, active)]) == State(map[0 := active.(status := Suspended)], map[], 1);
  }

  // Verification

  /** A new challenge was issued for the domain. */
  predicate Issues(st: State, c: Call, id: nat) {
    match c
    case CallCreate(_, _, _) => id == st.nextId
    case CallRegenerate(i, seen, token, expiresAt) => i == id && Regenerate(st, id, seen, token, expiresAt).Success?
    case _ => false
  }

  /** The current challenge was answered in time: over DNS while pending, or by hand. */
  predicate Presents(st: State, c: Call, id: nat) {
    id in st.domains &&
    match c
    case CallCheck(i, expected, lookup, now) =>
      && i == id && Fresh(st, id, expected) && st.domains[id].expiresAt >= now
      && lookup.status == RecordsFound && Matches(lookup.values, st.domains[id].digest)
    case CallMarkVerified(i, seen, value, now) =>
      && i == id && Answers(seen, value, now) && Digest(value) == st.domains[id].digest
      && st.domains[id].status in {Pending, Failed, Verified}
    case _ => false
  }

  /** The last challenge issued for the domain has been answered since. */
  predicate Proven(max: nat, calls: seq<Call>, id: nat) {
    calls != [] &&
    var before, c := After(max, calls[..|calls| - 1]), calls[|calls| - 1];
    !Issues(before, c, id) && (Presents(before, c, id) || Proven(max, calls[..|calls| - 1], id))
  }

  /** markVerified(), which does not look again, took the answer to a challenge that was replaced since it was read. */
  predicate AcceptsStale(st: State, c: Call, id: nat) {
    c.CallMarkVerified? && c.id == id && MarkVerified(st, id, c.seen, c.value, c.now).1 == None
    && st.domains[id].digest != c.seen.digest
  }

  /** That happened to the domain since its last challenge was issued. */
  predicate Mistaken(max: nat, calls: seq<Call>, id: nat) {
    calls != [] &&
    var before, c := After(max, calls[..|calls| - 1]), calls[|calls| - 1];
    !Issues(before, c, id) && (AcceptsStale(before, c, id) || Mistaken(max, calls[..|calls| - 1], id))
  }

  lemma StepProves(max: nat, st: State, c: Call, id: nat)
    requires max >= 1 && RowsSound(max, st) && id in Step(max, st, c).domains
    ensures var d1 := Step(max, st, c).domains[id];
            d1.verified <==>
              !Issues(st, c, id)
              && (Presents(st, c, id) || AcceptsStale(st, c, id) || (id in st.domains && st.domains[id].verified))
  {
  }

  /** No row exists for an id that was not yet drawn, and removed ids stay unused. */
  lemma StepDrawsIds(max: nat, st: State, c: Call, id: nat)
    requires id in Step(max, st, c).domains && !Issues(st, c, id)
    ensures id in st.domains
  {
  }

  /**
   In any interleaving a domain is marked verified if and only if its current challenge was
   answered, or markVerified() mistook the answer to an older one for it.
   */
  lemma {:induction false} VerifiedIffProven(max: nat, calls: seq<Call>, id: nat)
    requires max >= 1 && id in After(max, calls).domains
    ensures After(max, calls).domains[id].verified <==> Proven(max, calls, id) || Mistaken(max, calls, id)
  {
    if calls != [] {
      var before, c := After(max, calls[..|calls| - 1]), calls[|calls| - 1];
      RowsStaySound(max, calls[..|calls| - 1]);
      StepProves(max, before, c, id);
      if !Issues(before, c, id) {
        StepDrawsIds(max, before, c, id);
        VerifiedIffProven(max, calls[..|calls| - 1], id);
      }
    }
  }

  /** So a domain is active on a challenge that nobody answered only after such a mistake. */
  lemma ActiveDomainsAreProven(max: nat, calls: seq<Call>, id: nat)
    requires max >= 1 && id in After(max, calls).domains
    requires After(max, calls).domains[id].status in {Verified, Active, Suspended}
    ensures Proven(max, calls, id) || Mistaken(max, calls, id)
  {
    RowsStaySound(max, calls);
    VerifiedIffProven(max, calls, id);
  }

  /** markVerified() compares with the row it read: sound if and only if that challenge is still current. */
  lemma MarkVerifiedSoundIffStillCurrent(st: State, id: nat, seen: Domain, value: string, now: int)
    requires MarkVerified(st, id, seen, value, now).1 == None
    ensures Presents(st, CallMarkVerified(id, seen, value, now), id) <==> st.domains[id].digest == seen.digest
  {
  }

  /** Calls that run one after the other lock what they read, and make neither mistake. */
  lemma CurrentReadsAreSafe(max: nat, calls: seq<Call>, c: Call, t: nat, id: nat)
    requires c.CallMarkVerified? || WritesPrimary(c)
    requires c.id in After(max, calls).domains && c.seen == After(max, calls).domains[c.id]
    ensures !AcceptsStale(After(max, calls), c, id)
    ensures WritesPrimary(c) ==> WasRead(max, calls, c)
    ensures Crowns(After(max, calls), c, t) ==> After(max, calls).domains[c.id].status == Active
  {
    assert calls[..|calls|] == calls;
  }

  /** The old challenge, read before it was replaced, verifies the domain on the new one. */
  lemma ReplacedChallengeStillVerifies(tenant: nat, first: string, second: string)
    requires first != "" && first != second
    ensures var seen := Domain(tenant, Pending, Digest(first), 0, 0, false);
            var calls := [CallCreate(tenant, first, 0), CallRegenerate(0, seen, second, 0),
                          CallMarkVerified(0, seen, first, 0)];
            var end := After(2, calls);
            && 0 in end.domains && end.domains[0] == Domain(tenant, Verified, Digest(second), 0, 1, true)
            && Mistaken(2, calls, 0) && !Proven(2, calls, 0)
  {
    var seen := Domain(tenant, Pending, Digest(first), 0, 0, false);
    var create, again, mark := CallCreate(tenant, first, 0), CallRegenerate(0, seen, second, 0), CallMarkVerified(0, seen, first, 0);
    AfterSnoc(2, [], create);
    AfterSnoc(2, [create], again);
    AfterSnoc(2, [create, again], mark);
    assert [] + [create] == [create] && [create] + [again] == [create, again];
    assert [create, again] + [mark] == [create, again, mark] && [create, again, mark][..2] == [create, again];
    assert [create, again][..1] == [create];
    assert Issues(After(2, [create]), again, 0);
  }

  /** The check verifies a domain if and only if it is pending on that very challenge, in time, and answered. */
  lemma CheckVerifiesIff(st: State, max: nat, id: nat, expected: Digest, lookup: Lookup, now: int)
    requires id in st.domains
    ensures var (st1, r) := Check(st, max, id, expected, lookup, now);
            && (r.verified <==> Presents(st, CallCheck(id, expected, lookup, now), id))
            && (st.domains[id].status != Verified ==>
                  (id in st1.domains && st1.domains[id].status == Verified <==> r.verified))
            && (r.retryable ==> st1.domains[id].status == Pending && st1.domains[id].attempts == st.domains[id].attempts + 1)
  {
  }

  // Stale checks

  /** No challenge issued by the calls uses this token. */
  predicate Avoids(calls: seq<Call>, token: string) {
    forall i :: 0 <= i < |calls| ==> (calls[i].CallCreate? || calls[i].CallRegenerate? ==> calls[i].token != token)
  }

  lemma StepKeepsDigest(max: nat, st: State, c: Call, id: nat, digest: Digest)
    requires c.CallCreate? || c.CallRegenerate? ==> c.token != digest.value
    requires id in st.domains ==> st.domains[id].digest != digest
    ensures id in Step(max, st, c).domains ==> Step(max, st, c).domains[id].digest != digest
  {
  }

  lemma {:induction false} OldDigestNeverReturns(max: nat, calls: seq<Call>, more: seq<Call>, id: nat, digest: Digest)
    requires max >= 1 && Avoids(more, digest.value)
    requires id in After(max, calls).domains ==> After(max, calls).domains[id].digest != digest
    ensures var end := After(max, calls + more); id in end.domains ==> end.domains[id].digest != digest
  {
    if more == [] {
      assert calls + more == calls;
    } else {
      var n := |more| - 1;
      assert (calls + more)[..|calls + more| - 1] == calls + more[..n];
      assert more[n] == (calls + more)[|calls + more| - 1];
      OldDigestNeverReturns(max, calls, more[..n], id, digest);
      StepKeepsDigest(max, After(max, calls + more[..n]), more[n], id, digest);
    }
  }

  /**
   A check that started before the challenge was regenerated changes nothing, however the run went
   on, as long as random tokens do not repeat.
   */
  lemma StaleChecksAreHarmless(max: nat, calls: seq<Call>, regenerate: Call, more: seq<Call>, id: nat,
                               lookup: Lookup, now: int)
    requires max >= 1 && id in After(max, calls).domains
    requires regenerate.CallRegenerate? && regenerate.id == id && Issues(After(max, calls), regenerate, id)
    requires Avoids([regenerate] + more, After(max, calls).domains[id].digest.value)
    ensures var started := After(max, calls).domains[id].digest;
            var end := After(max, calls + [regenerate] + more);
            Check(end, max, id, started, lookup, now) == (end, CheckResult(false, false))
  {
    var started := After(max, calls).domains[id].digest;
    assert (calls + [regenerate])[..|calls|] == calls && (calls + [regenerate])[|calls|] == regenerate;
    assert ([regenerate] + more)[0] == regenerate;
    forall i | 0 <= i < |more| && (more[i].CallCreate? || more[i].CallRegenerate?)
      ensures more[i].token != started.value
    {
      assert ([regenerate] + more)[i + 1] == more[i];
    }
    OldDigestNeverReturns(max, calls + [regenerate], more, id, started);
  }

  // Retries

  /** How many checks of the current challenge were carried out. */
  function Tries(max: nat, calls: seq<Call>, id: nat): nat {
    if calls == [] then 0
    else
      var before, c := After(max, calls[..|calls| - 1]), calls[|calls| - 1];
      if Issues(before, c, id) then 0
      else Tries(max, calls[..|calls| - 1], id) + (if c.CallCheck? && c.id == id && Fresh(before, id, c.expected) then 1 else 0)
  }

  lemma StepCountsTry(max: nat, st: State, c: Call, id: nat)
    requires id in st.domains && id in Step(max, st, c).domains && !Issues(st, c, id)
    ensures Step(max, st, c).domains[id].attempts
         >= st.domains[id].attempts + (if c.CallCheck? && c.id == id && Fresh(st, id, c.expected) then 1 else 0)
  {
  }

  lemma {:induction false} TriesAreCounted(max: nat, calls: seq<Call>, id: nat)
    requires max >= 1 && id in After(max, calls).domains
    ensures Tries(max, calls, id) <= After(max, calls).domains[id].attempts
  {
    if calls != [] {
      var before, c := After(max, calls[..|calls| - 1]), calls[|calls| - 1];
      if !Issues(before, c, id) {
        StepDrawsIds(max, before, c, id);
        StepCountsTry(max, before, c, id);
        TriesAreCounted(max, calls[..|calls| - 1], id);
      }
    }
  }

  /** Retries end: while a challenge is pending, fewer than the configured number of checks ran on it. */
  lemma RetriesEnd(max: nat, calls: seq<Call>, id: nat)
    requires max >= 1 && id in After(max, calls).domains && After(max, calls).domains[id].status == Pending
    ensures Tries(max, calls, id) < max
  {
    RowsStaySound(max, calls);
    TriesAreCounted(max, calls, id);
  }
}

/** The domain services as they run: the row is checked again, or not, and updated under the lock. */
module DomainService {
  import opened Outcomes
  import opened Domains
  import Text

  predicate Ends(before: State, r: Result<State>, outcome: Outcome, after: State) {
    match r
    case Success(st) => outcome == Done && after == st
    case Failure(e) => outcome == Thrown(e) && after == before
  }

  class Service {
    const maxAttempts: nat
    var domains: map<nat, Domain>
    var primary: map<nat, nat>
    var nextId: nat

    /** max(1, config) */
    constructor (configured: int)
      ensures maxAttempts >= 1 && Now() == State(map[], map[], 0)
    {
      maxAttempts := if configured < 1 then 1 else configured;
      domains, primary, nextId := map[], map[], 0;
    }

    function Now(): State
      reads this
    {
      State(domains, primary, nextId)
    }

    method CreatePendingDomain(tenant: nat, token: string, expiresAt: int) returns (id: nat)
      modifies this
      ensures id == old(nextId) && Now() == Create(old(Now()), tenant, token, expiresAt)
    {
      id := nextId;
      domains := domains[id := Domain(tenant, Pending, Digest(token), expiresAt, 0, false)];
      nextId := nextId + 1;
    }

    method RegenerateVerificationChallenge(id: nat, seen: Domain, token: string, expiresAt: int) returns (outcome: Outcome)
      modifies this
      ensures Ends(old(Now()), Regenerate(old(Now()), id, seen, token, expiresAt), outcome, Now())
    {
      if seen.status !in {Pending, Verified, Failed} {
        return Thrown(InvalidState);
      }
      outcome := AssertTransition(id, Pending);
      if outcome.Thrown? {
        return;
      }
      domains := domains[id := domains[id].(status := Pending, digest := Digest(token), expiresAt := expiresAt,
                                            attempts := 0, verified := false)];
    }

    method AssertTransition(id: nat, to: Status) returns (outcome: Outcome)
      ensures outcome == match Movable(Now(), id, to) case Success(_) => Done case Failure(e) => Thrown(e)
    {
      if id !in domains {
        return Thrown(NotFound);
      }
      return if domains[id].status.CanTransitionTo(to) then Done else Thrown(InvalidTransition);
    }

    /** The part of the DNS check that runs under the lock. */
    method FinishCheck(id: nat, expected: Digest, lookup: Lookup, now: int) returns (result: CheckResult)
      modifies this
      ensures (Now(), result) == Check(old(Now()), maxAttempts, id, expected, lookup, now)
    {
      if id !in domains || domains[id].digest != expected || domains[id].status != Pending {
        return CheckResult(false, false);
      }
      if domains[id].expiresAt < now {
        result := RecordFailure(id, false);
        return;
      }
      if lookup.status != RecordsFound {
        result := RecordFailure(id, Retryable(lookup) && domains[id].attempts + 1 < maxAttempts);
        return;
      }
      var i := 0;
      while i < |lookup.values|
        invariant 0 <= i <= |lookup.values| && Now() == old(Now())
        invariant forall j :: 0 <= j < i ==> Digest(Text.Trim(lookup.values[j])) != domains[id].digest
      {
        if Digest(Text.Trim(lookup.values[i])) == domains[id].digest {
          domains := domains[id := domains[id].(status := Verified, verified := true, attempts := domains[id].attempts + 1)];
          return CheckResult(true, false);
        }
        i := i + 1;
      }
      result := RecordFailure(id, false);
    }

    method RecordFailure(id: nat, retryable: bool) returns (result: CheckResult)
      requires id in domains
      modifies this`domains
      ensures Now() == Put(old(Now()), id, Failing(old(domains[id]), maxAttempts, retryable))
      ensures result == CheckResult(false, Failing(old(domains[id]), maxAttempts, retryable).status == Pending)
    {
      var attempts := domains[id].attempts + 1;
      var willRetry := retryable && attempts < maxAttempts;
      domains := domains[id := domains[id].(status := if willRetry then Pending else Failed, attempts := attempts)];
      return CheckResult(false, willRetry);
    }

    method RecordVerificationFailure(id: nat) returns (outcome: Outcome)
      modifies this
      ensures Ends(old(Now()), Domains.RecordVerificationFailure(old(Now()), id), outcome, Now())
    {
      outcome := AssertTransition(id, Failed);
      if outcome.Done? {
        domains := domains[id := domains[id].(status := Failed, attempts := domains[id].attempts + 1)];
      }
    }

    method MarkVerified(id: nat, seen: Domain, value: string, now: int) returns (outcome: Outcome)
      modifies this
      ensures var (st, thrown) := Domains.MarkVerified(old(Now()), id, seen, value, now);
              Now() == st && outcome == if thrown.Some? then Thrown(thrown.value) else Done
    {
      if seen.status !in {Pending, Failed} {
        return Thrown(InvalidState);
      }
      if seen.expiresAt < now || value == "" || Digest(value) != seen.digest {
        outcome := RecordVerificationFailure(id);
        return if outcome.Thrown? then outcome else Thrown(InvalidState);
      }
      outcome := AssertTransition(id, Verified);
      if outcome.Done? {
        domains := domains[id := domains[id].(status := Verified, verified := true, attempts := domains[id].attempts + 1)];
      }
    }

    method Activate(id: nat, seen: Domain) returns (outcome: Outcome)
      modifies this
      ensures Ends(old(Now()), Domains.Activate(old(Now()), id, seen), outcome, Now())
    {
      if seen.status == Active {
        return Done;
      }
      if seen.status !in {Verified, Suspended} || !seen.verified {
        return Thrown(InvalidState);
      }
      outcome := AssertTransition(id, Active);
      if outcome.Done? {
        domains := domains[id := domains[id].(status := Active)];
      }
    }

    method Suspend(id: nat, seen: Domain) returns (outcome: Outcome)
      modifies this
      ensures Ends(old(Now()), Retire(old(Now()), id, seen, Suspended), outcome, Now())
    {
      outcome := RetireTo(id, seen, Suspended);
    }

    method Revoke(id: nat, seen: Domain) returns (outcome: Outcome)
      modifies this
      ensures Ends(old(Now()), Retire(old(Now()), id, seen, Revoked), outcome, Now())
    {
      outcome := RetireTo(id, seen, Revoked);
    }

    method RetireTo(id: nat, seen: Domain, to: Status) returns (outcome: Outcome)
      modifies this
      ensures Ends(old(Now()), Retire(old(Now()), id, seen, to), outcome, Now())
    {
      if seen.status == to {
        return Done;
      }
      outcome := AssertTransition(id, to);
      if outcome.Done? {
        domains := domains[id := domains[id].(status := to)];
        ClearPrimaryIf(seen.tenant, id);
      }
    }

    method ClearPrimaryIf(tenant: nat, id: nat)
      modifies this`primary
      ensures Now() == Dethroned(old(Now()), tenant, id)
    {
      if tenant in primary && primary[tenant] == id {
        primary := primary - {tenant};
      }
    }

    method SetPrimary(id: nat, seen: Domain) returns (outcome: Outcome)
      modifies this
      ensures Ends(old(Now()), Domains.SetPrimary(old(Now()), id, seen), outcome, Now())
    {
      if seen.status != Active || !seen.verified {
        return Thrown(InvalidState);
      }
      if id !in domains {
        return Thrown(NotFound);
      }
      primary := primary[seen.tenant := id];
      return Done;
    }

    method ClearPrimaryDomain(id: nat, seen: Domain) returns (outcome: Outcome)
      modifies this
      ensures Ends(old(Now()), Domains.ClearPrimaryDomain(old(Now()), id, seen), outcome, Now())
    {
      if id !in domains {
        return Thrown(NotFound);
      }
      ClearPrimaryIf(seen.tenant, id);
      return Done;
    }

    method RemovePendingDomain(id: nat, seen: Domain) returns (outcome: Outcome)
      modifies this
      ensures Ends(old(Now()), Domains.RemovePendingDomain(old(Now()), id, seen), outcome, Now())
    {
      if seen.status !in {Pending, Failed} {
        return Thrown(InvalidState);
      }
      if id !in domains {
        return Thrown(NotFound);
      }
      if domains[id].status !in {Pending, Failed} {
        return Thrown(InvalidState);
      }
      domains := domains - {id};
      return Done;
    }

    // Runs

    /** Any call, whatever it throws. */
    method Execute(c: Call)
      modifies this
      ensures Now() == Step(maxAttempts, old(Now()), c)
    {
      var outcome := Done;
      match c
      case CallCreate(owner, token, expiresAt) => var id := CreatePendingDomain(owner, token, expiresAt);
      case CallRegenerate(id, seen, token, expiresAt) =>
        outcome := RegenerateVerificationChallenge(id, seen, token, expiresAt);
      case CallCheck(id, expected, lookup, now) => var result := FinishCheck(id, expected, lookup, now);
      case CallMarkVerified(id, seen, value, now) => outcome := MarkVerified(id, seen, value, now);
      case CallRecordFailure(id) => outcome := RecordVerificationFailure(id);
      case CallActivate(id, seen) => outcome := Activate(id, seen);
      case CallSuspend(id, seen) => outcome := Suspend(id, seen);
      case CallRevoke(id, seen) => outcome := Revoke(id, seen);
      case CallSetPrimary(id, seen) => outcome := SetPrimary(id, seen);
      case CallClearPrimary(id, seen) => outcome := ClearPrimaryDomain(id, seen);
      case CallRemove(id, seen) => outcome := RemovePendingDomain(id, seen);
    }

    /** What the theorems about runs say of this object, by `Domains.RunAfter`. */
    method Serve(calls: seq<Call>)
      modifies this
      ensures Now() == Run(maxAttempts, old(Now()), calls)
    {
      var i := 0;
      while i < |calls|
        invariant 0 <= i <= |calls|
        invariant Run(maxAttempts, Now(), calls[i..]) == Run(maxAttempts, old(Now()), calls)
      {
        assert calls[i..][1..] == calls[i + 1..];
        Execute(calls[i]);
        i := i + 1;
      }
    }
  }
}
