/**
 * The billing state of an organisation: provider webhooks that may be late, replayed or out
 * of order, checkout and cancellation, and the reconciliation sweeps. Times are instants.
 */
module Billing {
  import opened Common

  datatype Plan = Free | Developer | Pro | Enterprise
  datatype SubscriptionStatus = NeverSubscribed | Active | PastDue | Canceled | Revoked

  datatype Org = Org(
    plan: Plan,
    status: SubscriptionStatus,
    subscriptionId: Option<string>,
    customerId: Option<string>,
    periodEnd: Option<int>,
    planPending: Option<Plan>,
    pendingExpires: Option<int>)

  datatype EventType =
    | SubscriptionCreated | SubscriptionActive | SubscriptionUpdated | OrderPaid
    | SubscriptionPastDue | SubscriptionCanceled | SubscriptionRevoked | OrderRefunded
    | CustomerStateChanged | OtherEvent

  /** The payload fields the handlers read; `plan` is the plan of its product, if that is known. */
  datatype Payload = Payload(
    kind: EventType,
    id: Option<string>,
    subscriptionId: Option<string>,
    customerId: Option<string>,
    plan: Option<Plan>,
    periodEnd: Option<int>,
    cancelAtPeriodEnd: bool)

  /** Only the two purchasable plans have a product. */
  ghost predicate WellFormed(p: Payload) {
    p.plan.Some? ==> p.plan.value.Developer? || p.plan.value.Pro?
  }

  predicate Activates(kind: EventType) {
    kind.SubscriptionCreated? || kind.SubscriptionActive? || kind.SubscriptionUpdated? || kind.OrderPaid?
  }

  /** The subscription an event is about: its own object for `subscription.*`, a reference otherwise. */
  function EventSubscription(p: Payload): Option<string> {
    match p.kind
    case OrderPaid => p.subscriptionId
    case OrderRefunded => p.subscriptionId
    case CustomerStateChanged => p.subscriptionId
    case OtherEvent => p.subscriptionId
    case _ => p.id
  }

  /** An event that changes the state only of the subscription it names. */
  predicate Scoped(kind: EventType) {
    kind.SubscriptionPastDue? || kind.SubscriptionCanceled? || kind.SubscriptionRevoked? || kind.OrderRefunded?
  }

  predicate ProvesLive(p: Payload, now: int) {
    p.periodEnd.Some? && p.periodEnd.value > now
  }

  predicate Accepts(o: Org, p: Payload, now: int) {
    && p.plan.Some?
    && (o.status.Revoked? ==> ProvesLive(p, now))
    && (p.periodEnd.Some? && o.periodEnd.Some? ==> o.periodEnd.value <= p.periodEnd.value)
  }

  function Activated(o: Org, p: Payload, now: int): Org {
    if !Accepts(o, p, now) then o
    else
      Org(p.plan.value,
          if p.cancelAtPeriodEnd then Canceled else Active,
          if p.id.Some? then p.id else o.subscriptionId,
          if o.customerId.None? then p.customerId else o.customerId,
          if p.periodEnd.Some? then p.periodEnd else o.periodEnd,
          None,
          None)
  }

  predicate Targets(o: Org, p: Payload) {
    EventSubscription(p).None? || EventSubscription(p) == o.subscriptionId
  }

  function Bound(o: Org, p: Payload): Org {
    if o.customerId.None? then o.(customerId := p.customerId) else o
  }

  function Ended(o: Org): Org {
    o.(plan := Free, status := Revoked, subscriptionId := None, periodEnd := None,
       planPending := None, pendingExpires := None)
  }

  /** One dispatched event. */
  function Dispatched(o: Org, p: Payload, now: int): Org {
    if Activates(p.kind) then Activated(o, p, now)
    else
      match p.kind
      case SubscriptionPastDue => Bound(if Targets(o, p) then o.(status := PastDue) else o, p)
      case SubscriptionCanceled =>
        Bound(if !Targets(o, p) then o
              else o.(status := Canceled, periodEnd := if p.periodEnd.Some? then p.periodEnd else o.periodEnd), p)
      case SubscriptionRevoked => if Targets(o, p) then Ended(o) else o
      case OrderRefunded => if Targets(o, p) then Ended(o) else o
      case CustomerStateChanged => Bound(o, p)
      case _ => o
  }

  predicate Expired(o: Org, now: int, grace: nat) {
    (o.status.PastDue? || o.status.Canceled?) && o.periodEnd.Some? && o.periodEnd.value < now - grace
  }

  predicate Abandoned(o: Org, now: int) {
    o.planPending.Some? && (o.pendingExpires.None? || o.pendingExpires.value < now)
  }

  function PendingPlan(o: Org, now: int): Option<Plan> {
    if o.pendingExpires.Some? && o.pendingExpires.value > now then o.planPending else None
  }

  predicate HasLiveSubscription(o: Org) {
    o.subscriptionId.Some? && (o.status.Active? || o.status.PastDue? || o.status.Canceled?)
  }

  predicate Cancellable(o: Org) {
    o.subscriptionId.Some? && !o.status.Canceled? && !o.status.Revoked?
  }

  const CHECKOUT_FALLBACK_TTL_MS := 60 * 60 * 1000

  datatype Reply = NotFound | Refused | ProviderFailed | Accepted

  /** Binding this payload's customer to row `id` breaks the unique index on customer ids. */
  predicate BindConflict(orgs: map<int, Org>, id: int, p: Payload) {
    && id in orgs && orgs[id].customerId.None? && p.customerId.Some?
    && exists other :: other in orgs && other != id && orgs[other].customerId == p.customerId
  }

  ghost predicate UniqueCustomers(orgs: map<int, Org>) {
    forall i, j ::
      i in orgs && j in orgs && orgs[i].customerId.Some? && orgs[i].customerId == orgs[j].customerId ==> i == j
  }

  lemma ConflictKept(orgs0: map<int, Org>, orgs1: map<int, Org>, id: int, p: Payload)
    requires orgs1.Keys == orgs0.Keys
    requires forall i :: i in orgs0 ==> orgs1[i].customerId == orgs0[i].customerId
    ensures BindConflict(orgs1, id, p) <==> BindConflict(orgs0, id, p)
  {
  }

  /** What a dispatch leaves that stops after its first statement: everything but the customer. */
  function Partly(o: Org, p: Payload, now: int): Org {
    Dispatched(o, p.(customerId := None), now)
  }

  /** The table with one row rewritten, if it has that row. */
  function Rewritten(orgs: map<int, Org>, id: int, f: Org -> Org): map<int, Org> {
    if id in orgs then orgs[id := f(orgs[id])] else orgs
  }

  class BillingDb {
    var orgs: map<int, Org>
    /** How many statements have failed, or lost their reply, so far. */
    ghost var faults: nat

    constructor ()
      ensures orgs == map[] && faults == 0
    {
      orgs, faults := map[], 0;
    }

    method Succeeds() returns (ok: bool)
      modifies this`faults
      ensures faults == if ok then old(faults) else old(faults) + 1
    {
      ok := *;
      faults := if ok then faults else faults + 1;
    }

    /** One guarded update. It may fail outright, on the unique index, or after it committed. */
    method DispatchActive(p: Payload, id: int, now: int) returns (ok: bool)
      modifies this
      ensures ok ==> orgs == Rewritten(old(orgs), id, o => Activated(o, p, now))
      ensures !ok ==> orgs == old(orgs) || orgs == Rewritten(old(orgs), id, o => Activated(o, p, now))
      ensures UniqueCustomers(old(orgs)) ==> UniqueCustomers(orgs)
      ensures BindConflict(old(orgs), id, p) && Accepts(old(orgs)[id], p, now) ==> !ok && orgs == old(orgs)
      ensures old(faults) <= faults && (!ok ==> old(faults) < faults || BindConflict(old(orgs), id, p))
    {
      if p.plan.None? || id !in orgs {
        return true;
      }
      var org := orgs[id];
      var patched := org.(plan := p.plan.value, status := if p.cancelAtPeriodEnd then Canceled else Active,
                          planPending := None, pendingExpires := None);
      if p.id.Some? {
        patched := patched.(subscriptionId := p.id);
      }
      if p.periodEnd.Some? {
        patched := patched.(periodEnd := p.periodEnd);
      }
      if org.customerId.None? {
        patched := patched.(customerId := p.customerId);
      }
      var matches := true;
      if !ProvesLive(p, now) {
        matches := !org.status.Revoked?;
      }
      if p.periodEnd.Some? {
        matches := matches && (org.periodEnd.None? || org.periodEnd.value <= p.periodEnd.value);
      }
      ok := Succeeds();
      if !ok {
        return;
      }
      if matches {
        if BindConflict(orgs, id, p) {
          return false;
        }
        orgs := orgs[id := patched];
      }
      ok := Succeeds();
    }

    method BindCustomer(p: Payload, id: int) returns (ok: bool)
      modifies this
      ensures ok ==> orgs == Rewritten(old(orgs), id, o => Bound(o, p))
      ensures !ok ==> orgs == old(orgs) || orgs == Rewritten(old(orgs), id, o => Bound(o, p))
      ensures UniqueCustomers(old(orgs)) ==> UniqueCustomers(orgs)
      ensures BindConflict(old(orgs), id, p) ==> !ok && orgs == old(orgs)
      ensures old(faults) <= faults && (!ok ==> old(faults) < faults || BindConflict(old(orgs), id, p))
    {
      if p.customerId.None? {
        return true;
      }
      ok := Succeeds();
      if !ok {
        return;
      }
      if BindConflict(orgs, id, p) {
        return false;
      }
      if id in orgs && orgs[id].customerId.None? {
        orgs := orgs[id := orgs[id].(customerId := p.customerId)];
      }
      ok := Succeeds();
    }

    /** The single-statement updates of a row the event targets. */
    method UpdateTarget(p: Payload, id: int, now: int) returns (ok: bool)
      requires Scoped(p.kind)
      modifies this
      ensures ok ==> orgs == Rewritten(old(orgs), id, o => Partly(o, p, now))
      ensures !ok ==> orgs == old(orgs) || orgs == Rewritten(old(orgs), id, o => Partly(o, p, now))
      ensures UniqueCustomers(old(orgs)) ==> UniqueCustomers(orgs)
      ensures BindConflict(orgs, id, p) <==> BindConflict(old(orgs), id, p)
      ensures old(faults) <= faults && (!ok ==> old(faults) < faults)
    {
      ok := Succeeds();
      if !ok {
        return;
      }
      if id in orgs && Targets(orgs[id], p) {
        var org := orgs[id];
        if p.kind.SubscriptionPastDue? {
          org := org.(status := PastDue);
        } else if p.kind.SubscriptionCanceled? {
          org := org.(status := Canceled, periodEnd := if p.periodEnd.Some? then p.periodEnd else org.periodEnd);
        } else {
          org := Ended(org);
        }
        orgs := orgs[id := org];
      }
      ConflictKept(old(orgs), orgs, id, p);
      ok := Succeeds();
    }

    /**
     * One dispatch, statement by statement. A failure leaves the row as it was, with the
     * first statement's effect, or with all of it; past-due and canceled events whose
     * customer belongs to another row fail after their first statement.
     */
    method DispatchEvent(p: Payload, id: int, now: int) returns (ok: bool)
      modifies this
      ensures ok ==> orgs == Rewritten(old(orgs), id, o => Dispatched(o, p, now))
      ensures !ok ==>
                || orgs == old(orgs)
                || orgs == Rewritten(old(orgs), id, o => Partly(o, p, now))
                || orgs == Rewritten(old(orgs), id, o => Dispatched(o, p, now))
      ensures UniqueCustomers(old(orgs)) ==> UniqueCustomers(orgs)
      ensures (p.kind.SubscriptionPastDue? || p.kind.SubscriptionCanceled?) && BindConflict(old(orgs), id, p) ==> !ok
      ensures p.kind == OtherEvent ==> ok
      ensures old(faults) <= faults && (!ok ==> old(faults) < faults || BindConflict(old(orgs), id, p))
    {
      if Activates(p.kind) {
        ok := DispatchActive(p, id, now);
        return;
      }
      if p.kind.CustomerStateChanged? {
        ok := BindCustomer(p, id);
        return;
      }
      if !Scoped(p.kind) {
        return true;
      }
      ok := UpdateTarget(p, id, now);
      if ok && (p.kind.SubscriptionPastDue? || p.kind.SubscriptionCanceled?) {
        ok := BindCustomer(p, id);
      }
    }

    method ReconcileExpiredSubscriptions(now: int, grace: nat) returns (count: nat)
      modifies this
      ensures orgs.Keys == old(orgs).Keys
      ensures forall id :: id in orgs ==>
                orgs[id] == if Expired(old(orgs)[id], now, grace) then Ended(old(orgs)[id]) else old(orgs)[id]
      ensures forall id :: id in orgs ==> !Expired(orgs[id], now, grace)
      ensures forall id :: id in orgs ==>
                var org := old(orgs)[id];
                orgs[id] != org <==>
                org.status in {PastDue, Canceled} && org.periodEnd.Some? && org.periodEnd.value + grace < now
      ensures forall id :: id in orgs && Sound(old(orgs)[id]) ==> Sound(orgs[id])
      ensures forall id :: id in orgs && orgs[id] != old(orgs)[id] ==>
                orgs[id].status.Revoked? && orgs[id].plan.Free? && !old(orgs)[id].status.Active?
      ensures count == |set id | id in orgs && orgs[id] != old(orgs)[id]|
      ensures count == 0 <==> orgs == old(orgs)
    {
      var expired := set id | id in orgs && Expired(orgs[id], now, grace);
      orgs := map id | id in orgs :: if Expired(orgs[id], now, grace) then Ended(orgs[id]) else orgs[id];
      count := |expired|;
      assert expired == set id | id in orgs && orgs[id] != old(orgs)[id];
      NoneIffEmpty(expired);
      assert forall id :: id in orgs && id !in expired ==> orgs[id] == old(orgs)[id];
    }

    method ClearAbandonedCheckouts(now: int) returns (count: nat)
      modifies this
      ensures orgs.Keys == old(orgs).Keys
      ensures forall id :: id in orgs ==>
                var org := old(orgs)[id];
                orgs[id] == if Abandoned(org, now) then org.(planPending := None, pendingExpires := None) else org
      ensures forall id, t :: id in orgs && t >= now ==> PendingPlan(orgs[id], t) == PendingPlan(old(orgs)[id], t)
      ensures forall id :: id in orgs && orgs[id].planPending.Some? ==>
                orgs[id].pendingExpires.Some? && orgs[id].pendingExpires.value >= now
      ensures forall id :: id in orgs && old(orgs)[id].pendingExpires.Some? && old(orgs)[id].pendingExpires.value >= now
                ==> orgs[id] == old(orgs)[id]
      ensures count == |set id | id in orgs && orgs[id] != old(orgs)[id]|
      ensures count == 0 <==> orgs == old(orgs)
    {
      var abandoned := set id | id in orgs && Abandoned(orgs[id], now);
      orgs := map id | id in orgs ::
        if Abandoned(orgs[id], now) then orgs[id].(planPending := None, pendingExpires := None) else orgs[id];
      count := |abandoned|;
      assert abandoned == set id | id in orgs && orgs[id] != old(orgs)[id];
      NoneIffEmpty(abandoned);
      assert forall id :: id in orgs && id !in abandoned ==> orgs[id] == old(orgs)[id];
    }

    /** The wait for the provider: webhooks, sweeps and other requests may rewrite any row. */
    method Elapse()
      modifies this
    {
      orgs := *;
    }

    /** `granted` is the provider's answer; `between` is what the table holds when it arrives. */
    method CancelSubscription(id: int, granted: bool) returns (r: Reply, ghost between: map<int, Org>)
      modifies this
      ensures r == NotFound <==> id !in old(orgs)
      ensures r == Refused <==>
                && id in old(orgs)
                && (old(orgs)[id].subscriptionId.None? || old(orgs)[id].status in {Canceled, Revoked})
      ensures r == NotFound || r == Refused ==> orgs == old(orgs)
      ensures r == ProviderFailed || r == Accepted ==> Cancellable(old(orgs)[id]) && (r == Accepted <==> granted)
      ensures r == Refused ==> !Cancellable(old(orgs)[id])
      ensures r == ProviderFailed ==> orgs == between
      ensures r == Accepted ==>
                orgs == if id in between then between[id := between[id].(status := Canceled)] else between
    {
      between := orgs;
      if id !in orgs {
        return NotFound, between;
      }
      if orgs[id].subscriptionId.None? || orgs[id].status.Canceled? || orgs[id].status.Revoked? {
        return Refused, between;
      }
      Elapse();
      between := orgs;
      if !granted {
        return ProviderFailed, between;
      }
      if id in orgs {
        orgs := orgs[id := orgs[id].(status := Canceled)];
      }
      r := Accepted;
    }

    /** `deadline` is the provider's own expiry for the checkout, if it sends one; `now` the time of the answer. */
    method CreateCheckoutSession(id: int, plan: Plan, granted: bool, deadline: Option<int>, now: int)
      returns (r: Reply, ghost between: map<int, Org>)
      modifies this
      ensures r == NotFound <==> id !in old(orgs)
      ensures r == Refused <==>
                && id in old(orgs) && old(orgs)[id].subscriptionId.Some?
                && old(orgs)[id].status in {Active, PastDue, Canceled}
      ensures r == NotFound || r == Refused ==> orgs == old(orgs)
      ensures r == ProviderFailed || r == Accepted ==> (r == Accepted <==> granted)
      ensures r == ProviderFailed ==> orgs == between
      ensures r == Accepted ==> orgs.Keys == between.Keys
      ensures r == Accepted && id in between ==>
                && PendingPlan(orgs[id], now) == (if deadline.None? || deadline.value > now then Some(plan) else None)
                && orgs[id] == between[id].(planPending := Some(plan), pendingExpires := orgs[id].pendingExpires)
                && orgs == between[id := orgs[id]]
      ensures r == Accepted && id in between && deadline.Some? ==>
                forall t :: PendingPlan(orgs[id], t) == if t < deadline.value then Some(plan) else None
      ensures r == Accepted && id in between && deadline.None? ==>
                forall t :: PendingPlan(orgs[id], t) == if t < now + 3_600_000 then Some(plan) else None
    {
      between := orgs;
      if id !in orgs {
        return NotFound, between;
      }
      if HasLiveSubscription(orgs[id]) {
        return Refused, between;
      }
      Elapse();
      between := orgs;
      if !granted {
        return ProviderFailed, between;
      }
      if id in orgs {
        var expires := if deadline.Some? then deadline.value else now + CHECKOUT_FALLBACK_TTL_MS;
        orgs := orgs[id := orgs[id].(planPending := Some(plan), pendingExpires := Some(expires))];
      }
      r := Accepted;
    }
  }

  lemma NoneIffEmpty(s: set<int>)
    ensures |s| == 0 <==> s == {}
  {
  }

  /* ---- what an event does ---- */

  /**
   * The four activating events: refused without a known product, for a revoked organisation
   * without a period end in the future, and when the stored period is already longer.
   * Otherwise the row says what the event says.
   */
  lemma ActivationMeans(o: Org, p: Payload, now: int)
    requires p.kind in {SubscriptionCreated, SubscriptionActive, SubscriptionUpdated, OrderPaid}
    ensures var n := Dispatched(o, p, now);
            if || p.plan == None
               || (o.status == Revoked && (p.periodEnd == None || p.periodEnd.value <= now))
               || (p.periodEnd.Some? && o.periodEnd.Some? && p.periodEnd.value < o.periodEnd.value)
            then n == o
            else
              && Some(n.plan) == p.plan && (n.status == Canceled <==> p.cancelAtPeriodEnd)
              && n.status in {Active, Canceled} && n.planPending == None && n.pendingExpires == None
              && n.subscriptionId == (if p.id == None then o.subscriptionId else p.id)
              && n.periodEnd == (if p.periodEnd == None then o.periodEnd else p.periodEnd)
              && n.customerId == (if o.customerId == None then p.customerId else o.customerId)
  {
  }

  /**
   * Every other event: dunning and cancellation change the status of the subscription they
   * name, revocation and refund end it, and only the customer's own event, or one of the
   * first two, binds an unset customer. A refund names the subscription its order is for.
   */
  lemma OtherEventsMean(o: Org, p: Payload, now: int)
    requires p.kind !in {SubscriptionCreated, SubscriptionActive, SubscriptionUpdated, OrderPaid}
    ensures var n := Dispatched(o, p, now);
            var about := if p.kind == OrderRefunded then p.subscriptionId else p.id;
            var hit := about == None || about == o.subscriptionId;
            var ends := hit && p.kind in {SubscriptionRevoked, OrderRefunded};
            && (ends ==> n == Org(Free, Revoked, None, o.customerId, None, None, None))
            && (!ends ==>
                  && n.plan == o.plan && n.subscriptionId == o.subscriptionId
                  && n.planPending == o.planPending && n.pendingExpires == o.pendingExpires
                  && n.status == (if hit && p.kind == SubscriptionPastDue then PastDue
                                  else if hit && p.kind == SubscriptionCanceled then Canceled else o.status)
                  && n.periodEnd == (if hit && p.kind == SubscriptionCanceled && p.periodEnd.Some?
                                     then p.periodEnd else o.periodEnd)
                  && n.customerId == (if o.customerId == None &&
                                         p.kind in {SubscriptionPastDue, SubscriptionCanceled, CustomerStateChanged}
                                      then p.customerId else o.customerId))
  {
  }

  /* ---- repeating an event ---- */

  /**
   * A dispatch that stopped half way or was repeated at once does no harm: dispatching the
   * event again leaves exactly what one full dispatch would have left.
   */
  lemma RedispatchIsIdempotent(o: Org, p: Payload, now: int, later: int)
    requires now <= later && WellFormed(p)
    ensures Dispatched(Dispatched(o, p, now), p, later) == Dispatched(o, p, now)
    ensures Dispatched(Partly(o, p, now), p, later) == Dispatched(o, p, now)
  {
  }

  /** What a repeat could write that the row does not say already. */
  predicate Outdated(o: Org, p: Payload, now: int) {
    if Activates(p.kind)
    then
      && Accepts(o, p, now)
      && (|| o.plan != p.plan.value || o.status != (if p.cancelAtPeriodEnd then Canceled else Active)
          || (p.id.Some? && o.subscriptionId != p.id) || (p.periodEnd.Some? && o.periodEnd != p.periodEnd)
          || o.planPending.Some? || o.pendingExpires.Some? || Unbound(o, p))
    else
      match p.kind
      case SubscriptionPastDue => (Targets(o, p) && o.status != PastDue) || Unbound(o, p)
      case SubscriptionCanceled =>
        || (Targets(o, p) && (o.status != Canceled || (p.periodEnd.Some? && o.periodEnd != p.periodEnd)))
        || Unbound(o, p)
      case CustomerStateChanged => Unbound(o, p)
      case SubscriptionRevoked => Targets(o, p) && !IsEnded(o)
      case OrderRefunded => Targets(o, p) && !IsEnded(o)
      case _ => false
  }

  predicate Unbound(o: Org, p: Payload) {
    o.customerId.None? && p.customerId.Some?
  }

  predicate IsEnded(o: Org) {
    o.plan.Free? && o.status.Revoked? && o.subscriptionId.None? && o.periodEnd.None?
    && o.planPending.None? && o.pendingExpires.None?
  }

  /**
   * Dispatching an event again, whatever happened since, changes the row exactly when the
   * row no longer says what the event says and still lets it in.
   */
  lemma RepeatChangesIff(o: Org, p: Payload, later: int)
    ensures Dispatched(o, p, later) != o <==> Outdated(o, p, later)
  {
  }

  /**
   * A past-due event whose customer is bound to another organisation: its status update
   * commits, the binding fails, and it fails the same way at every further delivery.
   */
  lemma PastDueNeverFinishes(orgs: map<int, Org>, id: int, p: Payload, now: int)
    requires p.kind.SubscriptionPastDue? && BindConflict(orgs, id, p) && Targets(orgs[id], p)
    ensures var after := Rewritten(orgs, id, o => Partly(o, p, now));
            && after[id].status.PastDue?
            && BindConflict(after, id, p) && Targets(after[id], p)
            && (orgs[id].status != PastDue ==> after != orgs)
  {
    var after := Rewritten(orgs, id, o => Partly(o, p, now));
    var other :| other in orgs && other != id && orgs[other].customerId == p.customerId;
    assert after[other] == orgs[other];
    assert orgs[id].status != PastDue ==> after[id] != orgs[id];
  }

  /** Between two deliveries of such an event a recovery may arrive, and the repeat overwrites it. */
  lemma RepeatOverwritesRecovery(o: Org, p: Payload, active: Payload, now: int, later: int, last: int)
    requires p.kind.SubscriptionPastDue? && p.id.Some? && p.id == o.subscriptionId
    requires active.kind.SubscriptionActive? && active.id == p.id && !active.cancelAtPeriodEnd
    requires Accepts(Partly(o, p, now), active, later)
    ensures var recovered := Dispatched(Partly(o, p, now), active, later);
            recovered.status.Active? && Dispatched(recovered, p, last).status.PastDue?
  {
  }

  /* ---- every run of one organisation ---- */

  /**
   * A cancellation asks the provider between its check and its write, so it is two steps;
   * so is a checkout. `cancels` and `checkouts` count those under way. A dispatch that stops
   * half way is the dispatch of the same payload without its customer, so it is covered.
   */
  datatype State = State(org: Org, cancels: nat, checkouts: nat)

  datatype Action =
    | Webhook(payload: Payload, now: int)
    | Reconcile(now: int, grace: nat)
    | ClearAbandoned(now: int)
    | BeginCheckout
    | CommitCheckout(plan: Plan, expires: int)
    | BeginCancel
    | CommitCancel
    | CancelFails

  ghost predicate Enabled(s: State, a: Action) {
    match a
    case Webhook(p, _) => WellFormed(p)
    case BeginCheckout => !HasLiveSubscription(s.org)
    case CommitCheckout(_, _) => s.checkouts > 0
    case BeginCancel => Cancellable(s.org)
    case CommitCancel => s.cancels > 0
    case CancelFails => s.cancels > 0
    case _ => true
  }

  function Step(s: State, a: Action): State
    requires Enabled(s, a)
  {
    match a
    case Webhook(p, now) => s.(org := Dispatched(s.org, p, now))
    case Reconcile(now, grace) => if Expired(s.org, now, grace) then s.(org := Ended(s.org)) else s
    case ClearAbandoned(now) =>
      if Abandoned(s.org, now) then s.(org := s.org.(planPending := None, pendingExpires := None)) else s
    case BeginCheckout => s.(checkouts := s.checkouts + 1)
    case CommitCheckout(plan, expires) =>
      s.(checkouts := s.checkouts - 1, org := s.org.(planPending := Some(plan), pendingExpires := Some(expires)))
    case BeginCancel => s.(cancels := s.cancels + 1)
    case CommitCancel => s.(cancels := s.cancels - 1, org := s.org.(status := Canceled))
    case CancelFails => s.(cancels := s.cancels - 1)
  }

  ghost predicate Reaches(s: State, acts: seq<Action>, t: State)
    decreases |acts|
  {
    if acts == [] then t == s
    else Enabled(s, acts[0]) && Reaches(Step(s, acts[0]), acts[1..], t)
  }

  predicate Live(status: SubscriptionStatus) {
    status.Active? || status.PastDue? || status.Canceled?
  }

  /** Outside the live statuses nothing is owed: no plan, no subscription, no period. */
  predicate Sound(o: Org) {
    !Live(o.status) ==> o.plan.Free? && o.subscriptionId.None? && o.periodEnd.None?
  }

  /** A newly created organisation. */
  predicate Created(s: State) {
    s.org.plan.Free? && s.org.status.NeverSubscribed? && s.org.subscriptionId.None? && s.org.periodEnd.None?
    && s.cancels == 0 && s.checkouts == 0
  }

  lemma StepKeepsSound(s: State, a: Action)
    requires Sound(s.org) && Enabled(s, a)
    ensures Sound(Step(s, a).org)
  {
  }

  lemma {:induction false} SoundAlong(s: State, acts: seq<Action>, t: State)
    requires Sound(s.org) && Reaches(s, acts, t)
    ensures Sound(t.org)
    decreases |acts|
  {
    if acts != [] {
      StepKeepsSound(s, acts[0]);
      SoundAlong(Step(s, acts[0]), acts[1..], t);
    }
  }

  /**
   * In every state of every run: a revoked organisation is free with no subscription and no
   * period, a paid plan has a live status, and the checkout guard reduces to "no
   * subscription id on file".
   */
  lemma {:induction false} BillingInvariant(s: State, acts: seq<Action>, t: State)
    requires Created(s) && Reaches(s, acts, t)
    ensures t.org.status.Revoked? ==> t.org.plan.Free? && t.org.subscriptionId.None? && t.org.periodEnd.None?
    ensures !t.org.plan.Free? ==> Live(t.org.status)
    ensures Enabled(t, BeginCheckout) <==> t.org.subscriptionId.None?
  {
    SoundAlong(s, acts, t);
  }

  /* ---- leaving the revoked state ---- */

  /** The steps that take a revoked organisation out of that status. */
  predicate Lifts(a: Action) {
    match a
    case Webhook(p, now) =>
      if Activates(p.kind) then p.plan.Some? && ProvesLive(p, now)
      else (p.kind.SubscriptionPastDue? || p.kind.SubscriptionCanceled?) && p.id.None?
    case CommitCancel => true
    case _ => false
  }

  lemma LeavesRevokedIffLifts(s: State, a: Action)
    requires Sound(s.org) && s.org.status.Revoked? && Enabled(s, a)
    ensures !Step(s, a).org.status.Revoked? <==> Lifts(a)
    ensures !Step(s, a).org.plan.Free? <==> a.Webhook? && Activates(a.payload.kind) && Lifts(a)
    ensures !Lifts(a) ==> Step(s, a).cancels <= s.cancels
  {
  }

  /**
   * A revoked organisation with no cancellation under way stays free and revoked through
   * any sequence of events that all name a subscription and prove no live period, in any
   * order and repeated at will, mixed with checkouts, sweeps and cancellation attempts.
   */
  lemma {:induction false} RevokedStaysRevoked(s: State, acts: seq<Action>, t: State)
    requires Sound(s.org) && s.org.status.Revoked? && s.cancels == 0 && Reaches(s, acts, t)
    requires forall a :: a in acts && a.Webhook? ==> !ProvesLive(a.payload, a.now) && EventSubscription(a.payload).Some?
    ensures t.org.status.Revoked? && t.org.plan.Free?
    decreases |acts|
  {
    if acts != [] {
      assert acts[0] in acts;
      StepKeepsSound(s, acts[0]);
      LeavesRevokedIffLifts(s, acts[0]);
      RevokedStaysRevoked(Step(s, acts[0]), acts[1..], t);
    }
  }

  /**
   * The cancellation write carries no guard. One under way when the organisation is revoked
   * marks it canceled again, and a stale paid order then brings the plan back.
   */
  lemma {:induction false} CancelRaceResurrects(s: State, stale: Payload, now: int)
    requires Sound(s.org) && Cancellable(s.org) && WellFormed(stale)
    requires stale.kind.OrderPaid? && stale.plan.Some? && stale.periodEnd.None?
    ensures var revoked := Payload(SubscriptionRevoked, s.org.subscriptionId, None, None, None, None, false);
            exists t :: Reaches(s, [BeginCancel, Webhook(revoked, now), CommitCancel, Webhook(stale, now)], t)
              && t.org.plan == stale.plan.value
  {
    var revoked := Payload(SubscriptionRevoked, s.org.subscriptionId, None, None, None, None, false);
    var acts := [BeginCancel, Webhook(revoked, now), CommitCancel, Webhook(stale, now)];
    var s1 := Step(s, acts[0]);
    var s2 := Step(s1, acts[1]);
    var s3 := Step(s2, acts[2]);
    var s4 := Step(s3, acts[3]);
    assert Reaches(s4, [], s4);
    assert acts[3..] == [acts[3]] && acts[3..][1..] == [];
    assert Reaches(s3, acts[3..], s4);
    assert acts[2..][1..] == acts[3..] && acts[1..][1..] == acts[2..];
    assert Reaches(s2, acts[2..], s4);
    assert Reaches(s1, acts[1..], s4);
    assert Reaches(s, acts, s4);
  }

  /* ---- the period end ---- */

  /** The stored period end goes from one instant to an earlier one. */
  predicate MovesBack(o0: Org, o1: Org) {
    o0.periodEnd.Some? && o1.periodEnd.Some? && o1.periodEnd.value < o0.periodEnd.value
  }

  /**
   * Only a `subscription.canceled` carrying an earlier end for the current subscription
   * moves the period end back; it is dropped only by an ending event or the sweep.
   */
  lemma PeriodEndMovesBackIff(s: State, a: Action)
    requires Enabled(s, a)
    ensures MovesBack(s.org, Step(s, a).org) <==>
            && a.Webhook? && a.payload.kind.SubscriptionCanceled? && Targets(s.org, a.payload)
            && a.payload.periodEnd.Some? && s.org.periodEnd.Some? && a.payload.periodEnd.value < s.org.periodEnd.value
    ensures s.org.periodEnd.Some? && Step(s, a).org.periodEnd.None? <==>
            && s.org.periodEnd.Some?
            && (|| (a.Webhook? && (a.payload.kind.SubscriptionRevoked? || a.payload.kind.OrderRefunded?)
                    && Targets(s.org, a.payload))
                || (a.Reconcile? && Expired(s.org, a.now, a.grace)))
  {
  }

  predicate Renewing(a: Action) {
    a.Webhook? ==> Activates(a.payload.kind)
  }

  /** Over any run whose events are activations, late and replayed ones included, paid time is never lost. */
  lemma {:induction false} ActivationsNeverMoveBack(s: State, acts: seq<Action>, t: State)
    requires Reaches(s, acts, t) && forall a :: a in acts ==> Renewing(a) && !a.Reconcile?
    requires s.org.periodEnd.Some?
    ensures t.org.periodEnd.Some? && t.org.periodEnd.value >= s.org.periodEnd.value
    decreases |acts|
  {
    if acts != [] {
      assert acts[0] in acts;
      PeriodEndMovesBackIff(s, acts[0]);
      ActivationsNeverMoveBack(Step(s, acts[0]), acts[1..], t);
    }
  }

  /* ---- superseded subscriptions ---- */

  predicate Superseded(p: Payload, current: Option<string>) {
    Scoped(p.kind) && EventSubscription(p).Some? && EventSubscription(p) != current
  }

  /** Events of superseded subscriptions never change anything but an unset customer. */
  lemma {:induction false} SupersededEventsIgnored(s: State, acts: seq<Action>, t: State)
    requires Reaches(s, acts, t)
    requires forall a :: a in acts ==> a.Webhook? && Superseded(a.payload, s.org.subscriptionId)
    ensures t.org == s.org.(customerId := t.org.customerId)
    ensures s.org.customerId.Some? ==> t.org == s.org
    decreases |acts|
  {
    if acts != [] {
      assert acts[0] in acts;
      SupersededEventsIgnored(Step(s, acts[0]), acts[1..], t);
    }
  }

  /**
   * An accepted `order.paid` stores the order's id as the subscription id. The later end of
   * the subscription it pays for therefore takes effect if and only if the two ids coincide.
   */
  lemma OrderPaidHidesRevoke(o: Org, paid: Payload, now: int, revoked: Payload, later: int)
    requires paid.kind.OrderPaid? && Accepts(o, paid, now) && paid.id.Some? && WellFormed(paid)
    requires revoked.kind.SubscriptionRevoked? && revoked.id == paid.subscriptionId && revoked.id.Some?
    ensures var o1 := Dispatched(o, paid, now);
            var o2 := Dispatched(o1, revoked, later);
            && (o2.plan.Free? <==> paid.subscriptionId == paid.id)
            && (paid.subscriptionId != paid.id ==> o2 == o1)
  {
  }

  /** The step stores its event's object id as the subscription id. */
  predicate Binds(s: State, a: Action) {
    a.Webhook? && Activates(a.payload.kind) && Accepts(s.org, a.payload, a.now) && a.payload.id.Some?
  }

  /** The step ends the organisation's subscription. */
  predicate Ends(s: State, a: Action) {
    || (&& a.Webhook? && (a.payload.kind.SubscriptionRevoked? || a.payload.kind.OrderRefunded?)
        && Targets(s.org, a.payload))
    || (a.Reconcile? && Expired(s.org, a.now, a.grace))
  }

  /** The object id of the last accepted id-bearing activation, unless something ended it since. */
  ghost function LastBound(s: State, acts: seq<Action>, bound: Option<string>): Option<string>
    decreases |acts|
  {
    if acts == [] || !Enabled(s, acts[0]) then bound
    else
      var a := acts[0];
      LastBound(Step(s, a), acts[1..], if Binds(s, a) then a.payload.id else if Ends(s, a) then None else bound)
  }

  /**
   * Over every run: a revoke that names a subscription takes effect if and only if that id
   * is the object id of the last accepted id-bearing activation. When that was an
   * `order.paid`, the id is the order's.
   */
  lemma {:induction false} RevokeHitsLastBound(
      s: State, acts: seq<Action>, t: State, revoked: Payload, now: int)
    requires Sound(s.org) && Reaches(s, acts, t)
    requires revoked.kind.SubscriptionRevoked? && revoked.id.Some?
    ensures t.org.subscriptionId == LastBound(s, acts, s.org.subscriptionId)
    ensures Ends(t, Webhook(revoked, now)) <==> revoked.id == LastBound(s, acts, s.org.subscriptionId)
    ensures Ends(t, Webhook(revoked, now)) ==> Dispatched(t.org, revoked, now) == Ended(t.org)
    ensures !Ends(t, Webhook(revoked, now)) ==> Dispatched(t.org, revoked, now) == t.org
    decreases |acts|
  {
    if acts != [] {
      StepKeepsSound(s, acts[0]);
      RevokeHitsLastBound(Step(s, acts[0]), acts[1..], t, revoked, now);
    }
  }

  /* ---- pending checkouts ---- */

  /** The sweep never changes what a reader sees from then on, and leaves no pending plan already past its deadline. */
  lemma SweepIsInvisible(s: State, now: int, t: int)
    requires now <= t
    ensures var o1 := Step(s, ClearAbandoned(now)).org;
            && PendingPlan(o1, t) == PendingPlan(s.org, t)
            && (o1.planPending.Some? ==> o1.pendingExpires.Some? && o1.pendingExpires.value >= now)
            && o1.plan == s.org.plan && o1.status == s.org.status
  {
  }
}
