/**
 What holds of every run of the ledger: any number of transactions in any order,
 with the two provider sagas split, duplicated webhooks, crashes and any clocks.
 */
module LedgerRuns {
  import opened Wrappers
  import opened Ledger
  import opened LedgerInvariant
  import opened LedgerSteps

  ghost function Run(s: Store, acts: seq<Action>): Store {
    if acts == [] then s else Next(Run(s, acts[..|acts| - 1]), acts[|acts| - 1])
  }

  // The store before action i.
  ghost function At(s: Store, acts: seq<Action>, i: nat): Store
    requires i <= |acts|
  {
    Run(s, acts[..i])
  }

  lemma AtNext(s: Store, acts: seq<Action>, i: nat)
    requires i < |acts|
    ensures At(s, acts, i + 1) == Next(At(s, acts, i), acts[i])
  {
    assert acts[..i + 1][..i] == acts[..i];
  }

  lemma AtEnds(s: Store, acts: seq<Action>)
    ensures At(s, acts, 0) == s && At(s, acts, |acts|) == Run(s, acts)
  {
    assert acts[..|acts|] == acts;
  }

  // Every reachable store satisfies the invariant.
  lemma {:induction false} RunKeepsInv(s: Store, acts: seq<Action>)
    requires Inv(s)
    ensures Inv(Run(s, acts))
  {
    if acts != [] {
      hide Inv, Evolves;
      RunKeepsInv(s, acts[..|acts| - 1]);
      StepIsGood(Run(s, acts[..|acts| - 1]), acts[|acts| - 1]);
    }
  }

  lemma {:induction false} ReachableInv(acts: seq<Action>)
    ensures Inv(Run(EMPTY, acts))
  {
    EmptyStoreInv();
    RunKeepsInv(EMPTY, acts);
  }

  ghost predicate Reachable(s: Store) {
    exists acts :: s == Run(EMPTY, acts)
  }

  lemma EmptyIsReachable()
    ensures Reachable(EMPTY)
  {
    assert Run(EMPTY, []) == EMPTY;
  }

  lemma StepIsReachable(s: Store, a: Action)
    requires Reachable(s)
    ensures Reachable(Next(s, a))
  {
    hide Next;
    var acts :| s == Run(EMPTY, acts);
    assert (acts + [a])[..|acts|] == acts;
    assert Run(EMPTY, acts + [a]) == Next(s, a);
  }

  lemma ReachableHasInv(s: Store)
    requires Reachable(s)
    ensures Inv(s)
  {
    var acts :| s == Run(EMPTY, acts);
    ReachableInv(acts);
  }

  /******* Clocks *******/

  // The clock reading of a transaction, if it takes one.
  function Clock(a: Action): Option<Time> {
    match a
    case CreateHoldTx(request, _) => Some(request.now)
    case CommitHoldTx(request, _, _) => Some(request.now)
    case ListTx(now, _) => Some(now)
    case SweepTx(now, _) => Some(now)
    case BeginTx(now, _, _, _, _, _) => Some(now)
    case CompensateTx(now, _) => Some(now)
    case WebhookTx(now, _) => Some(now)
    case CancelTx(now, _, _, _, _, _) => Some(now)
    case RefundAnsweredTx(now, _, _, _) => Some(now)
    case ReconcileTx(now, _, _) => Some(now)
    case StartTx(now, _, _, _, _, _) => Some(now)
    case CompleteTx(now, _, _, _, _) => Some(now)
    case _ => None
  }

  predicate AtOrAfter(a: Action, t: Time) {
    Clock(a).Some? ==> t <= Clock(a).value
  }

  predicate AtOrBefore(a: Action, t: Time) {
    Clock(a).Some? ==> Clock(a).value <= t
  }

  // The clocks of the run start at or after t and never go back.
  ghost predicate InOrder(acts: seq<Action>, t: Time) {
    && (forall i | 0 <= i < |acts| :: AtOrAfter(acts[i], t))
    && (forall i, j | 0 <= i < j < |acts| && Clock(acts[i]).Some? :: AtOrAfter(acts[j], Clock(acts[i]).value))
  }

  lemma InOrderFrom(a: Action, acts: seq<Action>, t: Time)
    requires Clock(a) == Some(t) && InOrder(acts, t)
    ensures InOrder([a] + acts, t)
  {
  }

  ghost predicate OrderedUntil(acts: seq<Action>, from: Time, until: Time) {
    InOrder(acts, from) && forall i | 0 <= i < |acts| :: AtOrBefore(acts[i], until)
  }

  lemma OrderedOneMore(acts: seq<Action>, a: Action, from: Time, until: Time, later: Time)
    requires OrderedUntil(acts, from, until) && from <= until <= later
    requires AtOrAfter(a, until) && AtOrBefore(a, later)
    ensures OrderedUntil(acts + [a], from, later)
  {
  }

  /******* Rows over whole runs *******/

  // A booking's version tells whether it changed: equal versions, equal rows.
  predicate LaterBooking(x: Booking, y: Booking) {
    SameReservation(x, y) && x.version <= y.version && (x.version == y.version ==> x == y)
  }

  ghost predicate Later(s: Store, t: Store) {
    && (forall b | b in s.bookings :: b in t.bookings && LaterBooking(s.bookings[b], t.bookings[b]))
    && PaymentsEvolve(s.payments, t.payments)
    && RefundsEvolve(s.refunds, t.refunds)
    && SessionsEvolve(s.sessions, t.sessions)
    && EventsEvolve(s.events, t.events)
  }

  lemma EvolvesIsLater(s: Store, t: Store)
    requires Evolves(s, t)
    ensures Later(s, t)
  {
  }

  lemma LaterTransitive(s: Store, t: Store, u: Store)
    requires Later(s, t) && Later(t, u)
    ensures Later(s, u)
  {
  }

  lemma LaterReflexive(s: Store)
    ensures Later(s, s)
  {
  }

  lemma {:induction false} RunIsLater(s: Store, acts: seq<Action>, i: nat, j: nat)
    requires Inv(s) && i <= j <= |acts|
    ensures Later(At(s, acts, i), At(s, acts, j))
    decreases j
  {
    hide Inv, Evolves, Later;
    if i == j {
      LaterReflexive(At(s, acts, i));
    } else {
      RunIsLater(s, acts, i, j - 1);
      RunKeepsInv(s, acts[..j - 1]);
      StepIsGood(At(s, acts, j - 1), acts[j - 1]);
      AtNext(s, acts, j - 1);
      EvolvesIsLater(At(s, acts, j - 1), At(s, acts, j));
      LaterTransitive(At(s, acts, i), At(s, acts, j - 1), At(s, acts, j));
    }
  }

  // Two observations of a booking with the same version saw the same row, in particular
  // the same status, although bookings cycle between held and payment pending.
  lemma EqualVersionEqualStatus(s: Store, acts: seq<Action>, i: nat, j: nat, b: Id)
    requires Inv(s) && i <= j <= |acts|
    requires b in At(s, acts, i).bookings
    ensures b in At(s, acts, j).bookings
    ensures At(s, acts, i).bookings[b].version == At(s, acts, j).bookings[b].version
        ==> At(s, acts, i).bookings[b] == At(s, acts, j).bookings[b]
  {
    RunIsLater(s, acts, i, j);
  }

  predicate ChangesStatus(s: Store, t: Store, b: Id) {
    b in s.bookings && b in t.bookings && s.bookings[b].status != t.bookings[b].status
  }

  ghost function StatusChanges(s: Store, acts: seq<Action>, b: Id): nat {
    if acts == [] then 0
    else
      var before := acts[..|acts| - 1];
      StatusChanges(s, before, b) + if ChangesStatus(Run(s, before), Run(s, acts), b) then 1 else 0
  }

  function VersionOf(s: Store, b: Id): int {
    if b in s.bookings then s.bookings[b].version else 1
  }

  // A booking's version is one plus the number of its status changes, counted from any store.
  lemma {:induction false} VersionCountsChanges(s: Store, acts: seq<Action>, b: Id)
    requires Inv(s)
    ensures VersionOf(Run(s, acts), b) == VersionOf(s, b) + StatusChanges(s, acts, b)
  {
    if acts != [] {
      var before := acts[..|acts| - 1];
      hide Inv, Next, ChangesStatus, VersionOf;
      VersionCountsChanges(s, before, b);
      RunKeepsInv(s, before);
      StepCountsChange(Run(s, before), acts[|acts| - 1], b);
    }
  }

  lemma {:induction false} StepCountsChange(s: Store, a: Action, b: Id)
    requires Inv(s)
    ensures VersionOf(Next(s, a), b) == VersionOf(s, b) + if ChangesStatus(s, Next(s, a), b) then 1 else 0
  {
    hide Inv, Next, VersionOf, ChangesStatus;
    StepIsGood(s, a);
    EvolvingCounts(s, Next(s, a), b);
  }

  lemma EvolvingCounts(s: Store, t: Store, b: Id)
    requires BookingsEvolve(s.bookings, t.bookings)
    ensures VersionOf(t, b) == VersionOf(s, b) + if ChangesStatus(s, t, b) then 1 else 0
  {
  }

  // begin, cancel and start requests that name booking b at version v.
  predicate Guarded(a: Action, b: Id, v: int) {
    || (a.BeginTx? && a.booking == b && a.version == v)
    || (a.CancelTx? && a.booking == b && a.version == v)
    || (a.StartTx? && a.booking == b && a.version == v)
  }

  lemma StaleRequestChangesNothing(s: Store, a: Action, b: Id, v: int)
    requires Guarded(a, b, v) && b in s.bookings && s.bookings[b].version != v
    ensures Next(s, a) == s
  {
  }

  lemma ChangeNeedsVersion(s: Store, a: Action, b: Id, v: int)
    requires Guarded(a, b, v) && Next(s, a) != s
    ensures b in s.bookings && s.bookings[b].version == v
    ensures b in Next(s, a).bookings && Next(s, a).bookings[b].version == v + 1
  {
  }

  // Of any number of requests carrying the same version of a booking, at most one has an effect.
  lemma VersionUsedOnce(s: Store, acts: seq<Action>, i: nat, j: nat, b: Id, v: int)
    requires Inv(s) && i < j < |acts|
    requires Guarded(acts[i], b, v) && Guarded(acts[j], b, v)
    requires At(s, acts, i + 1) != At(s, acts, i)
    ensures At(s, acts, j + 1) == At(s, acts, j)
  {
    hide Inv, Next, Run, Guarded;
    AtNext(s, acts, i);
    AtNext(s, acts, j);
    ChangeNeedsVersion(At(s, acts, i), acts[i], b, v);
    RunIsLater(s, acts, i + 1, j);
    StaleRequestChangesNothing(At(s, acts, j), acts[j], b, v);
  }

  // The status of a payment only climbs, and the identifiers it learns stay.
  lemma PaymentClimbs(s: Store, acts: seq<Action>, i: nat, j: nat, p: Id)
    requires Inv(s) && i <= j <= |acts| && p in At(s, acts, i).payments
    ensures p in At(s, acts, j).payments
    ensures PaymentStep(At(s, acts, i).payments[p], At(s, acts, j).payments[p])
  {
    RunIsLater(s, acts, i, j);
  }

  // Paid back is final: neither a processed refund nor a refunded payment ever changes status again.
  lemma PaidBackIsFinal(s: Store, acts: seq<Action>, i: nat, j: nat)
    requires Inv(s) && i <= j <= |acts|
    ensures forall p | p in At(s, acts, i).payments && At(s, acts, i).payments[p].status.Refunded? ::
              p in At(s, acts, j).payments && At(s, acts, j).payments[p].status.Refunded?
    ensures forall r | r in At(s, acts, i).refunds && At(s, acts, i).refunds[r].status.Processed? ::
              r in At(s, acts, j).refunds && At(s, acts, j).refunds[r].status.Processed?
  {
    RunIsLater(s, acts, i, j);
  }

  /******* One provider refund call per booking *******/

  // Action i asks the provider for the refund r of booking b.
  ghost predicate AsksForRefund(s: Store, t: Store, b: Id, r: Id) {
    r !in s.calls && r in t.calls && t.calls[r].booking == b
  }

  lemma CallHasRefund(s: Store, r: Id)
    requires Inv(s) && r in s.calls
    ensures RefundOfBooking(s.refunds, s.payments, s.calls[r].booking, r)
  {
  }

  lemma RefundStays(s: Store, t: Store, b: Id, r: Id)
    requires Later(s, t) && RefundOfBooking(s.refunds, s.payments, b, r)
    ensures RefundOfBooking(t.refunds, t.payments, b, r)
  {
  }

  lemma OneRefundPerBooking(s: Store, b: Id, r: Id, q: Id)
    requires Inv(s)
    requires RefundOfBooking(s.refunds, s.payments, b, r) && RefundOfBooking(s.refunds, s.payments, b, q)
    ensures r == q
  {
  }

  // A booking issues at most one provider refund call in any run.
  lemma OneRefundCall(s: Store, acts: seq<Action>, i: nat, j: nat, b: Id, r: Id, q: Id)
    requires Inv(s) && i < j < |acts|
    requires AsksForRefund(At(s, acts, i), At(s, acts, i + 1), b, r)
    ensures !AsksForRefund(At(s, acts, j), At(s, acts, j + 1), b, q)
  {
    hide Inv, Later, Run;
    RunKeepsInv(s, acts[..i + 1]);
    CallHasRefund(At(s, acts, i + 1), r);
    RunIsLater(s, acts, i + 1, j);
    RefundStays(At(s, acts, i + 1), At(s, acts, j), b, r);
    RunKeepsInv(s, acts[..j]);
    AtNext(s, acts, j);
    RefundedBookingAsksNoMore(At(s, acts, j), acts[j], b, r, q);
  }

  lemma {:induction false} RefundedBookingAsksNoMore(s: Store, a: Action, b: Id, r: Id, q: Id)
    requires Inv(s) && RefundOfBooking(s.refunds, s.payments, b, r)
    ensures !AsksForRefund(s, Next(s, a), b, q)
  {
    hide Reservations, Payments, Refunds, Settled, Sessions, Later, Next;
    var t := Next(s, a);
    StepIsGood(s, a);
    EvolvesIsLater(s, t);
    RefundStays(s, t, b, r);
    if q in t.calls && q !in s.calls && t.calls[q].booking == b {
      CallHasRefund(t, q);
      OneRefundPerBooking(t, b, r, q);
    }
  }

  /******* Webhooks take effect once *******/

  predicate IsRedelivery(s: Store, a: Action) {
    a.WebhookTx? && a.delivery.event in s.events
  }

  // Deliveries whose effect was committed, as opposed to rejected ones.
  ghost predicate CommitsEvent(s: Store, a: Action, event: Id) {
    a.WebhookTx? && a.delivery.event == event
    && (Apply(s, a).reply.WebhookProcessed? || Apply(s, a).reply.WebhookIgnored?)
  }

  lemma RedeliveryChangesNothing(s: Store, a: Action)
    requires IsRedelivery(s, a)
    ensures Next(s, a) == s
    ensures Apply(s, a).reply.Duplicate? || Apply(s, a).reply.AuthenticationError? || Apply(s, a).reply.PayloadError?
    // The same id with another body is refused.
    ensures a.delivery.digest != s.events[a.delivery.event].digest ==> !Apply(s, a).reply.Duplicate?
  {
  }

  lemma CommitRecordsEvent(s: Store, a: Action, event: Id)
    requires CommitsEvent(s, a, event)
    ensures event !in s.events && event in Next(s, a).events
    ensures Next(s, a).events[event].digest == a.delivery.digest
  {
  }

  // An event id commits its effect at most once in any run.
  lemma EventCommitsOnce(s: Store, acts: seq<Action>, i: nat, j: nat, event: Id)
    requires Inv(s) && i < j < |acts|
    requires CommitsEvent(At(s, acts, i), acts[i], event)
    requires acts[j].WebhookTx? && acts[j].delivery.event == event
    ensures !CommitsEvent(At(s, acts, j), acts[j], event)
    ensures At(s, acts, j + 1) == At(s, acts, j)
  {
    hide Apply;
    CommitRecordsEvent(At(s, acts, i), acts[i], event);
    AtNext(s, acts, i);
    AtNext(s, acts, j);
    RunIsLater(s, acts, i + 1, j);
    RedeliveryChangesNothing(At(s, acts, j), acts[j]);
  }

  ghost function WithoutRedeliveries(s: Store, acts: seq<Action>): seq<Action> {
    if acts == [] then []
    else
      var before, last := acts[..|acts| - 1], acts[|acts| - 1];
      WithoutRedeliveries(s, before) + if IsRedelivery(Run(s, before), last) then [] else [last]
  }

  // Deleting every redelivery from a run, with anything in between, leaves the final store as it was.
  lemma {:induction false} RedeliveriesDoNotMatter(s: Store, acts: seq<Action>)
    ensures Run(s, WithoutRedeliveries(s, acts)) == Run(s, acts)
  {
    if acts != [] {
      var before, last := acts[..|acts| - 1], acts[|acts| - 1];
      hide Next;
      RedeliveriesDoNotMatter(s, before);
      if IsRedelivery(Run(s, before), last) {
        RedeliveryChangesNothing(Run(s, before), last);
        assert WithoutRedeliveries(s, acts) == WithoutRedeliveries(s, before);
      } else {
        var kept := WithoutRedeliveries(s, acts);
        assert kept[..|kept| - 1] == WithoutRedeliveries(s, before);
      }
    }
  }
}
