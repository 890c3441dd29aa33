/**
 What the invariant means for the guards and the readers of the ledger, in every
 reachable store.
 */
module LedgerFacts {
  import opened Wrappers
  import opened Ledger
  import opened LedgerInvariant
  import opened LedgerSteps
  import opened LedgerRuns

  /******* Bookings *******/

  predicate Occupies(b: Booking, point: Id, t: Time) {
    b.point == point && Blocking(b.status) && b.startsAt <= t < b.endsAt
  }

  // At every instant at most one booking occupies a charge point.
  lemma {:induction false} OneBookingAtATime(acts: seq<Action>, a: Id, b: Id, point: Id, t: Time)
    requires
      var s := Run(EMPTY, acts);
      && a in s.bookings && b in s.bookings
      && Occupies(s.bookings[a], point, t) && Occupies(s.bookings[b], point, t)
    ensures a == b
  {
    ReachableInv(acts);
    var s := Run(EMPTY, acts);
    ClashIsSame(s, a, b);
  }

  lemma ClashIsSame(s: Store, a: Id, b: Id)
    requires Inv(s) && a in s.bookings && b in s.bookings && Clash(s.bookings[a], s.bookings[b])
    ensures a == b
  {
  }

  // The exclusion constraint never decides: a hold that passed the overlap check satisfies it.
  lemma ExclusionConstraintNeverFires(s: Store, r: HoldRequest, swept: set<Id>, id: Id)
    requires Inv(s)
    ensures NoDoubleBooking(CommitHold(s, r, swept, id).store.bookings)
  {
    CommitHoldIsGood(s, r, swept, id);
  }

  /******* Cancellation *******/

  lemma PaidBookingHasCapture(s: Store, b: Id)
    requires Inv(s) && b in s.bookings && PaidStatus(s.bookings[b].status)
    ensures exists p :: CapturedFor(s.payments, b, p)
    ensures forall p | CapturedFor(s.payments, b, p) :: s.payments[p].providerPaymentId.Some?
  {
  }

  // Cancelling a confirmed booking at its current version always asks for one full refund,
  // whichever captured payment the query returns.
  lemma CancellingConfirmedRefundsInFull(
    s: Store, now: Time, booking: Id, pick: Id, id: Id)
    requires Inv(s) && booking in s.bookings && s.bookings[booking].status.Confirmed?
    requires CapturedFor(s.payments, booking, pick) && id !in s.refunds
    ensures
      var b := s.bookings[booking];
      var e := PrepareCancellation(s, now, b.user, booking, b.version, pick, id);
      && e.reply == RefundStarted(id)
      && e.store.bookings[booking].status.Cancelled?
      && e.store.refunds.Keys == s.refunds.Keys + {id}
      && e.store.refunds[id].status.Requested?
      && e.store.refunds[id].payment == pick
      && Some(e.store.refunds[id].amount) == b.amount
      && e.store.refunds[id].subunits == s.payments[pick].subunits
      && e.store.refunds[id].currency == b.currency
      && id in e.store.calls
      && s.payments[pick].providerPaymentId == Some(e.store.calls[id].providerPaymentId)
  {
  }

  /******* Payments and refunds *******/

  // A payment is refunded exactly when its refund is processed, and one with a refund holds the money.
  lemma RefundAndPaymentAgree(s: Store, p: Id)
    requires Inv(s) && p in s.payments
    ensures s.payments[p].status.Refunded? <==> exists r :: RefundOf(s.refunds, p, r) && s.refunds[r].status.Processed?
    ensures forall r | RefundOf(s.refunds, p, r) ::
              && (s.payments[p].status.Captured? || s.payments[p].status.Refunded?)
              && s.refunds[r].subunits == s.payments[p].subunits
  {
  }

  // A captured payment without a recorded error pays for a booking that is or was used,
  // or belongs to a cancelled booking that got a refund.
  lemma {:induction false} NoCaptureIsSilentlyLost(acts: seq<Action>, p: Id)
    requires
      var s := Run(EMPTY, acts);
      p in s.payments && s.payments[p].status.Captured? && s.payments[p].error.None?
    ensures
      var s := Run(EMPTY, acts);
      var b := s.payments[p].booking;
      && b in s.bookings
      && (|| s.bookings[b].status.Confirmed? || s.bookings[b].status.Active? || s.bookings[b].status.Completed?
          || (s.bookings[b].status.Cancelled? && exists r :: RefundOfBooking(s.refunds, s.payments, b, r)))
  {
    ReachableInv(acts);
    var s := Run(EMPTY, acts);
    assert Accounted(s, s.payments[p].booking);
  }

  // The first half of _finalize_provider_order's status test never decides: an answered attempt
  // is still initiated, so a booking that waits for it gets its order.
  lemma FinalizeOnlyTestsTheBooking(s: Store, p: Id, order: Id)
    requires Inv(s) && p in s.attempts && !OrderTaken(s.payments, order, p)
    ensures
      var e := FinalizeOrder(s, p, order);
      var b := s.attempts[p].booking;
      && b in s.bookings && p in e.store.payments
      && e.store.payments[p].orderId == Some(order)
      && (if s.bookings[b].status.PaymentPending?
          then e.reply.Done? && e.store.payments[p].status.OrderCreated?
          else e.reply.Conflict? && e.store.payments[p].status.Failed?)
      && e.store.bookings == s.bookings
  {
  }

  // An idempotency key names at most one payment, and a second request with it creates none.
  lemma OnePaymentPerKey(s: Store, now: Time, user: Id, booking: Id, version: int, id: Id, p: Id)
    requires Inv(s) && p in s.payments
    ensures
      var e := BeginPayment(s, now, user, booking, version, s.payments[p].key, id);
      && e.store == s
      && e.reply == (if s.payments[p].user == user && s.payments[p].booking == booking
                        && s.payments[p].status.OrderCreated?
                     then ExistingCheckout(p) else Conflict)
  {
    assert HasKey(s.payments, s.payments[p].key, p);
    KeyIsUnique(s, s.payments[p].key);
    hide Inv;
  }

  /******* Sessions *******/

  ghost predicate SessionWith(sessions: map<Id, Session>, b: Id, status: SessionStatus, x: Id) {
    x in sessions && sessions[x].booking == b && sessions[x].status == status
  }

  // A booking is active exactly when it has a charging session and completed exactly when it has a
  // finished one; it never has two.
  lemma SessionMatchesBooking(s: Store, b: Id)
    requires Inv(s) && b in s.bookings
    ensures s.bookings[b].status.Active? <==> exists x :: SessionWith(s.sessions, b, Charging, x)
    ensures s.bookings[b].status.Completed? <==> exists x :: SessionWith(s.sessions, b, Finished, x)
    ensures forall x, y | x in s.sessions && y in s.sessions
                       && s.sessions[x].booking == b && s.sessions[y].booking == b :: x == y
  {
    if s.bookings[b].status.Active? || s.bookings[b].status.Completed? {
      assert HasSession(s.sessions, b);
      var x :| x in s.sessions && s.sessions[x].booking == b;
      assert SessionWith(s.sessions, b, s.sessions[x].status, x);
    }
  }

  // complete_charging_session's test of the booking never fails, and the energy is never negative.
  lemma CompletionOnlyTestsTheSession(
    s: Store, now: Time, operator: Operator, session: Id, version: int, meterEnd: real)
    requires Inv(s)
    ensures
      var e := CompleteSession(s, now, operator, session, version, meterEnd);
      && (e.reply.Conflict? <==>
            !(session in s.sessions && s.sessions[session].status.Charging? && version == 1))
      && (e.reply.Done? ==>
            && session in e.store.sessions
            && e.store.sessions[session].energy.Some?
            && e.store.sessions[session].energy.value >= 0.0
            && e.store.sessions[session].meterStart + e.store.sessions[session].energy.value == meterEnd)
  {
  }

  // Two sessions never charge at one charge point at once.
  lemma OneChargingSessionPerPoint(s: Store, x: Id, y: Id)
    requires Inv(s) && x in s.sessions && y in s.sessions
    requires s.sessions[x].status.Charging? && s.sessions[y].status.Charging?
    requires s.sessions[x].point == s.sessions[y].point
    ensures x == y
  {
  }
}
