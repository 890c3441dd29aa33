/**
 Exactly when each customer's and operator's request is granted, what it writes and what it
 answers, in the fields of the rows and with every constant written out.
 */
module Requests {
  import opened Wrappers
  import opened Ledger
  import opened LedgerInvariant
  import opened LedgerSteps
  import opened LedgerRuns
  import opened LedgerFacts
  import opened Money

  /******* Holds *******/

  // The hold of booking b ran out at now or before.
  predicate RunOut(b: Booking, now: Time) {
    b.status == Held && b.holdExpiresAt.Some? && b.holdExpiresAt.value <= now
  }

  predicate OpenPoint(points: map<Id, ChargePoint>, point: Id) {
    point in points && points[point].bookable && points[point].available && points[point].stationActive
  }

  // Booking b keeps the requested interval of its point busy.
  predicate InTheWay(b: Booking, r: HoldRequest) {
    && b.point == r.point && b.startsAt < r.endsAt && r.startsAt < b.endsAt
    && b.status in {Held, PaymentPending, Confirmed, Active}
  }

  // A hold is granted exactly for a future interval of a charge point in service that only run-out holds
  // meet. It writes one row, and expires exactly the run-out holds of that point.
  lemma HoldIsGrantedExactly(s: Store, r: HoldRequest, id: Id)
    ensures
      var e := CreateHold(s, r, id);
      && (e.reply == Done <==>
            && r.now < r.startsAt < r.endsAt
            && OpenPoint(s.points, r.point)
            && id !in s.bookings
            && forall b | b in s.bookings && InTheWay(s.bookings[b], r) :: RunOut(s.bookings[b], r.now))
      && (e.reply == TimeError <==> r.startsAt <= r.now)
      && (e.reply == Done || e.reply == TimeError || e.reply == Unavailable)
      && (e.reply != Done ==> e.store == s)
      && (e.reply == Done ==>
            && e.store == s.(bookings := e.store.bookings)
            && e.store.bookings.Keys == s.bookings.Keys + {id}
            && e.store.bookings[id] == Booking(
                 r.user, r.point, r.startsAt, r.endsAt, Some(r.now + 600), Held, Some(s.points[r.point].fee),
                 Inr, 1, None)
            && forall b | b in s.bookings ::
                 e.store.bookings[b] ==
                   if s.bookings[b].point == r.point && RunOut(s.bookings[b], r.now)
                   then s.bookings[b].(status := Expired, version := s.bookings[b].version + 1)
                   else s.bookings[b])
  {
    SlotIsFreeExactly(s.bookings, r);
    hide SlotFree;
  }

  lemma SlotIsFreeExactly(bookings: map<Id, Booking>, r: HoldRequest)
    ensures SlotFree(
              SweepTable(bookings, r.now, BookingsAtPoint(bookings, r.point)), r.point, r.startsAt, r.endsAt)
       <==> forall b | b in bookings && InTheWay(bookings[b], r) :: RunOut(bookings[b], r.now)
  {
    var swept := SweepTable(bookings, r.now, BookingsAtPoint(bookings, r.point));
    forall b | b in bookings
      ensures Overlaps(swept[b], r.point, r.startsAt, r.endsAt)
         <==> InTheWay(bookings[b], r) && !RunOut(bookings[b], r.now)
    {
    }
    assert swept.Keys == bookings.Keys;
  }

  // Listing and the maintenance job expire exactly the run-out holds they are given.
  lemma ExpiryIsExact(s: Store, now: Time, ids: set<Id>)
    ensures
      var t := Sweep(s, now, ids);
      && t == s.(bookings := t.bookings) && t.bookings.Keys == s.bookings.Keys
      && forall b | b in s.bookings ::
           t.bookings[b] ==
             if b in ids && RunOut(s.bookings[b], now)
             then s.bookings[b].(status := Expired, version := s.bookings[b].version + 1)
             else s.bookings[b]
  {
  }

  // A customer sees exactly the own bookings, none of them a hold that ran out.
  lemma ListingShowsOwnBookings(s: Store, now: Time, user: Id)
    ensures
      var e := ListBookings(s, now, user);
      && e.store == s.(bookings := e.store.bookings) && e.store.bookings.Keys == s.bookings.Keys
      && (forall b | b in s.bookings ::
            e.store.bookings[b] ==
              if s.bookings[b].user == user && RunOut(s.bookings[b], now)
              then s.bookings[b].(status := Expired, version := s.bookings[b].version + 1)
              else s.bookings[b])
      && e.reply.Rows?
      && (forall b :: b in e.reply.rows <==> b in s.bookings && s.bookings[b].user == user)
      && (forall b | b in e.reply.rows :: e.reply.rows[b] == e.store.bookings[b])
  {
  }

  /******* Payments *******/

  // The booking is the user's, at the version the user saw.
  predicate Owns(s: Store, user: Id, booking: Id, version: int) {
    booking in s.bookings && s.bookings[booking].user == user && s.bookings[booking].version == version
  }

  predicate Standing(b: Booking, now: Time) {
    b.status == Held && b.holdExpiresAt.Some? && b.holdExpiresAt.value > now
  }

  // A payment begins exactly for the owner's standing hold at its version, with a new idempotency key and a
  // positive fee of whole subunits.
  lemma BeginIsGrantedExactly(s: Store, now: Time, user: Id, booking: Id, version: int, key: Id, id: Id)
    requires Inv(s)
    ensures
      var e := BeginPayment(s, now, user, booking, version, key, id);
      && (e.reply == Started(id) <==>
            && (forall p | p in s.payments :: s.payments[p].key != key)
            && id !in s.payments
            && Owns(s, user, booking, version) && Standing(s.bookings[booking], now)
            && s.bookings[booking].amount.Some? && s.bookings[booking].amount.value > 0.0
            && exists n :: IsSubunits(n, s.bookings[booking].amount.value))
      && (e.reply != Started(id) ==> e.store == s && (e.reply == Conflict || e.reply.ExistingCheckout?))
      && (e.reply == Started(id) ==>
            && e.store.bookings == s.bookings[booking :=
                 s.bookings[booking].(status := PaymentPending, version := version + 1)]
            && id in e.store.payments
            && IsSubunits(e.store.payments[id].subunits, s.bookings[booking].amount.value)
            && e.store.payments == s.payments[id := Payment(
                 booking, user, Initiated, s.bookings[booking].amount.value, e.store.payments[id].subunits,
                 s.bookings[booking].currency, key, None, None, None)]
            && e.store.attempts == s.attempts[id := Attempt(
                 booking, e.store.payments[id].subunits, s.bookings[booking].currency)]
            && e.store == s.(
                 bookings := e.store.bookings, payments := e.store.payments, attempts := e.store.attempts))
  {
    hide Inv;
    KeyIsUsedExactly(s.payments, key);
    if booking in s.bookings && s.bookings[booking].amount.Some? {
      SubunitsAreExact(s.bookings[booking].amount.value);
    }
    AttemptIsGrantedExactly(s, now, user, booking, version, key, id);
    hide BeginAttempt, IsSubunits;
  }

  lemma KeyIsUsedExactly(payments: map<Id, Payment>, key: Id)
    ensures PaymentWithKey(payments, key).None? <==> forall p | p in payments :: payments[p].key != key
  {
    if PaymentWithKey(payments, key).None? {
      forall p | p in payments
        ensures payments[p].key != key
      {
        assert !HasKey(payments, key, p);
      }
    }
  }

  lemma SubunitsAreExact(amount: real)
    ensures ToSubunits(amount).Some? <==> exists n :: IsSubunits(n, amount)
    ensures ToSubunits(amount).Some? ==> IsSubunits(ToSubunits(amount).value, amount)
  {
    ConversionIsExact(amount, (amount * 100.0).Floor);
  }

  lemma AttemptIsGrantedExactly(
    s: Store, now: Time, user: Id, booking: Id, version: int, key: Id, id: Id)
    ensures
      var e := BeginAttempt(s, now, user, booking, version, key, id);
      && (e.reply == Started(id) <==>
            && id !in s.payments
            && Owns(s, user, booking, version) && Standing(s.bookings[booking], now)
            && s.bookings[booking].amount.Some? && s.bookings[booking].amount.value > 0.0
            && ToSubunits(s.bookings[booking].amount.value).Some?)
      && (e.reply != Started(id) ==> e.store == s && e.reply == Conflict)
      && (e.reply == Started(id) ==>
            var n := ToSubunits(s.bookings[booking].amount.value).value;
            e.store == s.(
              bookings := s.bookings[booking :=
                s.bookings[booking].(status := PaymentPending, version := version + 1)],
              payments := s.payments[id := Payment(
                booking, user, Initiated, s.bookings[booking].amount.value, n, s.bookings[booking].currency,
                key, None, None, None)],
              attempts := s.attempts[id := Attempt(booking, n, s.bookings[booking].currency)]))
  {
    hide ToSubunits;
  }

  // The order's answer, or the provider's failure, closes the call whatever it finds.
  lemma OrderAnswerIsExact(s: Store, p: Id, order: Id)
    requires Inv(s) && p in s.attempts
    ensures p in s.payments && s.payments[p].booking in s.bookings
    ensures
      var y, b := s.payments[p], s.bookings[s.payments[p].booking];
      var e := FinalizeOrder(s, p, order);
      && e.store == s.(payments := e.store.payments, attempts := s.attempts - {p})
      && (e.reply == ServerError <==> exists q | q in s.payments :: q != p && s.payments[q].orderId == Some(order))
      && (e.reply == ServerError ==> e.store.payments == s.payments)
      && (e.reply != ServerError && b.status == PaymentPending ==>
            && e.reply == Done
            && e.store.payments == s.payments[p := y.(orderId := Some(order), status := OrderCreated)])
      && (e.reply != ServerError && b.status != PaymentPending ==>
            && e.reply == Conflict
            && e.store.payments == s.payments[p := y.(
                 orderId := Some(order), status := Failed, error := Some(BookingStateChanged))])
  {
    InFlightAttempt(s, p);
    hide Inv;
  }

  lemma OrderFailureIsExact(s: Store, now: Time, p: Id)
    requires Inv(s) && p in s.attempts
    ensures p in s.payments && s.payments[p].booking in s.bookings
    ensures
      var y, b := s.payments[p], s.bookings[s.payments[p].booking];
      var e := CompensateFailure(s, now, p);
      && e.reply == Done
      && e.store == s.(
           payments := s.payments[p := y.(status := Failed, error := Some(ProviderOrderFailed))],
           bookings := e.store.bookings, attempts := s.attempts - {p})
      && e.store.bookings ==
           (if b.status != PaymentPending then s.bookings
            else s.bookings[y.booking := b.(
              status := if b.holdExpiresAt.Some? && b.holdExpiresAt.value > now then Held else Expired,
              version := b.version + 1)])
  {
    InFlightAttempt(s, p);
    hide Inv;
    assert s.bookings[s.payments[p].booking := s.bookings[s.payments[p].booking]] == s.bookings;
  }

  // Payment p can be verified by this user with this order and provider payment: it was before, or it still
  // waits and no other payment has the provider payment.
  predicate Verifiable(s: Store, user: Id, order: Id, providerPayment: Id, p: Id) {
    && p in s.payments && s.payments[p].orderId == Some(order) && s.payments[p].user == user
    && (|| (s.payments[p].status in {Authorized, Captured} && s.payments[p].providerPaymentId == Some(providerPayment))
        || (&& s.payments[p].status == OrderCreated
            && s.payments[p].providerPaymentId in {None, Some(providerPayment)}
            && forall q | q in s.payments && q != p :: s.payments[q].providerPaymentId != Some(providerPayment)))
  }

  // A checkout is verified exactly with a valid signature for a verifiable payment of the user's own; the
  // only write is that payment's provider id and status, and anything else changes nothing.
  lemma CheckoutIsVerifiedExactly(s: Store, user: Id, order: Id, providerPayment: Id, signed: bool)
    requires Inv(s)
    ensures
      var e := VerifyCheckout(s, user, order, providerPayment, signed);
      && (e.reply == Done <==> signed && exists p :: Verifiable(s, user, order, providerPayment, p))
      && (e.reply != Done ==> e.reply == VerificationError && e.store == s)
      && e.store == s.(payments := e.store.payments) && e.store.payments.Keys == s.payments.Keys
      && forall p | p in s.payments ::
           e.store.payments[p] ==
             if signed && Verifiable(s, user, order, providerPayment, p) && s.payments[p].status == OrderCreated
             then s.payments[p].(providerPaymentId := Some(providerPayment), status := Authorized)
             else s.payments[p]
  {
    OrderIsUnique(s, order);
    hide Inv;
    forall p | Verifiable(s, user, order, providerPayment, p)
      ensures HasOrder(s.payments, order, p)
    {
    }
    var found := PaymentWithOrder(s.payments, order);
    if found.Some? {
      VerifiableIsTested(s, user, order, providerPayment, found.value);
    }
  }

  lemma VerifiableIsTested(s: Store, user: Id, order: Id, providerPayment: Id, p: Id)
    requires HasOrder(s.payments, order, p)
    ensures
      var y := s.payments[p];
      Verifiable(s, user, order, providerPayment, p) <==>
        && y.user == user
        && (y.providerPaymentId.Some? ==> y.providerPaymentId.value == providerPayment)
        && (|| (y.providerPaymentId.Some? && (y.status.Authorized? || y.status.Captured?))
            || (y.status.OrderCreated? && !ProviderPaymentTaken(s.payments, providerPayment, p)))
  {
  }

  /******* Cancellation *******/

  // A booking in progress of payment, or a standing hold, is cancelled at once; a confirmed booking with a
  // refund of the captured payment. Both need the owner and the current version. An already cancelled
  // booking is answered with its refund, if it has one. Anything else is refused and changes nothing.
  lemma CancellationIsGrantedExactly(
    s: Store, now: Time, user: Id, booking: Id, version: int, pick: Id, id: Id)
    requires Inv(s)
    ensures
      var e := PrepareCancellation(s, now, user, booking, version, pick, id);
      && (e.reply == Done <==>
            && Owns(s, user, booking, version)
            && (s.bookings[booking].status == PaymentPending || Standing(s.bookings[booking], now)))
      && (e.reply.RefundStarted? <==>
            && Owns(s, user, booking, version) && s.bookings[booking].status == Confirmed
            && pick in s.payments && s.payments[pick].booking == booking && s.payments[pick].status == Captured
            && id !in s.refunds)
      && (forall r :: e.reply == ExistingRefund(r) <==>
            && booking in s.bookings && s.bookings[booking].user == user && s.bookings[booking].status == Cancelled
            && r in s.refunds && s.refunds[r].payment in s.payments
            && s.payments[s.refunds[r].payment].booking == booking)
      && (e.reply == Done || e.reply == RefundStarted(id) || e.reply.ExistingRefund? || e.reply == Conflict)
      && (e.reply == Done || e.reply.RefundStarted? ==>
            e.store.bookings == s.bookings[booking := s.bookings[booking].(
              status := Cancelled, version := version + 1, cancelledAt := Some(now))])
      && (e.reply == Done ==> e.store == s.(bookings := e.store.bookings))
      && (e.reply.RefundStarted? ==>
            var y := s.payments[pick];
            && e.store.refunds == s.refunds[id := Refund(
                 pick, Requested, y.amount, y.subunits, y.currency, None, None, None, now)]
            && id in e.store.calls
            && e.store.calls == s.calls[id := RefundCall(
                 booking, pick, e.store.calls[id].providerPaymentId, y.subunits, y.currency)]
            && y.providerPaymentId == Some(e.store.calls[id].providerPaymentId)
            && e.store == s.(
                 bookings := e.store.bookings, refunds := e.store.refunds, calls := e.store.calls))
      && (e.reply != Done && !e.reply.RefundStarted? ==> e.store == s)
  {
    if booking in s.bookings {
      BookingRefundIsFound(s, booking);
      if s.bookings[booking].status.Confirmed? && CapturedFor(s.payments, booking, pick) {
        PaymentFacts(s, pick);
        CapturedPaymentHasNoRefund(s, booking, pick);
      }
    }
    hide Inv, FindRefund, FindBookingRefund, PaymentRow, PaymentMatches, CapturedFor;
  }

  lemma BookingRefundIsFound(s: Store, booking: Id)
    requires Inv(s)
    ensures forall r ::
              FindBookingRefund(s.refunds, s.payments, booking) == Some(r) <==>
                && r in s.refunds && s.refunds[r].payment in s.payments
                && s.payments[s.refunds[r].payment].booking == booking
  {
    hide Inv;
    var found := FindBookingRefund(s.refunds, s.payments, booking);
    forall r
      ensures found == Some(r) <==> RefundOfBooking(s.refunds, s.payments, booking, r)
    {
      if found.Some? && RefundOfBooking(s.refunds, s.payments, booking, r) {
        OneRefundPerBooking(s, booking, r, found.value);
      }
    }
  }

  lemma CapturedPaymentHasNoRefund(s: Store, booking: Id, pick: Id)
    requires Inv(s) && booking in s.bookings && s.bookings[booking].status.Confirmed?
    requires CapturedFor(s.payments, booking, pick)
    ensures FindRefund(s.refunds, pick).None? && s.payments[pick].providerPaymentId.Some?
  {
    forall r
      ensures !RefundOf(s.refunds, pick, r)
    {
    }
  }

  // Another user's begin or cancel is refused and changes nothing.
  lemma StrangersChangeNothing(
    s: Store, now: Time, user: Id, booking: Id, version: int, key: Id, pick: Id, id: Id)
    requires booking in s.bookings ==> s.bookings[booking].user != user
    requires forall p | p in s.payments :: s.payments[p].key != key
    ensures BeginPayment(s, now, user, booking, version, key, id) == Effect(s, Conflict)
    ensures PrepareCancellation(s, now, user, booking, version, pick, id) == Effect(s, Conflict)
  {
    KeyIsUsedExactly(s.payments, key);
  }

  /******* Charging sessions *******/

  predicate MayOperate(o: Operator, points: map<Id, ChargePoint>, point: Id) {
    point in points && (o.systemAdmin || points[point].owner == o.id)
  }

  predicate InWindow(b: Booking, now: Time) {
    b.startsAt - 900 <= now < b.endsAt
  }

  // A session starts exactly for a confirmed booking at its version, from fifteen minutes before its start
  // until its end, on request of an operator who controls the point, while nobody charges there.
  lemma StartIsGrantedExactly(
    s: Store, now: Time, operator: Operator, booking: Id, version: int, meterStart: real, id: Id)
    requires Inv(s)
    ensures
      var e := StartSession(s, now, operator, booking, version, meterStart, id);
      var current := booking in s.bookings && s.bookings[booking].version == version
                     && s.bookings[booking].status == Confirmed;
      && (e.reply == Done <==>
            && current && InWindow(s.bookings[booking], now)
            && MayOperate(operator, s.points, s.bookings[booking].point)
            && (forall x | x in s.sessions && s.sessions[x].point == s.bookings[booking].point ::
                  s.sessions[x].status != Charging)
            && meterStart >= 0.0 && id !in s.sessions)
      && (e.reply == TimeError <==> current && !InWindow(s.bookings[booking], now))
      && (e.reply == Forbidden <==>
            && current && InWindow(s.bookings[booking], now)
            && !MayOperate(operator, s.points, s.bookings[booking].point))
      && (e.reply == Done || e.reply == TimeError || e.reply == Forbidden || e.reply == Conflict)
      && (e.reply != Done ==> e.store == s)
      && (e.reply == Done ==>
            var b := s.bookings[booking];
            e.store == s.(
              bookings := s.bookings[booking := b.(status := Active, version := version + 1)],
              sessions := s.sessions[id := Session(
                booking, b.user, b.point, Charging, now, None, meterStart, None, None, 1)]))
  {
    if booking in s.bookings && s.bookings[booking].status.Confirmed? {
      ConfirmedHasNoSession(s, booking);
    }
    hide Inv;
  }

  lemma ConfirmedHasNoSession(s: Store, b: Id)
    requires Inv(s) && b in s.bookings && s.bookings[b].status.Confirmed?
    ensures !BookingHasSession(s.sessions, b)
  {
  }

  // A session completes exactly at its version while it charges, with a meter that did not run backwards,
  // not before it started, on request of an operator who controls the point.
  lemma CompletionIsGrantedExactly(
    s: Store, now: Time, operator: Operator, session: Id, version: int, meterEnd: real)
    requires Inv(s)
    ensures
      var e := CompleteSession(s, now, operator, session, version, meterEnd);
      var current := session in s.sessions && s.sessions[session].version == version
                     && s.sessions[session].status == Charging;
      && (e.reply == Done <==>
            && current && meterEnd >= s.sessions[session].meterStart
            && MayOperate(operator, s.points, s.sessions[session].point)
            && now >= s.sessions[session].startedAt)
      && (e.reply == MeterError <==> current && meterEnd < s.sessions[session].meterStart)
      && (e.reply == Forbidden <==>
            && current && meterEnd >= s.sessions[session].meterStart
            && !MayOperate(operator, s.points, s.sessions[session].point))
      && (e.reply == Conflict <==> !current)
      && (e.reply != Done ==> e.store == s)
      && (e.reply == Done ==>
            var x := s.sessions[session];
            && x.booking in s.bookings
            && e.store == s.(
                 bookings := s.bookings[x.booking := s.bookings[x.booking].(
                   status := Completed, version := s.bookings[x.booking].version + 1)],
                 sessions := s.sessions[session := x.(
                   status := Finished, endedAt := Some(now), meterEnd := Some(meterEnd),
                   energy := Some(meterEnd - x.meterStart), version := version + 1)]))
  {
    if session in s.sessions {
      SessionHasBooking(s, session);
    }
    hide Inv;
  }

  lemma SessionHasBooking(s: Store, x: Id)
    requires Inv(s) && x in s.sessions
    ensures s.sessions[x].booking in s.bookings
    ensures s.sessions[x].status.Charging? ==> s.bookings[s.sessions[x].booking].status.Active?
  {
  }
}
