/**
 Transactions that belong together: what a second one undoes or completes of a first.
 Everything is said in terms of the rows before the first of them.
 */
module Journeys {
  import opened Wrappers
  import opened Ledger
  import opened LedgerInvariant
  import opened LedgerSteps

  /******* Payments *******/

  // A provider failure undoes the start of a payment: the booking is back where it was, two versions
  // later, or expired if its hold ran out meanwhile.
  lemma CompensationUndoesBegin(
    s: Store, now: Time, user: Id, booking: Id, version: int, key: Id, id: Id, later: Time)
    requires Inv(s) && BeginPayment(s, now, user, booking, version, key, id).reply == Started(id)
    ensures booking in s.bookings
    ensures
      var b := s.bookings[booking];
      var e := CompensateFailure(BeginPayment(s, now, user, booking, version, key, id).store, later, id);
      && e.reply.Done?
      && e.store.bookings == s.bookings[booking := b.(
           status := if After(b.holdExpiresAt, later) then Held else Expired, version := version + 2)]
      && e.store.payments.Keys == s.payments.Keys + {id}
      && e.store.payments[id].status.Failed? && e.store.payments[id].orderId.None?
      && (forall p | p in s.payments :: e.store.payments[p] == s.payments[p])
      && e.store.attempts == s.attempts
      && e.store.refunds == s.refunds && e.store.sessions == s.sessions && e.store.calls == s.calls
  {
    assert id in s.attempts ==> id in s.payments;
    hide Inv;
    assert PaymentWithKey(s.payments, key).None?;
    var t := BeginAttempt(s, now, user, booking, version, key, id).store;
    assert t.attempts - {id} == s.attempts;
  }

  function Capture(event: Id, digest: Id, order: Id, providerPayment: Id, y: Payment): Delivery {
    Delivery(
      event, digest, true,
      PaymentEvent(PaymentCaptured, order, providerPayment, Some(y.subunits), Some(y.currency)))
  }

  // The order's answer and then the captured event confirm the booking, two versions after the hold.
  lemma CheckoutConfirms(
    s: Store, now: Time, user: Id, booking: Id, version: int, key: Id, id: Id,
    order: Id, later: Time, event: Id, digest: Id, providerPayment: Id)
    requires Inv(s) && BeginPayment(s, now, user, booking, version, key, id).reply == Started(id)
    requires event !in s.events
    requires forall p :: !HasOrder(s.payments, order, p) && !HasProviderPayment(s.payments, providerPayment, p)
    ensures booking in s.bookings
    ensures
      var begun := BeginPayment(s, now, user, booking, version, key, id).store;
      var ordered := FinalizeOrder(begun, id, order);
      && id in ordered.store.payments
      && var e := ProcessWebhook(
           ordered.store, later, Capture(event, digest, order, providerPayment, ordered.store.payments[id]));
      && ordered.reply.Done? && e.reply.WebhookProcessed?
      && e.store.bookings == s.bookings[booking := s.bookings[booking].(status := Confirmed, version := version + 2)]
      && id in e.store.payments
      && e.store.payments[id].status.Captured? && e.store.payments[id].error.None?
      && e.store.payments[id].providerPaymentId == Some(providerPayment)
      && Some(e.store.payments[id].amount) == s.bookings[booking].amount
      && (forall p | p in s.payments :: p in e.store.payments && e.store.payments[p] == s.payments[p])
  {
    var begun := BeginPayment(s, now, user, booking, version, key, id).store;
    BegunPayment(s, now, user, booking, version, key, id);
    UnusedIds(s, order, providerPayment);
    hide Inv, BeginPayment, FinalizeOrder, ProcessWebhook;
    OrderAnswered(s, begun, booking, id, order);
    var t := FinalizeOrder(begun, id, order).store;
    CaptureArrives(t, later, booking, id, Capture(event, digest, order, providerPayment, t.payments[id]));
  }

  lemma UnusedIds(s: Store, order: Id, providerPayment: Id)
    requires forall p :: !HasOrder(s.payments, order, p) && !HasProviderPayment(s.payments, providerPayment, p)
    ensures forall p | p in s.payments ::
              s.payments[p].orderId != Some(order) && s.payments[p].providerPaymentId != Some(providerPayment)
  {
    forall p | p in s.payments
      ensures s.payments[p].orderId != Some(order) && s.payments[p].providerPaymentId != Some(providerPayment)
    {
      assert !HasOrder(s.payments, order, p) && !HasProviderPayment(s.payments, providerPayment, p);
    }
  }

  lemma BegunPayment(s: Store, now: Time, user: Id, booking: Id, version: int, key: Id, id: Id)
    requires BeginPayment(s, now, user, booking, version, key, id).reply == Started(id)
    ensures booking in s.bookings && s.bookings[booking].version == version
    ensures s.bookings[booking].amount.Some? && ToSubunits(s.bookings[booking].amount.value).Some?
    ensures id !in s.payments
    ensures
      var b := s.bookings[booking];
      var y := NewPayment(b, booking, ToSubunits(b.amount.value).value, key);
      BeginPayment(s, now, user, booking, version, key, id).store
      == s.(payments := s.payments[id := y],
            bookings := s.bookings[booking := Moved(b, PaymentPending)],
            attempts := s.attempts[id := Attempt(booking, y.subunits, y.currency)])
  {
  }

  lemma OrderAnswered(s: Store, begun: Store, booking: Id, id: Id, order: Id)
    requires id in begun.payments && id in begun.attempts && booking in begun.bookings
    requires begun.attempts[id].booking == booking
    requires begun.payments[id].status.Initiated? && begun.bookings[booking].status.PaymentPending?
    requires forall p | p in begun.payments && p != id :: begun.payments[p].orderId != Some(order)
    ensures
      var e := FinalizeOrder(begun, id, order);
      && e.reply.Done?
      && e.store == begun.(
           payments := begun.payments[id := begun.payments[id].(orderId := Some(order), status := OrderCreated)],
           attempts := begun.attempts - {id})
  {
  }

  lemma CaptureArrives(t: Store, now: Time, booking: Id, id: Id, d: Delivery)
    requires d.signed && d.event !in t.events && d.body.PaymentEvent? && d.body.kind.PaymentCaptured?
    requires id in t.payments && booking in t.bookings && t.payments[id].booking == booking
    requires t.payments[id].orderId == Some(d.body.order) && t.payments[id].status.OrderCreated?
    requires t.payments[id].providerPaymentId.None?
    requires d.body.amount == Some(t.payments[id].subunits) && d.body.currency == Some(t.payments[id].currency)
    requires forall p | p in t.payments && p != id ::
               t.payments[p].orderId != Some(d.body.order) && t.payments[p].providerPaymentId != Some(d.body.payment)
    requires t.bookings[booking].status.PaymentPending?
    ensures
      var e := ProcessWebhook(t, now, d);
      && e.reply.WebhookProcessed?
      && e.store.bookings == t.bookings[booking := Moved(t.bookings[booking], Confirmed)]
      && e.store.payments == t.payments[id :=
           t.payments[id].(status := Captured, providerPaymentId := Some(d.body.payment))]
  {
    assert HasOrder(t.payments, d.body.order, id);
    assert PaymentWithOrder(t.payments, d.body.order) == Some(id);
    assert ApplyEvent(t, now, d.body) == PaymentEventOn(t, now, d.body, id);
  }

  // Money of another size or currency moves nothing: no status of any booking, payment or refund.
  lemma {:induction false} MismatchMovesNothing(s: Store, now: Time, d: Delivery, p: Id)
    requires Inv(s) && d.body.PaymentEvent? && HasOrder(s.payments, d.body.order, p)
    requires d.body.amount != Some(s.payments[p].subunits) || d.body.currency != Some(s.payments[p].currency)
    ensures
      var e := ProcessWebhook(s, now, d);
      && !e.reply.WebhookProcessed?
      && e.store.bookings == s.bookings && e.store.refunds == s.refunds
      && e.store.payments.Keys == s.payments.Keys
      && forall q | q in s.payments :: e.store.payments[q] == s.payments[q].(error := e.store.payments[q].error)
  {
    OrderIsUnique(s, d.body.order);
    hide Inv;
    assert ApplyEvent(s, now, d.body) == PaymentEventOn(s, now, d.body, p);
  }

  /******* Refunds *******/

  // Cancelling a confirmed booking and the provider's answer give the customer the fee back.
  lemma CancellationPaysBack(
    s: Store, now: Time, booking: Id, pick: Id, id: Id, later: Time, providerRefund: Id)
    requires Inv(s) && booking in s.bookings && s.bookings[booking].status.Confirmed?
    requires CapturedFor(s.payments, booking, pick) && id !in s.refunds
    requires forall q | q in s.refunds :: s.refunds[q].providerRefundId != Some(providerRefund)
    ensures
      var b := s.bookings[booking];
      var cancelled := PrepareCancellation(s, now, b.user, booking, b.version, pick, id).store;
      var e := FinalizeRefund(cancelled, later, id, providerRefund, AnswerProcessed);
      && e.reply.Done?
      && e.store.bookings == s.bookings[booking :=
           b.(status := Cancelled, version := b.version + 1, cancelledAt := Some(now))]
      && e.store.payments == s.payments[pick := s.payments[pick].(status := Refunded)]
      && e.store.refunds.Keys == s.refunds.Keys + {id}
      && e.store.refunds[id].status.Processed? && e.store.refunds[id].providerRefundId == Some(providerRefund)
      && Some(e.store.refunds[id].amount) == b.amount
      && e.store.calls == s.calls
  {
    hide Inv, PaymentRow;
    PaymentFacts(s, pick);
    CapturedHasId(s, pick);
    NoRefundYet(s, booking, pick);
    if id in s.calls {
      CallsHaveRefunds(s, id);
    }
    var b := s.bookings[booking];
    var t := PrepareCancellation(s, now, b.user, booking, b.version, pick, id).store;
    assert t == OpenRefund(s, now, booking, pick, id);
    assert t.calls - {id} == s.calls;
  }

  lemma CallsHaveRefunds(s: Store, id: Id)
    requires Inv(s) && id in s.calls
    ensures id in s.refunds
  {
  }

  lemma CapturedHasId(s: Store, p: Id)
    requires Inv(s) && p in s.payments && s.payments[p].status.Captured?
    ensures s.payments[p].providerPaymentId.Some?
  {
  }

  lemma NoRefundYet(s: Store, booking: Id, pick: Id)
    requires Inv(s) && booking in s.bookings && !s.bookings[booking].status.Cancelled?
    requires CapturedFor(s.payments, booking, pick)
    ensures FindRefund(s.refunds, pick).None?
  {
  }

  /******* Sessions *******/

  // A session that starts and completes leaves the charge point free and records the energy.
  lemma SessionReturnsThePoint(
    s: Store, now: Time, operator: Operator, booking: Id, version: int, meterStart: real, id: Id,
    later: Time, other: Operator, meterEnd: real)
    requires Inv(s) && StartSession(s, now, operator, booking, version, meterStart, id).reply.Done?
    requires Controls(other, s.points, s.bookings[booking].point)
    requires later >= now && meterEnd >= meterStart
    ensures
      var b := s.bookings[booking];
      var started := StartSession(s, now, operator, booking, version, meterStart, id).store;
      var e := CompleteSession(started, later, other, id, 1, meterEnd);
      && PointBusy(started.sessions, b.point)
      && e.reply.Done? && !PointBusy(e.store.sessions, b.point)
      && e.store.bookings == s.bookings[booking := b.(status := Completed, version := version + 2)]
      && e.store.sessions.Keys == s.sessions.Keys + {id}
      && e.store.sessions[id].status.Finished?
      && e.store.sessions[id].energy == Some(meterEnd - meterStart)
  {
    hide Inv;
    var started := StartSession(s, now, operator, booking, version, meterStart, id).store;
    assert started.sessions[id].point == s.bookings[booking].point && started.sessions[id].status.Charging?;
  }
}
