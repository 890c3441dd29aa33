/**
 What the provider's events and answers do, exactly: which are believed, what a believed one
 writes, what is only noted, and what leaves the tables alone.
 */
module Answers {
  import opened Wrappers
  import opened Ledger
  import opened LedgerInvariant
  import opened LedgerSteps
  import opened LedgerRuns
  import opened RefundConvergence
  import opened Reconciliation

  /******* Deliveries *******/

  predicate Fresh(s: Store, d: Delivery) {
    d.signed && d.event !in s.events
  }

  // Forged, unreadable and known deliveries change nothing. A new one is recorded with its digest, in the
  // transaction of its effect, unless its entity is malformed or a unique id is taken.
  lemma DeliveriesAreAnsweredExactly(s: Store, now: Time, d: Delivery)
    ensures
      var e := ProcessWebhook(s, now, d);
      && (!d.signed ==> e == Effect(s, AuthenticationError))
      && (d.signed && d.body.NotJson? ==> e == Effect(s, PayloadError))
      && (d.signed && !d.body.NotJson? && d.event in s.events ==>
            e == Effect(s, if s.events[d.event].digest == d.digest then Duplicate else AuthenticationError))
      && (Fresh(s, d) && d.body.BadEntity? ==> e == Effect(s, PayloadError))
      && (Fresh(s, d) && d.body.UnsupportedEvent? ==>
            e == Effect(s.(events := s.events[d.event := EventRecord(d.digest, IgnoredEvent)]), WebhookIgnored))
      && (e.reply.WebhookProcessed? || e.reply.WebhookIgnored? ==>
            && Fresh(s, d)
            && e.store.events == s.events[d.event := EventRecord(
                 d.digest, if e.reply.WebhookProcessed? then ProcessedEvent else IgnoredEvent)])
      && (!e.reply.WebhookProcessed? && !e.reply.WebhookIgnored? ==> e.store == s)
  {
    hide ApplyPaymentEvent, ApplyRefundEvent;
  }

  // An event that takes effect writes what applying it writes, and its record.
  lemma EventIsApplied(s: Store, now: Time, d: Delivery)
    requires Fresh(s, d) && !d.body.NotJson?
    ensures
      var e, f := ProcessWebhook(s, now, d), ApplyEvent(s, now, d.body);
      && (f.reply == WebhookProcessed || f.reply == WebhookIgnored ==>
            && e.reply == f.reply
            && e.store == f.store.(events := e.store.events))
      && (f.reply == ServerError ==> e == Effect(s, ServerError))
  {
    hide ApplyEvent;
  }

  /******* Payment events *******/

  // The money of the event is the payment's.
  predicate SameMoneyAsked(y: Payment, e: Body)
    requires e.PaymentEvent?
  {
    e.amount == Some(y.subunits) && e.currency == Some(y.currency)
  }

  predicate SamePaymentId(y: Payment, e: Body)
    requires e.PaymentEvent?
  {
    y.providerPaymentId in {None, Some(e.payment)}
  }

  predicate IdInUse(s: Store, e: Body, p: Id)
    requires e.PaymentEvent?
  {
    exists q | q in s.payments :: q != p && s.payments[q].providerPaymentId == Some(e.payment)
  }

  // Every part of the store but the payments and the record stays.
  predicate OnlyPayments(s: Store, t: Store, payments: map<Id, Payment>) {
    t == s.(payments := payments, events := t.events)
  }

  lemma PaymentEventFindsItsOrder(s: Store, now: Time, d: Delivery, p: Id)
    requires Inv(s) && d.body.PaymentEvent? && HasOrder(s.payments, d.body.order, p)
    ensures ApplyEvent(s, now, d.body) == PaymentEventOn(s, now, d.body, p)
  {
    OrderIsUnique(s, d.body.order);
    hide Inv, PaymentEventOn;
  }

  // An event about an order nobody has is recorded and otherwise ignored.
  lemma UnknownOrderIsIgnored(s: Store, now: Time, d: Delivery)
    requires Fresh(s, d) && d.body.PaymentEvent?
    requires forall p | p in s.payments :: s.payments[p].orderId != Some(d.body.order)
    ensures
      var e := ProcessWebhook(s, now, d);
      e.reply == WebhookIgnored && OnlyPayments(s, e.store, s.payments)
  {
    assert PaymentWithOrder(s.payments, d.body.order).None?;
  }

  // Money of another size or currency is noted as such, another payment id as such, and an id that another
  // payment has fails the delivery.
  lemma DoubtfulPaymentEventIsExact(s: Store, now: Time, d: Delivery, p: Id)
    requires Inv(s) && Fresh(s, d) && d.body.PaymentEvent? && HasOrder(s.payments, d.body.order, p)
    ensures
      var y := s.payments[p];
      var e := ProcessWebhook(s, now, d);
      && (!SameMoneyAsked(y, d.body) ==>
            && e.reply == WebhookIgnored
            && OnlyPayments(s, e.store, s.payments[p := y.(error := Some(ProviderAmountMismatch))]))
      && (SameMoneyAsked(y, d.body) && !SamePaymentId(y, d.body) ==>
            && e.reply == WebhookIgnored
            && OnlyPayments(s, e.store, s.payments[p := y.(error := Some(ProviderPaymentIdMismatch))]))
      && (SameMoneyAsked(y, d.body) && SamePaymentId(y, d.body) && IdInUse(s, d.body, p) ==>
            e == Effect(s, ServerError))
  {
    PaymentEventFindsItsOrder(s, now, d, p);
    EventIsApplied(s, now, d);
    hide Inv, ApplyEvent, ProcessWebhook, AcceptPaymentEvent;
  }

  predicate GenuinePayment(s: Store, d: Delivery, p: Id)
    requires d.body.PaymentEvent? && p in s.payments
  {
    && Fresh(s, d)
    && SameMoneyAsked(s.payments[p], d.body) && SamePaymentId(s.payments[p], d.body) && !IdInUse(s, d.body, p)
  }

  lemma AcceptanceIsProcessed(s: Store, now: Time, kind: PaymentEventKind, p: Id, y: Payment)
    requires y.booking in s.bookings
    ensures AcceptPaymentEvent(s, now, kind, p, y).reply.WebhookProcessed?
  {
  }

  lemma GenuineIsAccepted(s: Store, now: Time, d: Delivery, p: Id)
    requires Inv(s) && d.body.PaymentEvent?
    requires HasOrder(s.payments, d.body.order, p) && GenuinePayment(s, d, p)
    ensures
      var f := AcceptPaymentEvent(
        s, now, d.body.kind, p, s.payments[p].(providerPaymentId := Some(d.body.payment)));
      var e := ProcessWebhook(s, now, d);
      && f.reply == WebhookProcessed && e.reply == WebhookProcessed
      && e.store == f.store.(events := e.store.events)
  {
    PaymentFacts(s, p);
    PaymentEventFindsItsOrder(s, now, d, p);
    EventIsApplied(s, now, d);
    hide Inv, PaymentRow, PaymentMatches;
    AcceptanceIsProcessed(s, now, d.body.kind, p, s.payments[p].(providerPaymentId := Some(d.body.payment)));
    hide ApplyEvent, ProcessWebhook, AcceptPaymentEvent;
  }

  // A genuine authorization raises exactly a payment that waits for it, and binds it to the payment id.
  lemma AuthorizationIsExact(s: Store, now: Time, d: Delivery, p: Id)
    requires Inv(s) && d.body.PaymentEvent? && d.body.kind.PaymentAuthorized?
    requires HasOrder(s.payments, d.body.order, p) && GenuinePayment(s, d, p)
    ensures
      var y := s.payments[p];
      var e := ProcessWebhook(s, now, d);
      && e.reply == WebhookProcessed
      && OnlyPayments(s, e.store, s.payments[p := y.(
           providerPaymentId := Some(d.body.payment),
           status := if y.status == OrderCreated then Authorized else y.status)])
  {
    PaymentEventFindsItsOrder(s, now, d, p);
    EventIsApplied(s, now, d);
    hide Inv, ApplyEvent, ProcessWebhook;
  }

  lemma CaptureWrites(s: Store, p: Id, y: Payment)
    requires y.booking in s.bookings
    ensures
      var b := s.bookings[y.booking];
      var t := ApplyCaptured(s, p, y).store;
      && (y.status == Refunded ==> t == s.(payments := s.payments[p := y]))
      && (y.status != Refunded ==>
            t == s.(
              payments := s.payments[p := y.(
                status := Captured,
                error := if b.status in {PaymentPending, Confirmed} then y.error
                         else Some(CapturedAfterBookingClosed))],
              bookings := if b.status == PaymentPending
                          then s.bookings[y.booking := b.(status := Confirmed, version := b.version + 1)]
                          else s.bookings))
  {
  }

  // A genuine capture takes the money unless it went back already; it confirms exactly a pending booking
  // and marks the payment exactly when the booking is neither pending nor confirmed.
  lemma CaptureIsExact(s: Store, now: Time, d: Delivery, p: Id)
    requires Inv(s) && d.body.PaymentEvent? && d.body.kind.PaymentCaptured?
    requires HasOrder(s.payments, d.body.order, p) && GenuinePayment(s, d, p)
    ensures s.payments[p].booking in s.bookings
    ensures
      var y, b := s.payments[p], s.bookings[s.payments[p].booking];
      var e := ProcessWebhook(s, now, d);
      && e.reply == WebhookProcessed
      && (y.status == Refunded ==>
            OnlyPayments(s, e.store, s.payments[p := y.(providerPaymentId := Some(d.body.payment))]))
      && (y.status != Refunded ==>
            && e.store == s.(payments := e.store.payments, bookings := e.store.bookings, events := e.store.events)
            && e.store.payments == s.payments[p := y.(
                 status := Captured, providerPaymentId := Some(d.body.payment),
                 error := if b.status in {PaymentPending, Confirmed} then y.error
                          else Some(CapturedAfterBookingClosed))]
            && e.store.bookings ==
                 (if b.status == PaymentPending
                  then s.bookings[y.booking := b.(status := Confirmed, version := b.version + 1)]
                  else s.bookings))
  {
    PaymentFacts(s, p);
    hide Inv, ProcessWebhook, PaymentRow, PaymentMatches, GenuinePayment;
    GenuineIsAccepted(s, now, d, p);
    CaptureWrites(s, p, s.payments[p].(providerPaymentId := Some(d.body.payment)));
    hide ApplyCaptured;
  }

  // A genuine failure fails the payment unless it holds or held money, and gives a pending booking back to
  // its hold, or expires it if the hold ran out.
  lemma FailureIsExact(s: Store, now: Time, d: Delivery, p: Id)
    requires Inv(s) && d.body.PaymentEvent? && d.body.kind.PaymentFailed?
    requires HasOrder(s.payments, d.body.order, p) && GenuinePayment(s, d, p)
    ensures s.payments[p].booking in s.bookings
    ensures
      var y, b := s.payments[p], s.bookings[s.payments[p].booking];
      var e := ProcessWebhook(s, now, d);
      && e.reply == WebhookProcessed
      && (y.status in {Captured, Refunded} ==>
            OnlyPayments(s, e.store, s.payments[p := y.(providerPaymentId := Some(d.body.payment))]))
      && (y.status !in {Captured, Refunded} ==>
            && e.store == s.(payments := e.store.payments, bookings := e.store.bookings, events := e.store.events)
            && e.store.payments == s.payments[p := y.(
                 status := Failed, providerPaymentId := Some(d.body.payment))]
            && e.store.bookings ==
                 (if b.status != PaymentPending then s.bookings
                  else s.bookings[y.booking := b.(
                    status := if b.holdExpiresAt.Some? && b.holdExpiresAt.value > now then Held else Expired,
                    version := b.version + 1)]))
  {
    PaymentFacts(s, p);
    hide Inv, ProcessWebhook, PaymentRow, PaymentMatches, GenuinePayment;
    GenuineIsAccepted(s, now, d, p);
    assert s.bookings[s.payments[p].booking := s.bookings[s.payments[p].booking]] == s.bookings;
  }

  /******* Refund events *******/

  // The event is about refund r: its payment carries the event's payment id.
  predicate About(s: Store, e: Body, r: Id) {
    && e.RefundEvent? && r in s.refunds && s.refunds[r].payment in s.payments
    && s.payments[s.refunds[r].payment].providerPaymentId == Some(e.payment)
  }

  predicate SameMoneyBack(z: Refund, e: Body)
    requires e.RefundEvent?
  {
    e.amount == Some(z.subunits) && e.currency == Some(z.currency)
  }

  predicate SameRefundId(z: Refund, e: Body)
    requires e.RefundEvent?
  {
    z.providerRefundId in {None, Some(e.refund)}
  }

  predicate RefundIdInUse(s: Store, e: Body, r: Id)
    requires e.RefundEvent?
  {
    exists q | q in s.refunds :: q != r && s.refunds[q].providerRefundId == Some(e.refund)
  }

  predicate GenuineRefund(s: Store, d: Delivery, r: Id) {
    && Fresh(s, d) && About(s, d.body, r)
    && SameMoneyBack(s.refunds[r], d.body) && SameRefundId(s.refunds[r], d.body) && !RefundIdInUse(s, d.body, r)
  }

  predicate OnlyRefunds(s: Store, t: Store, refunds: map<Id, Refund>) {
    t == s.(refunds := refunds, events := t.events)
  }

  lemma UnknownRefundIsIgnored(s: Store, now: Time, d: Delivery)
    requires Fresh(s, d) && d.body.RefundEvent?
    requires forall r | r in s.refunds :: !About(s, d.body, r)
    ensures
      var e := ProcessWebhook(s, now, d);
      e.reply == WebhookIgnored && OnlyRefunds(s, e.store, s.refunds)
  {
    var p := PaymentWithProviderId(s.payments, d.body.payment);
    if p.Some? {
      forall r
        ensures !RefundOf(s.refunds, p.value, r)
      {
        assert r in s.refunds ==> !About(s, d.body, r);
      }
      assert FindRefund(s.refunds, p.value).None?;
    }
  }

  // Refund events of another size, currency or refund id are noted and move no status; an id that another
  // refund has fails the delivery.
  lemma DoubtfulRefundEventIsExact(s: Store, now: Time, d: Delivery, r: Id)
    requires Inv(s) && Fresh(s, d) && About(s, d.body, r)
    ensures
      var z := s.refunds[r];
      var e := ProcessWebhook(s, now, d);
      && (!SameMoneyBack(z, d.body) ==>
            && e.reply == WebhookIgnored
            && OnlyRefunds(s, e.store, s.refunds[r := z.(error := Some(ProviderRefundAmountMismatch))]))
      && (SameMoneyBack(z, d.body) && !SameRefundId(z, d.body) ==>
            && e.reply == WebhookIgnored
            && OnlyRefunds(s, e.store, s.refunds[r := z.(error := Some(ProviderRefundIdMismatch))]))
      && (SameMoneyBack(z, d.body) && SameRefundId(z, d.body) && RefundIdInUse(s, d.body, r) ==>
            e == Effect(s, ServerError))
  {
    RefundEventFinds(s, now, d.body, r);
    EventIsApplied(s, now, d);
    hide Inv, ProcessWebhook, AcceptRefundEvent, ApplyRefundEvent;
  }

  // A genuine refund.processed pays the refund out whatever its status was, and refunds its payment.
  lemma RefundProcessedIsExact(s: Store, now: Time, d: Delivery, r: Id)
    requires Inv(s) && GenuineRefund(s, d, r) && d.body.refundKind.RefundProcessed?
    ensures
      var z := s.refunds[r];
      var e := ProcessWebhook(s, now, d);
      && e.reply == WebhookProcessed
      && e.store == s.(
           refunds := s.refunds[r := z.(
             status := Processed, processedAt := Some(now), providerRefundId := Some(d.body.refund))],
           payments := s.payments[z.payment := s.payments[z.payment].(status := Refunded)],
           events := e.store.events)
  {
    RefundEventFinds(s, now, d.body, r);
    EventIsApplied(s, now, d);
    hide Inv, ProcessWebhook, ApplyRefundEvent;
  }

  // A genuine refund.failed leaves a processed refund processed; any other becomes rejected with the error.
  // Either learns the refund id, and no payment and no booking changes.
  lemma RefundFailedIsExact(s: Store, now: Time, d: Delivery, r: Id)
    requires Inv(s) && GenuineRefund(s, d, r) && d.body.refundKind.RefundFailed?
    ensures
      var z := s.refunds[r];
      var e := ProcessWebhook(s, now, d);
      && e.reply == WebhookProcessed
      && OnlyRefunds(s, e.store, s.refunds[r :=
           if z.status == Processed then z.(providerRefundId := Some(d.body.refund))
           else z.(
             status := Rejected, error := Some(ProviderRefundFailed), providerRefundId := Some(d.body.refund))])
  {
    RefundEventFinds(s, now, d.body, r);
    EventIsApplied(s, now, d);
    hide Inv, ProcessWebhook, ApplyRefundEvent;
  }

  /******* Answers about refunds *******/

  // The provider's answer to the refund call: it closes the call, and settles exactly a requested refund
  // under an unused refund id. The payment is refunded exactly for a processed answer, the error is set
  // exactly for a failed one, and no other row changes.
  lemma RefundAnswerIsExact(s: Store, now: Time, r: Id, providerRefund: Id, answer: RefundAnswer)
    requires Inv(s) && r in s.calls
    ensures r in s.refunds && s.refunds[r].payment == s.calls[r].payment && s.refunds[r].payment in s.payments
    ensures
      var z := s.refunds[r];
      var used := exists q | q in s.refunds :: q != r && s.refunds[q].providerRefundId == Some(providerRefund);
      var e := FinalizeRefund(s, now, r, providerRefund, answer);
      && e.store == s.(refunds := e.store.refunds, payments := e.store.payments, calls := s.calls - {r})
      && (z.status != Requested || used ==>
            && e.reply == (if z.status != Requested then Done else Conflict)
            && e.store.refunds == s.refunds && e.store.payments == s.payments)
      && (z.status == Requested && !used ==>
            && e.reply == Done
            && e.store.refunds == s.refunds[r := z.(
                 providerRefundId := Some(providerRefund),
                 status := Outcome(Some(answer)),
                 error := if answer == AnswerFailed then Some(ProviderRefundFailed) else z.error,
                 processedAt := if answer == AnswerProcessed then Some(now) else z.processedAt)]
            && e.store.payments ==
                 (if answer == AnswerProcessed
                  then s.payments[z.payment := s.payments[z.payment].(status := Refunded)]
                  else s.payments))
  {
    CallHasItsRefund(s, r);
    hide Inv;
  }

  lemma CallHasItsRefund(s: Store, r: Id)
    requires Inv(s) && r in s.calls
    ensures r in s.refunds && s.refunds[r].payment == s.calls[r].payment && s.refunds[r].payment in s.payments
  {
  }

  // Recording a refund failure closes the call and rejects exactly a requested refund, with the given code.
  lemma RefundFailureIsExact(s: Store, r: Id, code: ErrorCode)
    requires Inv(s) && r in s.calls
    ensures r in s.refunds
    ensures
      var z := s.refunds[r];
      RecordRefundFailure(s, r, code) == Effect(
        s.(calls := s.calls - {r},
           refunds := if z.status == Requested then s.refunds[r := z.(status := Rejected, error := Some(code))]
                      else s.refunds),
        Done)
  {
    CallHasItsRefund(s, r);
    hide Inv;
  }

  // Reconciliation settles exactly a pending refund, and clears its error when the money went back.
  lemma ReconciliationIsExact(s: Store, now: Time, r: Id, answer: RefundAnswer)
    requires Inv(s)
    ensures
      var e := ApplyReconciled(s, now, r, answer);
      && (r !in s.refunds || s.refunds[r].status != Pending ==> e == Effect(s, Unchanged))
      && (r in s.refunds && s.refunds[r].status == Pending ==>
            var z := s.refunds[r];
            && z.payment in s.payments
            && e.reply == Reconciled(answer)
            && e.store == s.(
                 refunds := s.refunds[r := z.(
                   status := Outcome(Some(answer)),
                   error := if answer == AnswerProcessed then None
                            else if answer == AnswerFailed then Some(ProviderRefundFailed)
                            else z.error,
                   processedAt := if answer == AnswerProcessed then Some(now) else z.processedAt)],
                 payments :=
                   if answer == AnswerProcessed
                   then s.payments[z.payment := s.payments[z.payment].(status := Refunded)]
                   else s.payments))
  {
    if r in s.refunds {
      RefundFacts(s, r);
      assert s.refunds[r := s.refunds[r]] == s.refunds;
    }
    hide Inv;
  }
}
