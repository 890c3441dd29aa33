/**
 Four writers race on a refund: the provider's answer, the local failure record,
 the webhooks and the reconciliation job. If they all talk about the same provider
 refund, one delivered refund.processed event settles it, wherever it lands.
 */
module RefundConvergence {
  import opened Wrappers
  import opened Ledger
  import opened LedgerInvariant
  import opened LedgerSteps
  import opened LedgerRuns

  // Every authentic answer about the payment's refund r names the provider refund, and no other does.
  predicate AnswersAgree(a: Action, r: Id, providerPayment: Id, providerRefund: Id) {
    && (a.RefundAnsweredTx? ==> (a.refund == r <==> a.providerRefund == providerRefund))
    && (a.WebhookTx? && a.delivery.signed && a.delivery.body.RefundEvent? ==>
          (a.delivery.body.payment == providerPayment <==> a.delivery.body.refund == providerRefund))
  }

  // r is the refund of a payment, and holds the provider's id if anyone does.
  ghost predicate Tracked(s: Store, r: Id, providerPayment: Id, providerRefund: Id) {
    && r in s.refunds
    && s.refunds[r].payment in s.payments
    && s.payments[s.refunds[r].payment].providerPaymentId == Some(providerPayment)
    && KeepsId(s.refunds[r].providerRefundId, Some(providerRefund))
    && forall q | q in s.refunds && q != r :: s.refunds[q].providerRefundId != Some(providerRefund)
  }

  // The refund.processed event for r, with the amount that was asked back.
  predicate SettlesRefund(s: Store, a: Action, r: Id, providerPayment: Id) {
    && r in s.refunds
    && a.WebhookTx? && a.delivery.signed && a.delivery.event !in s.events
    && a.delivery.body.RefundEvent? && a.delivery.body.refundKind.RefundProcessed?
    && a.delivery.body.payment == providerPayment
    && a.delivery.body.amount == Some(s.refunds[r].subunits)
    && a.delivery.body.currency == Some(s.refunds[r].currency)
  }

  ghost predicate PaidOut(s: Store, r: Id) {
    && r in s.refunds && s.refunds[r].payment in s.payments
    && s.refunds[r].status.Processed?
    && s.payments[s.refunds[r].payment].status.Refunded?
  }

  lemma RefundEventFinds(s: Store, now: Time, e: Body, r: Id)
    requires Inv(s) && e.RefundEvent? && r in s.refunds
    requires s.refunds[r].payment in s.payments
    requires s.payments[s.refunds[r].payment].providerPaymentId == Some(e.payment)
    ensures ApplyRefundEvent(s, now, e) == RefundEventOn(s, now, e, r)
  {
    ProviderPaymentIsUnique(s, e.payment);
    RefundIsUnique(s, s.refunds[r].payment);
    hide Inv, RefundEventOn;
    assert HasProviderPayment(s.payments, e.payment, s.refunds[r].payment);
    assert RefundOf(s.refunds, s.refunds[r].payment, r);
  }

  // Writing a refund row whose provider id is legitimate keeps the refund tracked.
  lemma RowTracks(s: Store, t: Store, q: Id, z: Refund, r: Id, providerPayment: Id, providerRefund: Id)
    requires q in s.refunds && Tracked(s, r, providerPayment, providerRefund)
    requires t.refunds == s.refunds[q := z] && PaymentsEvolve(s.payments, t.payments)
    requires z.payment == s.refunds[q].payment
    requires z.providerRefundId.Some? && z.providerRefundId != s.refunds[q].providerRefundId ==>
               (q == r <==> z.providerRefundId == Some(providerRefund))
    ensures Tracked(t, r, providerPayment, providerRefund)
  {
  }

  lemma AcceptTracks(
    s: Store, now: Time, kind: RefundEventKind, q: Id, z: Refund, r: Id, providerPayment: Id, providerRefund: Id)
    requires Inv(s) && q in s.refunds && Tracked(s, r, providerPayment, providerRefund)
    requires KeepsId(s.refunds[q].providerRefundId, z.providerRefundId) && z.providerRefundId.Some?
    requires z == s.refunds[q].(providerRefundId := z.providerRefundId)
    requires !ProviderRefundTaken(s.refunds, z.providerRefundId.value, q)
    requires q == r <==> z.providerRefundId == Some(providerRefund)
    ensures Tracked(AcceptRefundEvent(s, now, kind, q, z).store, r, providerPayment, providerRefund)
  {
    hide Inv, Tracked, Evolves;
    RefundFacts(s, q);
    AcceptedRefundEventIsGood(s, now, kind, q, z.providerRefundId.value);
    var t := AcceptRefundEvent(s, now, kind, q, z).store;
    EvolvesIsLater(s, t);
    RowTracks(s, t, q, t.refunds[q], r, providerPayment, providerRefund);
  }

  lemma {:induction false} RefundEventOnTracks(
    s: Store, now: Time, e: Body, q: Id, r: Id, providerPayment: Id, providerRefund: Id)
    requires Inv(s) && e.RefundEvent? && q in s.refunds && Tracked(s, r, providerPayment, providerRefund)
    requires q == r <==> e.refund == providerRefund
    ensures Tracked(RefundEventOn(s, now, e, q).store, r, providerPayment, providerRefund)
  {
    hide Inv, Tracked, AcceptRefundEvent;
    var z := s.refunds[q];
    if e.amount != Some(z.subunits) || e.currency != Some(z.currency) {
      var z' := z.(error := Some(ProviderRefundAmountMismatch));
      RowTracks(s, SetRefund(s, q, z'), q, z', r, providerPayment, providerRefund);
    } else if z.providerRefundId.Some? && z.providerRefundId.value != e.refund {
      var z' := z.(error := Some(ProviderRefundIdMismatch));
      RowTracks(s, SetRefund(s, q, z'), q, z', r, providerPayment, providerRefund);
    } else if !ProviderRefundTaken(s.refunds, e.refund, q) {
      AcceptTracks(
        s, now, e.refundKind, q, z.(providerRefundId := Some(e.refund)), r, providerPayment, providerRefund);
    }
  }

  lemma {:induction false} RefundEventTracks(
    s: Store, now: Time, e: Body, r: Id, providerPayment: Id, providerRefund: Id)
    requires Inv(s) && e.RefundEvent? && Tracked(s, r, providerPayment, providerRefund)
    requires e.payment == providerPayment <==> e.refund == providerRefund
    ensures Tracked(ApplyRefundEvent(s, now, e).store, r, providerPayment, providerRefund)
  {
    hide Inv, RefundEventOn;
    if e.payment == providerPayment {
      RefundEventFinds(s, now, e, r);
      RefundEventOnTracks(s, now, e, r, r, providerPayment, providerRefund);
    } else if ApplyRefundEvent(s, now, e).store != s {
      var p := PaymentWithProviderId(s.payments, e.payment).value;
      RefundEventOnTracks(
        s, now, e, FindRefund(s.refunds, p).value, r, providerPayment, providerRefund);
    }
  }

  lemma {:induction false} EventTracks(s: Store, now: Time, e: Body, r: Id, providerPayment: Id, providerRefund: Id)
    requires Inv(s) && Tracked(s, r, providerPayment, providerRefund)
    requires e.RefundEvent? ==> (e.payment == providerPayment <==> e.refund == providerRefund)
    ensures Tracked(ApplyEvent(s, now, e).store, r, providerPayment, providerRefund)
  {
    hide Inv, Evolves, ApplyRefundEvent, ApplyPaymentEvent;
    if e.RefundEvent? {
      RefundEventTracks(s, now, e, r, providerPayment, providerRefund);
    } else if e.PaymentEvent? {
      PaymentEventKeepsRefunds(s, now, e);
      PaymentEventIsGood(s, now, e);
      EvolvesIsLater(s, ApplyPaymentEvent(s, now, e).store);
    }
  }

  lemma {:induction false} WebhookTracks(
    s: Store, now: Time, d: Delivery, r: Id, providerPayment: Id, providerRefund: Id)
    requires Inv(s) && Tracked(s, r, providerPayment, providerRefund)
    requires d.signed && d.body.RefundEvent? ==>
               (d.body.payment == providerPayment <==> d.body.refund == providerRefund)
    ensures Tracked(ProcessWebhook(s, now, d).store, r, providerPayment, providerRefund)
  {
    hide Inv, ApplyEvent;
    if d.signed {
      EventTracks(s, now, d.body, r, providerPayment, providerRefund);
    }
  }

  lemma CaptureKeepsRefunds(s: Store, p: Id, y: Payment)
    ensures ApplyCaptured(s, p, y).store.refunds == s.refunds
  {
    hide Moved;
  }

  lemma FailureKeepsRefunds(s: Store, now: Time, p: Id, y: Payment)
    ensures ApplyFailed(s, now, p, y).store.refunds == s.refunds
  {
    hide Released;
  }

  lemma AcceptedPaymentEventKeepsRefunds(s: Store, now: Time, kind: PaymentEventKind, p: Id, y: Payment)
    ensures AcceptPaymentEvent(s, now, kind, p, y).store.refunds == s.refunds
  {
    hide ApplyCaptured, ApplyFailed;
    CaptureKeepsRefunds(s, p, y);
    FailureKeepsRefunds(s, now, p, y);
  }

  lemma {:induction false} PaymentEventOnKeepsRefunds(s: Store, now: Time, e: Body, p: Id)
    requires e.PaymentEvent? && p in s.payments
    ensures PaymentEventOn(s, now, e, p).store.refunds == s.refunds
  {
    hide AcceptPaymentEvent;
    AcceptedPaymentEventKeepsRefunds(s, now, e.kind, p, s.payments[p].(providerPaymentId := Some(e.payment)));
  }

  lemma {:induction false} PaymentEventKeepsRefunds(s: Store, now: Time, e: Body)
    requires e.PaymentEvent?
    ensures ApplyPaymentEvent(s, now, e).store.refunds == s.refunds
  {
    hide PaymentEventOn;
    forall p | HasOrder(s.payments, e.order, p)
      ensures PaymentEventOn(s, now, e, p).store.refunds == s.refunds
    {
      PaymentEventOnKeepsRefunds(s, now, e, p);
    }
  }

  /******* The other transactions *******/

  lemma StaysTracked(s: Store, t: Store, r: Id, providerPayment: Id, providerRefund: Id)
    requires Tracked(s, r, providerPayment, providerRefund) && Evolves(s, t)
    requires BringsNoId(s, t)
    ensures Tracked(t, r, providerPayment, providerRefund)
  {
  }

  ghost predicate BringsNoId(s: Store, t: Store) {
    forall q | q in t.refunds ::
      t.refunds[q].providerRefundId == if q in s.refunds then s.refunds[q].providerRefundId else None
  }

  lemma CancelBringsNoId(s: Store, now: Time, user: Id, booking: Id, version: int, pick: Id, id: Id)
    ensures BringsNoId(s, PrepareCancellation(s, now, user, booking, version, pick, id).store)
  {
  }

  lemma RecordBringsNoId(s: Store, r: Id, code: ErrorCode)
    ensures BringsNoId(s, RecordRefundFailure(s, r, code).store)
  {
  }

  lemma ReconcileBringsNoId(s: Store, now: Time, r: Id, answer: RefundAnswer)
    ensures BringsNoId(s, ApplyReconciled(s, now, r, answer).store)
  {
  }

  // Only answers and refund events bring a provider refund id.
  lemma {:induction false} OthersBringNoId(s: Store, a: Action)
    requires !a.WebhookTx? && !a.RefundAnsweredTx?
    ensures BringsNoId(s, Next(s, a))
  {
    hide BringsNoId, PrepareCancellation, RecordRefundFailure, ApplyReconciled;
    match a
    case CancelTx(now, user, booking, version, pick, id) =>
      CancelBringsNoId(s, now, user, booking, version, pick, id);
    case RefundFailedTx(r, code) => RecordBringsNoId(s, r, code);
    case ReconcileTx(now, r, answer) => ReconcileBringsNoId(s, now, r, answer);
    case _ =>
      OthersKeepRefunds(s, a);
      hide Next;
      SameRefundsBringNoId(s, Next(s, a));
  }

  lemma SameRefundsBringNoId(s: Store, t: Store)
    requires t.refunds == s.refunds
    ensures BringsNoId(s, t)
  {
  }

  lemma HoldKeepsRefunds(s: Store, r: HoldRequest, swept: set<Id>, id: Id)
    ensures CommitHold(s, r, swept, id).store.refunds == s.refunds
  {
    hide SlotFree, SweepTable, NewHold;
  }

  lemma BeginKeepsRefunds(s: Store, now: Time, user: Id, booking: Id, version: int, key: Id, id: Id)
    ensures BeginPayment(s, now, user, booking, version, key, id).store.refunds == s.refunds
  {
  }

  lemma OrderKeepsRefunds(s: Store, p: Id, order: Id)
    ensures FinalizeOrder(s, p, order).store.refunds == s.refunds
  {
  }

  lemma CompensationKeepsRefunds(s: Store, now: Time, p: Id)
    ensures CompensateFailure(s, now, p).store.refunds == s.refunds
  {
  }

  lemma VerifyKeepsRefunds(s: Store, user: Id, order: Id, providerPayment: Id, signed: bool)
    ensures VerifyCheckout(s, user, order, providerPayment, signed).store.refunds == s.refunds
  {
  }

  lemma StartKeepsRefunds(s: Store, now: Time, operator: Operator, booking: Id, version: int, meterStart: real, id: Id)
    ensures StartSession(s, now, operator, booking, version, meterStart, id).store.refunds == s.refunds
  {
  }

  lemma CompletionKeepsRefunds(s: Store, now: Time, operator: Operator, session: Id, version: int, meterEnd: real)
    ensures CompleteSession(s, now, operator, session, version, meterEnd).store.refunds == s.refunds
  {
  }

  lemma OthersKeepRefunds(s: Store, a: Action)
    requires !a.WebhookTx? && !a.RefundAnsweredTx? && !a.CancelTx? && !a.RefundFailedTx? && !a.ReconcileTx?
    ensures Next(s, a).refunds == s.refunds
  {
    hide CommitHold, BeginPayment, FinalizeOrder, CompensateFailure, VerifyCheckout, StartSession, CompleteSession;
    hide PrepareCancellation, RecordRefundFailure, FinalizeRefund, ApplyReconciled, ProcessWebhook;
    match a
    case CreateHoldTx(r, id) => HoldKeepsRefunds(s, r, BookingsAtPoint(s.bookings, r.point), id);
    case CommitHoldTx(r, swept, id) => HoldKeepsRefunds(s, r, swept, id);
    case BeginTx(now, user, booking, version, key, id) => BeginKeepsRefunds(s, now, user, booking, version, key, id);
    case FinalizeTx(p, order) => OrderKeepsRefunds(s, p, order);
    case CompensateTx(now, p) => CompensationKeepsRefunds(s, now, p);
    case VerifyTx(user, order, providerPayment, signed) => VerifyKeepsRefunds(s, user, order, providerPayment, signed);
    case StartTx(now, operator, booking, version, meterStart, id) =>
      StartKeepsRefunds(s, now, operator, booking, version, meterStart, id);
    case CompleteTx(now, operator, session, version, meterEnd) =>
      CompletionKeepsRefunds(s, now, operator, session, version, meterEnd);
    case _ =>
  }

  lemma {:induction false} AnswerTracks(
    s: Store, now: Time, q: Id, id: Id, answer: RefundAnswer, r: Id, providerPayment: Id, providerRefund: Id)
    requires Inv(s) && Tracked(s, r, providerPayment, providerRefund)
    requires q == r <==> id == providerRefund
    ensures Tracked(FinalizeRefund(s, now, q, id, answer).store, r, providerPayment, providerRefund)
  {
    var t := FinalizeRefund(s, now, q, id, answer).store;
    FinalizeRefundIsGood(s, now, q, id, answer);
    EvolvesIsLater(s, t);
    AnswerWritesOneRow(s, now, q, id, answer);
    hide Inv, Tracked, FinalizeRefund;
    if t.refunds == s.refunds {
      SameRefundsBringNoId(s, t);
      StaysTracked(s, t, r, providerPayment, providerRefund);
    } else {
      RowTracks(s, t, q, t.refunds[q], r, providerPayment, providerRefund);
    }
  }

  lemma AnswerWritesOneRow(s: Store, now: Time, q: Id, id: Id, answer: RefundAnswer)
    ensures
      var t := FinalizeRefund(s, now, q, id, answer).store;
      || t.refunds == s.refunds
      || (&& q in s.refunds && q in t.refunds && t.refunds == s.refunds[q := t.refunds[q]]
          && t.refunds[q].payment == s.refunds[q].payment && t.refunds[q].providerRefundId == Some(id))
  {
  }

  lemma {:induction false} StepTracks(s: Store, a: Action, r: Id, providerPayment: Id, providerRefund: Id)
    requires Inv(s) && Tracked(s, r, providerPayment, providerRefund)
    requires AnswersAgree(a, r, providerPayment, providerRefund)
    ensures Tracked(Next(s, a), r, providerPayment, providerRefund)
  {
    hide Inv, Tracked, Evolves, ProcessWebhook, FinalizeRefund, BringsNoId;
    if a.WebhookTx? {
      WebhookTracks(s, a.now, a.delivery, r, providerPayment, providerRefund);
    } else if a.RefundAnsweredTx? {
      AnswerTracks(s, a.now, a.refund, a.providerRefund, a.answer, r, providerPayment, providerRefund);
    } else {
      hide Next;
      OthersBringNoId(s, a);
      StepIsGood(s, a);
      StaysTracked(s, Next(s, a), r, providerPayment, providerRefund);
    }
  }

  lemma {:induction false} RunTracks(s: Store, acts: seq<Action>, r: Id, providerPayment: Id, providerRefund: Id)
    requires Inv(s) && Tracked(s, r, providerPayment, providerRefund)
    requires forall a | a in acts :: AnswersAgree(a, r, providerPayment, providerRefund)
    ensures Tracked(Run(s, acts), r, providerPayment, providerRefund)
  {
    if acts != [] {
      hide Inv, Tracked, AnswersAgree, Next;
      var before := acts[..|acts| - 1];
      RunTracks(s, before, r, providerPayment, providerRefund);
      RunKeepsInv(s, before);
      StepTracks(Run(s, before), acts[|acts| - 1], r, providerPayment, providerRefund);
    }
  }

  // The event pays the refund out, whatever state the refund was in.
  lemma SettlingPaysOut(s: Store, a: Action, r: Id, providerPayment: Id, providerRefund: Id)
    requires Inv(s) && Tracked(s, r, providerPayment, providerRefund)
    requires AnswersAgree(a, r, providerPayment, providerRefund) && SettlesRefund(s, a, r, providerPayment)
    ensures PaidOut(Next(s, a), r) && Apply(s, a).reply.WebhookProcessed?
  {
    hide Inv, ApplyRefundEvent;
    var e := a.delivery.body;
    RefundEventFinds(s, a.now, e, r);
    assert !ProviderRefundTaken(s.refunds, e.refund, r);
    assert RefundEventOn(s, a.now, e, r)
        == AcceptRefundEvent(s, a.now, RefundProcessed, r, s.refunds[r].(providerRefundId := Some(e.refund)));
  }

  // Cancelling opens a tracked refund, under whatever id the provider will give it that no other refund has.
  lemma OpeningIsTracked(
    s: Store, now: Time, user: Id, booking: Id, version: int, pick: Id, id: Id, providerRefund: Id)
    requires PrepareCancellation(s, now, user, booking, version, pick, id).reply.RefundStarted?
    requires forall q | q in s.refunds :: s.refunds[q].providerRefundId != Some(providerRefund)
    ensures
      var t := PrepareCancellation(s, now, user, booking, version, pick, id).store;
      && id in t.calls && t.calls[id].payment == pick
      && Tracked(t, id, t.calls[id].providerPaymentId, providerRefund)
  {
  }

  // One refund.processed event anywhere in a run in which the writers agree on the provider refund
  // ends with the refund processed and the payment refunded.
  lemma {:induction false} RefundConverges(
    s: Store, acts: seq<Action>, i: nat, r: Id, providerPayment: Id, providerRefund: Id)
    requires Inv(s) && Tracked(s, r, providerPayment, providerRefund)
    requires forall a | a in acts :: AnswersAgree(a, r, providerPayment, providerRefund)
    requires i < |acts| && SettlesRefund(At(s, acts, i), acts[i], r, providerPayment)
    ensures PaidOut(Run(s, acts), r)
  {
    hide Inv, Tracked, SettlesRefund, Next, Run;
    forall a | a in acts[..i]
      ensures AnswersAgree(a, r, providerPayment, providerRefund)
    {
      assert a in acts;
    }
    RunTracks(s, acts[..i], r, providerPayment, providerRefund);
    RunKeepsInv(s, acts[..i]);
    SettlingPaysOut(At(s, acts, i), acts[i], r, providerPayment, providerRefund);
    AtNext(s, acts, i);
    AtEnds(s, acts);
    RunIsLater(s, acts, i + 1, |acts|);
  }

  // From the cancellation on: if the writers agree on the refund it opened, one believed refund.processed
  // event anywhere afterwards ends with the refund processed and the payment refunded.
  lemma {:induction false} CancelledBookingIsPaidBack(
    s: Store, now: Time, user: Id, booking: Id, version: int, pick: Id, id: Id,
    acts: seq<Action>, i: nat, providerRefund: Id)
    requires Inv(s) && PrepareCancellation(s, now, user, booking, version, pick, id).reply.RefundStarted?
    requires forall q | q in s.refunds :: s.refunds[q].providerRefundId != Some(providerRefund)
    requires
      var t := PrepareCancellation(s, now, user, booking, version, pick, id).store;
      && id in t.calls
      && (forall a | a in acts :: AnswersAgree(a, id, t.calls[id].providerPaymentId, providerRefund))
      && i < |acts| && SettlesRefund(At(t, acts, i), acts[i], id, t.calls[id].providerPaymentId)
    ensures PaidOut(Run(PrepareCancellation(s, now, user, booking, version, pick, id).store, acts), id)
  {
    var t := PrepareCancellation(s, now, user, booking, version, pick, id).store;
    PrepareCancellationIsGood(s, now, user, booking, version, pick, id);
    OpeningIsTracked(s, now, user, booking, version, pick, id, providerRefund);
    hide Inv, Evolves, PrepareCancellation, Tracked, SettlesRefund, Run;
    RefundConverges(t, acts, i, id, t.calls[id].providerPaymentId, providerRefund);
  }
}
