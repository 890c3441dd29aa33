/**
 Where money comes from, over whole runs: no payment is ever authorized without its owner's signed
 checkout or a signed event, none is captured without a signed event for its order and its money,
 and no booking is confirmed without such a capture.
 */
module Provenance {
  import opened Wrappers
  import opened Ledger
  import opened LedgerInvariant
  import opened LedgerSteps
  import opened LedgerRuns
  import opened LedgerFacts
  import opened RefundConvergence
  import opened LateEvents
  import opened Answers
  import opened Requests

  predicate Vouched(status: PaymentStatus) {
    status == Authorized || status == Captured
  }

  // Action a is an authentic event of this kind about this payment's order, id and money.
  predicate EventFor(a: Action, kind: PaymentEventKind, y: Payment) {
    && a.WebhookTx? && a.delivery.signed && a.delivery.body.PaymentEvent? && a.delivery.body.kind == kind
    && y.orderId == Some(a.delivery.body.order)
    && y.providerPaymentId == Some(a.delivery.body.payment)
    && a.delivery.body.amount == Some(y.subunits) && a.delivery.body.currency == Some(y.currency)
  }

  // Action a is the owner's checkout verification with a valid signature.
  predicate CheckoutFor(a: Action, y: Payment) {
    && a.VerifyTx? && a.signed && a.user == y.user
    && y.orderId == Some(a.order) && y.providerPaymentId == Some(a.providerPayment)
  }

  // Nothing becomes authorized or captured.
  ghost predicate VouchesForNone(x: map<Id, Payment>, y: map<Id, Payment>) {
    forall p | p in y && Vouched(y[p].status) :: p in x && x[p].status == y[p].status
  }

  /******* One step *******/

  lemma HoldVouchesForNone(s: Store, r: HoldRequest, swept: set<Id>, id: Id)
    ensures CommitHold(s, r, swept, id).store.payments == s.payments
  {
    hide SlotFree, SweepTable, NewHold;
  }

  lemma BeginVouchesForNone(s: Store, now: Time, user: Id, booking: Id, version: int, key: Id, id: Id)
    ensures VouchesForNone(s.payments, BeginPayment(s, now, user, booking, version, key, id).store.payments)
  {
  }

  lemma OrderVouchesForNone(s: Store, p: Id, order: Id)
    requires Inv(s)
    ensures VouchesForNone(s.payments, FinalizeOrder(s, p, order).store.payments)
  {
    if p in s.attempts {
      OrderAnswerIsExact(s, p, order);
      hide FinalizeOrder;
    }
    hide Inv;
  }

  lemma CompensationVouchesForNone(s: Store, now: Time, p: Id)
    ensures VouchesForNone(s.payments, CompensateFailure(s, now, p).store.payments)
  {
    hide Released;
  }

  lemma CancelVouchesForNone(s: Store, now: Time, user: Id, booking: Id, version: int, pick: Id, id: Id)
    ensures PrepareCancellation(s, now, user, booking, version, pick, id).store.payments == s.payments
  {
  }

  lemma FailureRecordVouchesForNone(s: Store, r: Id, code: ErrorCode)
    ensures RecordRefundFailure(s, r, code).store.payments == s.payments
  {
  }

  lemma AnswerVouchesForNone(s: Store, now: Time, r: Id, providerRefund: Id, answer: RefundAnswer)
    requires Inv(s)
    ensures VouchesForNone(s.payments, FinalizeRefund(s, now, r, providerRefund, answer).store.payments)
  {
    if r in s.calls {
      RefundAnswerIsExact(s, now, r, providerRefund, answer);
      hide FinalizeRefund;
    }
    hide Inv;
  }

  lemma ReconciliationVouchesForNone(s: Store, now: Time, r: Id, answer: RefundAnswer)
    requires Inv(s)
    ensures VouchesForNone(s.payments, ApplyReconciled(s, now, r, answer).store.payments)
  {
    ReconciliationIsExact(s, now, r, answer);
    hide Inv, ApplyReconciled;
  }

  lemma StartVouchesForNone(
    s: Store, now: Time, operator: Operator, booking: Id, version: int, meterStart: real, id: Id)
    ensures StartSession(s, now, operator, booking, version, meterStart, id).store.payments == s.payments
  {
  }

  lemma CompletionVouchesForNone(
    s: Store, now: Time, operator: Operator, session: Id, version: int, meterEnd: real)
    ensures CompleteSession(s, now, operator, session, version, meterEnd).store.payments == s.payments
  {
  }

  lemma RefundEventVouchesForNone(s: Store, now: Time, d: Delivery)
    requires Inv(s) && !d.body.PaymentEvent?
    ensures VouchesForNone(s.payments, ProcessWebhook(s, now, d).store.payments)
  {
    hide Inv, ProcessWebhook;
    DeliveriesAreAnsweredExactly(s, now, d);
    if Fresh(s, d) && d.body.RefundEvent? {
      if r :| r in s.refunds && About(s, d.body, r) {
        DoubtfulRefundEventIsExact(s, now, d, r);
        if GenuineRefund(s, d, r) {
          if d.body.refundKind.RefundProcessed? {
            RefundProcessedIsExact(s, now, d, r);
          } else {
            RefundFailedIsExact(s, now, d, r);
          }
        }
      } else {
        UnknownRefundIsIgnored(s, now, d);
      }
    }
  }

  // Only a genuine event of the payment's order raises it, and only to the status of its kind.
  lemma PaymentEventVouches(s: Store, now: Time, d: Delivery, p: Id)
    requires Inv(s) && d.body.PaymentEvent?
    requires p in ProcessWebhook(s, now, d).store.payments
    ensures p in s.payments
    ensures
      var y := ProcessWebhook(s, now, d).store.payments[p];
      Vouched(y.status) && y.status != s.payments[p].status ==>
        EventFor(WebhookTx(now, d), if y.status == Captured then PaymentCaptured else PaymentAuthorized, y)
  {
    hide Inv, ProcessWebhook;
    DeliveriesAreAnsweredExactly(s, now, d);
    if Fresh(s, d) {
      if q :| q in s.payments && s.payments[q].orderId == Some(d.body.order) {
        if GenuinePayment(s, d, q) {
          hide GenuinePayment;
          GenuineEventVouches(s, now, d, q);
        } else {
          DoubtfulEventMovesNothing(s, now, d, q);
        }
      } else {
        UnknownOrderIsIgnored(s, now, d);
      }
    }
  }

  lemma GenuineEventVouches(s: Store, now: Time, d: Delivery, q: Id)
    requires Inv(s) && d.body.PaymentEvent?
    requires HasOrder(s.payments, d.body.order, q) && GenuinePayment(s, d, q)
    ensures
      var t := ProcessWebhook(s, now, d).store;
      && t.payments.Keys == s.payments.Keys
      && (forall p | p in s.payments && p != q :: t.payments[p] == s.payments[p])
      && (Vouched(t.payments[q].status) && t.payments[q].status != s.payments[q].status ==>
            EventFor(
              WebhookTx(now, d), if t.payments[q].status == Captured then PaymentCaptured else PaymentAuthorized,
              t.payments[q]))
  {
    hide Inv, ProcessWebhook;
    match d.body.kind
    case PaymentAuthorized => AuthorizationIsExact(s, now, d, q);
    case PaymentCaptured => CaptureIsExact(s, now, d, q);
    case PaymentFailed => FailureIsExact(s, now, d, q);
  }

  lemma VerificationVouches(s: Store, user: Id, order: Id, providerPayment: Id, signed: bool, p: Id)
    requires p in VerifyCheckout(s, user, order, providerPayment, signed).store.payments
    ensures p in s.payments
    ensures
      var y := VerifyCheckout(s, user, order, providerPayment, signed).store.payments[p];
      y.status != s.payments[p].status ==>
        y.status == Authorized && CheckoutFor(VerifyTx(user, order, providerPayment, signed), y)
  {
  }

  // A step that raises a payment to authorized is its owner's signed checkout or a signed event of its
  // order, id and money; one that raises it to captured is such an event.
  lemma {:induction false} RaisingIsVouchedFor(s: Store, a: Action, p: Id)
    requires Inv(s)
    ensures p in Next(s, a).payments && p !in s.payments ==> !Vouched(Next(s, a).payments[p].status)
    ensures p in Next(s, a).payments && p in s.payments && s.payments[p].status != Next(s, a).payments[p].status ==>
              var y := Next(s, a).payments[p];
              && (y.status == Authorized ==> CheckoutFor(a, y) || EventFor(a, PaymentAuthorized, y))
              && (y.status == Captured ==> EventFor(a, PaymentCaptured, y))
  {
    hide Inv, CommitHold, BeginPayment, FinalizeOrder, CompensateFailure, VerifyCheckout, ProcessWebhook;
    hide PrepareCancellation, RecordRefundFailure, FinalizeRefund, ApplyReconciled, StartSession, CompleteSession;
    hide EventFor, CheckoutFor;
    match a
    case CreateHoldTx(r, id) => HoldVouchesForNone(s, r, BookingsAtPoint(s.bookings, r.point), id);
    case CommitHoldTx(r, swept, id) => HoldVouchesForNone(s, r, swept, id);
    case ListTx(_, _) =>
    case SweepTx(_, _) =>
    case BeginTx(now, user, booking, version, key, id) =>
      BeginVouchesForNone(s, now, user, booking, version, key, id);
    case FinalizeTx(payment, order) => OrderVouchesForNone(s, payment, order);
    case CompensateTx(now, payment) => CompensationVouchesForNone(s, now, payment);
    case VerifyTx(user, order, providerPayment, signed) =>
      if p in Next(s, a).payments {
        VerificationVouches(s, user, order, providerPayment, signed, p);
      }
    case WebhookTx(now, d) =>
      if d.body.PaymentEvent? {
        if p in Next(s, a).payments {
          PaymentEventVouches(s, now, d, p);
        }
      } else {
        RefundEventVouchesForNone(s, now, d);
      }
    case CancelTx(now, user, booking, version, pick, id) =>
      CancelVouchesForNone(s, now, user, booking, version, pick, id);
    case RefundFailedTx(r, code) => FailureRecordVouchesForNone(s, r, code);
    case RefundAnsweredTx(now, r, providerRefund, answer) =>
      AnswerVouchesForNone(s, now, r, providerRefund, answer);
    case ReconcileTx(now, r, answer) => ReconciliationVouchesForNone(s, now, r, answer);
    case StartTx(now, operator, booking, version, meterStart, id) =>
      StartVouchesForNone(s, now, operator, booking, version, meterStart, id);
    case CompleteTx(now, operator, session, version, meterEnd) =>
      CompletionVouchesForNone(s, now, operator, session, version, meterEnd);
    case CatalogueTx(_) =>
  }

  // Only captured money goes back.
  lemma {:induction false} OnlyCapturedGoesBack(s: Store, a: Action, p: Id)
    requires Inv(s)
    ensures p in Next(s, a).payments && Next(s, a).payments[p].status == Refunded ==>
              p in s.payments && s.payments[p].status in {Captured, Refunded}
  {
    StepIsGood(s, a);
    OpeningNeedsConfirmed(s, a);
    var t := Next(s, a);
    hide Next;
    if p in t.payments && t.payments[p].status == Refunded {
      assert PaidBack(t.refunds, p);
      var r :| RefundOf(t.refunds, p, r) && t.refunds[r].status.Processed?;
      if r in s.refunds {
        assert RefundStep(s.refunds[r], t.refunds[r]);
        RefundFacts(s, r);
      }
    }
  }

  /******* Runs *******/

  ghost predicate HasEvent(acts: seq<Action>, kind: PaymentEventKind, y: Payment) {
    exists i :: 0 <= i < |acts| && EventFor(acts[i], kind, y)
  }

  ghost predicate HasCheckout(acts: seq<Action>, y: Payment) {
    exists i :: 0 <= i < |acts| && CheckoutFor(acts[i], y)
  }

  ghost predicate Explained(acts: seq<Action>, y: Payment) {
    && (y.status == Captured || y.status == Refunded ==> HasEvent(acts, PaymentCaptured, y))
    && (y.status == Authorized ==> HasCheckout(acts, y) || HasEvent(acts, PaymentAuthorized, y))
  }

  lemma StaysExplained(acts: seq<Action>, a: Action, x: Payment, y: Payment)
    requires Explained(acts, x) && PaymentStep(x, y)
    requires x.status == y.status || (x.status == Captured && y.status == Refunded)
    ensures Explained(acts + [a], y)
  {
    forall i, kind | 0 <= i < |acts| && EventFor(acts[i], kind, x)
      ensures EventFor((acts + [a])[i], kind, y)
    {
    }
    forall i | 0 <= i < |acts| && CheckoutFor(acts[i], x)
      ensures CheckoutFor((acts + [a])[i], y)
    {
    }
  }

  lemma NewlyExplained(acts: seq<Action>, a: Action, y: Payment)
    requires y.status != Refunded
    requires y.status == Authorized ==> CheckoutFor(a, y) || EventFor(a, PaymentAuthorized, y)
    requires y.status == Captured ==> EventFor(a, PaymentCaptured, y)
    ensures Explained(acts + [a], y)
  {
    assert (acts + [a])[|acts|] == a;
  }

  // In every reachable store, each captured or refunded payment was captured by a signed event of the run
  // for its order, its provider payment and its money, and each authorized one was vouched for by its
  // owner's signed checkout or by such an event.
  lemma {:induction false} MoneyIsExplained(acts: seq<Action>, p: Id)
    requires p in Run(EMPTY, acts).payments
    ensures Explained(acts, Run(EMPTY, acts).payments[p])
  {
    if acts != [] {
      var before, a := acts[..|acts| - 1], acts[|acts| - 1];
      var s := Run(EMPTY, before);
      assert acts == before + [a];
      hide Explained, Inv, Next;
      ReachableInv(before);
      if p in s.payments {
        MoneyIsExplained(before, p);
      }
      LastStepIsExplained(before, a, s, p);
    }
  }

  lemma {:induction false} LastStepIsExplained(before: seq<Action>, a: Action, s: Store, p: Id)
    requires Inv(s)
    requires p in s.payments ==> Explained(before, s.payments[p])
    ensures p in Next(s, a).payments ==> Explained(before + [a], Next(s, a).payments[p])
  {
    hide Explained, Inv, Next;
    var t := Next(s, a);
    if p !in t.payments {
      return;
    }
    StepIsGood(s, a);
    var y := t.payments[p];
    OnlyCapturedGoesBack(s, a, p);
    RaisingIsVouchedFor(s, a, p);
    if p in s.payments && (y.status == Refunded || s.payments[p].status == y.status) {
      assert PaymentStep(s.payments[p], y);
      StaysExplained(before, a, s.payments[p], y);
    } else {
      NewlyExplained(before, a, y);
    }
  }

  // A booking that is confirmed, in use or used was paid for in full: the run holds a signed captured event
  // for a payment of this booking, of exactly a hundred times its fee.
  lemma {:induction false} NoBookingWithoutMoney(acts: seq<Action>, b: Id)
    requires b in Run(EMPTY, acts).bookings
    requires Run(EMPTY, acts).bookings[b].status in {Confirmed, Active, Completed}
    ensures
      var s := Run(EMPTY, acts);
      exists p ::
        && p in s.payments && s.payments[p].booking == b
        && HasEvent(acts, PaymentCaptured, s.payments[p])
        && Some(s.payments[p].amount) == s.bookings[b].amount
        && s.payments[p].subunits as real == s.payments[p].amount * 100.0
  {
    var s := Run(EMPTY, acts);
    ReachableInv(acts);
    PaidBookingHasCapture(s, b);
    var p :| CapturedFor(s.payments, b, p);
    MoneyIsExplained(acts, p);
    PaymentFacts(s, p);
  }
}
