/**
 Every transaction as an action, and the proof that each of them keeps the invariant
 and only lets rows evolve. The two provider sagas are separate actions, so anything
 may run between the two halves, and the second half may never come.
 */
module LedgerSteps {
  import opened Wrappers
  import opened Ledger
  import opened LedgerInvariant

  datatype Action =
    | CreateHoldTx(request: HoldRequest, id: Id)
    | CommitHoldTx(request: HoldRequest, swept: set<Id>, id: Id)
    | ListTx(now: Time, user: Id)
    | SweepTx(now: Time, ids: set<Id>)
    | BeginTx(now: Time, user: Id, booking: Id, version: int, key: Id, id: Id)
    | FinalizeTx(payment: Id, order: Id)
    | CompensateTx(now: Time, payment: Id)
    | VerifyTx(user: Id, order: Id, providerPayment: Id, signed: bool)
    | WebhookTx(now: Time, delivery: Delivery)
    | CancelTx(now: Time, user: Id, booking: Id, version: int, pick: Id, id: Id)
    | RefundFailedTx(refund: Id, code: ErrorCode)
    | RefundAnsweredTx(now: Time, refund: Id, providerRefund: Id, answer: RefundAnswer)
    | ReconcileTx(now: Time, refund: Id, answer: RefundAnswer)
    | StartTx(now: Time, operator: Operator, booking: Id, version: int, meterStart: real, id: Id)
    | CompleteTx(now: Time, operator: Operator, session: Id, version: int, meterEnd: real)
    // update_station and update_charge_point, whatever they change.
    | CatalogueTx(points: map<Id, ChargePoint>)

  ghost function Apply(s: Store, a: Action): Effect {
    match a
    case CreateHoldTx(request, id) => CreateHold(s, request, id)
    case CommitHoldTx(request, swept, id) => CommitHold(s, request, swept, id)
    case ListTx(now, user) => ListBookings(s, now, user)
    case SweepTx(now, ids) => Effect(Sweep(s, now, ids), Done)
    case BeginTx(now, user, booking, version, key, id) => BeginPayment(s, now, user, booking, version, key, id)
    case FinalizeTx(payment, order) => FinalizeOrder(s, payment, order)
    case CompensateTx(now, payment) => CompensateFailure(s, now, payment)
    case VerifyTx(user, order, providerPayment, signed) => VerifyCheckout(s, user, order, providerPayment, signed)
    case WebhookTx(now, delivery) => ProcessWebhook(s, now, delivery)
    case CancelTx(now, user, booking, version, pick, id) =>
      PrepareCancellation(s, now, user, booking, version, pick, id)
    case RefundFailedTx(refund, code) => RecordRefundFailure(s, refund, code)
    case RefundAnsweredTx(now, refund, providerRefund, answer) =>
      FinalizeRefund(s, now, refund, providerRefund, answer)
    case ReconcileTx(now, refund, answer) => ApplyReconciled(s, now, refund, answer)
    case StartTx(now, operator, booking, version, meterStart, id) =>
      StartSession(s, now, operator, booking, version, meterStart, id)
    case CompleteTx(now, operator, session, version, meterEnd) =>
      CompleteSession(s, now, operator, session, version, meterEnd)
    case CatalogueTx(points) => Effect(s.(points := points), Done)
  }

  ghost function Next(s: Store, a: Action): Store {
    Apply(s, a).store
  }

  /******* Holds *******/

  lemma SweepIsGood(s: Store, now: Time, ids: set<Id>)
    requires Inv(s)
    ensures Good(s, Sweep(s, now, ids))
  {
    ClosingIsGood(s, SweepTable(s.bookings, now, ids));
  }

  lemma {:induction false} CommitHoldIsGood(s: Store, r: HoldRequest, swept: set<Id>, id: Id)
    requires Inv(s)
    ensures Good(s, CommitHold(s, r, swept, id).store)
  {
    var e := CommitHold(s, r, swept, id);
    if e.reply.Done? {
      var t := Sweep(s, r.now, swept);
      SweepIsGood(s, r.now, swept);
      HoldingIsGood(t, id, NewHold(r, s.points[r.point].fee));
      GoodThenGood(s, t, e.store);
    } else {
      StayingIsGood(s);
    }
  }

  // Two writes of one transaction compose when the second leaves the rows the first changed,
  // or the first changed no row.
  lemma GoodThenGood(s: Store, t: Store, u: Store)
    requires Good(s, t) && Good(t, u)
    requires || (forall b | b in t.bookings :: b in u.bookings && u.bookings[b] == t.bookings[b])
             || t.bookings == s.bookings
    ensures Good(s, u)
  {
  }

  /******* Payments *******/

  lemma {:induction false} BeginPaymentIsGood(s: Store, now: Time, user: Id, booking: Id, version: int, key: Id, id: Id)
    requires Inv(s)
    ensures Good(s, BeginPayment(s, now, user, booking, version, key, id).store)
  {
    var e := BeginPayment(s, now, user, booking, version, key, id);
    if e.reply.Started? {
      var y := e.store.payments[id];
      forall p | p in s.payments
        ensures s.payments[p].key != key
      {
        assert !HasKey(s.payments, key, p);
      }
      assert e.store == WithAttempt(s, id, y);
      BeginningIsGood(s, id, y);
    } else {
      StayingIsGood(s);
    }
  }

  // Only the payment row is written.
  lemma MovingOnlyPaymentIsGood(s: Store, p: Id, y: Payment)
    requires Inv(s) && p in s.payments && s.payments[p].booking in s.bookings
    requires CanMovePayment(s, p, y, s.bookings[s.payments[p].booking])
    ensures Good(s, SetPayment(s, p, y))
  {
    MovingPaymentIsGood(s, p, y, s.bookings[y.booking]);
    assert s.bookings[y.booking := s.bookings[y.booking]] == s.bookings;
    assert WithPayment(s, p, y, s.bookings[y.booking]) == SetPayment(s, p, y);
  }

  lemma AnswerIsGood(s: Store, p: Id)
    requires Inv(s)
    ensures Good(s, s.(attempts := s.attempts - {p}))
  {
  }

  lemma {:induction false} FinalizeOrderIsGood(s: Store, p: Id, order: Id)
    requires Inv(s)
    ensures Good(s, FinalizeOrder(s, p, order).store)
  {
    hide Reservations, Payments, Refunds, Settled, Sessions, Evolves, IdsFree;
    var e := FinalizeOrder(s, p, order);
    if p in s.attempts {
      var rest := s.(attempts := s.attempts - {p});
      AnswerIsGood(s, p);
      InFlightAttempt(s, p);
      if !OrderTaken(s.payments, order, p) {
        var y := s.payments[p].(orderId := Some(order));
        var y' :=
          if s.bookings[y.booking].status.PaymentPending? then y.(status := OrderCreated)
          else y.(status := Failed, error := Some(BookingStateChanged));
        assert e.store == SetPayment(rest, p, y');
        LearnsOrderId(s, p, order, y');
        MovingOnlyPaymentIsGood(rest, p, y');
        GoodThenGood(s, rest, e.store);
      }
    } else {
      StayingIsGood(s);
    }
  }

  // While its order call is in progress, nothing else can have touched an attempt.
  lemma InFlightAttempt(s: Store, p: Id)
    requires Inv(s) && p in s.attempts
    ensures p in s.payments && PaymentRow(s.payments[p])
    ensures s.payments[p].status.Initiated? && s.payments[p].orderId.None?
    ensures s.attempts[p].booking == s.payments[p].booking && s.payments[p].booking in s.bookings
  {
  }

  lemma LearnsOrderId(s: Store, p: Id, order: Id, y: Payment)
    requires Inv(s) && p in s.attempts && !OrderTaken(s.payments, order, p)
    requires y.orderId == Some(order) && y.providerPaymentId == s.payments[p].providerPaymentId
    ensures IdsFree(s.payments, p, y)
  {
  }

  lemma CompensateFailureIsGood(s: Store, now: Time, p: Id)
    requires Inv(s)
    ensures Good(s, CompensateFailure(s, now, p).store)
  {
    var e := CompensateFailure(s, now, p);
    if p in s.attempts {
      var rest := s.(attempts := s.attempts - {p});
      var b := s.attempts[p].booking;
      AnswerIsGood(s, p);
      MovingPaymentIsGood(rest, p, e.store.payments[p], e.store.bookings[b]);
      assert e.store == WithPayment(rest, p, e.store.payments[p], e.store.bookings[b]);
      GoodThenGood(s, rest, e.store);
    } else {
      StayingIsGood(s);
    }
  }

  // A payment the provider knows by its order cannot be waiting for that order.
  lemma OrderedIsNotInFlight(s: Store, p: Id)
    requires Inv(s) && p in s.payments && s.payments[p].orderId.Some?
    ensures p !in s.attempts && s.payments[p].booking in s.bookings
  {
  }

  lemma PaymentFacts(s: Store, p: Id)
    requires Inv(s) && p in s.payments
    ensures PaymentRow(s.payments[p])
    ensures s.payments[p].booking in s.bookings
    ensures PaymentMatches(s.payments[p], s.bookings[s.payments[p].booking])
  {
  }

  lemma ErrorNoteIsGood(s: Store, p: Id, code: ErrorCode)
    requires Inv(s) && p in s.payments && s.payments[p].orderId.Some?
    ensures Good(s, SetPayment(s, p, s.payments[p].(error := Some(code))))
  {
    OrderedIsNotInFlight(s, p);
    StaysDistinct(s, p);
    MovingOnlyPaymentIsGood(s, p, s.payments[p].(error := Some(code)));
  }

  lemma StaysDistinct(s: Store, p: Id)
    requires Inv(s) && p in s.payments
    ensures IdsFree(s.payments, p, s.payments[p])
  {
  }

  lemma LearnsPaymentId(s: Store, p: Id, providerPayment: Id)
    requires Inv(s) && p in s.payments && !ProviderPaymentTaken(s.payments, providerPayment, p)
    ensures IdsFree(s.payments, p, s.payments[p].(providerPaymentId := Some(providerPayment)))
  {
  }

  lemma VerifyCheckoutIsGood(s: Store, user: Id, order: Id, providerPayment: Id, signed: bool)
    requires Inv(s)
    ensures Good(s, VerifyCheckout(s, user, order, providerPayment, signed).store)
  {
    var e := VerifyCheckout(s, user, order, providerPayment, signed);
    if e.store != s {
      var p := PaymentWithOrder(s.payments, order).value;
      OrderedIsNotInFlight(s, p);
      LearnsPaymentId(s, p, providerPayment);
      MovingOnlyPaymentIsGood(s, p, e.store.payments[p]);
    } else {
      StayingIsGood(s);
    }
  }

  /******* Webhooks *******/

  // y is the payment p after it learnt its provider payment id.
  ghost predicate Identified(s: Store, p: Id, y: Payment) {
    && p in s.payments && s.payments[p].orderId.Some?
    && y.providerPaymentId.Some? && KeepsId(s.payments[p].providerPaymentId, y.providerPaymentId)
    && y == s.payments[p].(providerPaymentId := y.providerPaymentId)
    && IdsFree(s.payments, p, y)
  }

  lemma CaptureIsGood(s: Store, p: Id, y: Payment)
    requires Inv(s) && Identified(s, p, y)
    ensures Good(s, ApplyCaptured(s, p, y).store)
  {
    hide Good, Inv;
    OrderedIsNotInFlight(s, p);
    PaymentFacts(s, p);
    var b := s.bookings[y.booking];
    var paid := y.(status := Captured);
    if y.status.Refunded? {
      MovingOnlyPaymentIsGood(s, p, y);
    } else if b.status.PaymentPending? {
      MovingPaymentIsGood(s, p, paid, Moved(b, Confirmed));
    } else if b.status.Confirmed? {
      MovingOnlyPaymentIsGood(s, p, paid);
    } else {
      MovingOnlyPaymentIsGood(s, p, paid.(error := Some(CapturedAfterBookingClosed)));
    }
  }

  lemma FailureIsGood(s: Store, now: Time, p: Id, y: Payment)
    requires Inv(s) && Identified(s, p, y)
    ensures Good(s, ApplyFailed(s, now, p, y).store)
  {
    hide Good, Inv;
    OrderedIsNotInFlight(s, p);
    PaymentFacts(s, p);
    if y.status.Captured? || y.status.Refunded? {
      MovingOnlyPaymentIsGood(s, p, y);
    } else {
      var b' := Released(s.bookings[y.booking], now);
      MovingPaymentIsGood(s, p, y.(status := Failed), b');
    }
  }

  lemma AuthorizationIsGood(s: Store, p: Id, y: Payment)
    requires Inv(s) && Identified(s, p, y)
    ensures Good(s, SetPayment(s, p, if y.status.OrderCreated? then y.(status := Authorized) else y))
  {
    OrderedIsNotInFlight(s, p);
    MovingOnlyPaymentIsGood(s, p, if y.status.OrderCreated? then y.(status := Authorized) else y);
  }

  lemma AcceptedPaymentEventIsGood(s: Store, now: Time, kind: PaymentEventKind, p: Id, y: Payment)
    requires Inv(s) && Identified(s, p, y)
    ensures Good(s, AcceptPaymentEvent(s, now, kind, p, y).store)
  {
    hide Good, Inv, ApplyCaptured, ApplyFailed;
    match kind
    case PaymentAuthorized => AuthorizationIsGood(s, p, y);
    case PaymentCaptured => CaptureIsGood(s, p, y);
    case PaymentFailed => FailureIsGood(s, now, p, y);
  }

  lemma {:induction false} PaymentEventOnIsGood(s: Store, now: Time, e: Body, p: Id)
    requires Inv(s) && e.PaymentEvent? && HasOrder(s.payments, e.order, p)
    ensures Good(s, PaymentEventOn(s, now, e, p).store)
  {
    hide Good, Inv, AcceptPaymentEvent;
    var y := s.payments[p];
    if e.amount != Some(y.subunits) || e.currency != Some(y.currency) {
      ErrorNoteIsGood(s, p, ProviderAmountMismatch);
    } else if y.providerPaymentId.Some? && y.providerPaymentId.value != e.payment {
      ErrorNoteIsGood(s, p, ProviderPaymentIdMismatch);
    } else if ProviderPaymentTaken(s.payments, e.payment, p) {
      StayingIsGood(s);
    } else {
      LearnsPaymentId(s, p, e.payment);
      AcceptedPaymentEventIsGood(s, now, e.kind, p, y.(providerPaymentId := Some(e.payment)));
    }
  }

  lemma {:induction false} PaymentEventIsGood(s: Store, now: Time, e: Body)
    requires Inv(s) && e.PaymentEvent?
    ensures Good(s, ApplyPaymentEvent(s, now, e).store)
  {
    hide Good, Inv, PaymentEventOn;
    match PaymentWithOrder(s.payments, e.order)
    case Some(p) => PaymentEventOnIsGood(s, now, e, p);
    case None => StayingIsGood(s);
  }

  // The lookups by unique columns find at most one row.
  lemma KeyIsUnique(s: Store, key: Id)
    requires Inv(s)
    ensures forall p, q | HasKey(s.payments, key, p) && HasKey(s.payments, key, q) :: p == q
  {
  }

  lemma OrderIsUnique(s: Store, order: Id)
    requires Inv(s)
    ensures forall p, q | HasOrder(s.payments, order, p) && HasOrder(s.payments, order, q) :: p == q
  {
  }

  lemma ProviderPaymentIsUnique(s: Store, providerPayment: Id)
    requires Inv(s)
    ensures forall p, q | HasProviderPayment(s.payments, providerPayment, p)
                       && HasProviderPayment(s.payments, providerPayment, q) :: p == q
  {
  }

  lemma RefundIsUnique(s: Store, p: Id)
    requires Inv(s)
    ensures forall r, q | RefundOf(s.refunds, p, r) && RefundOf(s.refunds, p, q) :: r == q
  {
  }

  // Only the refund row is written: it was not just processed.
  lemma MovingOnlyRefundIsGood(s: Store, r: Id, z: Refund)
    requires Inv(s) && CanMoveRefund(s, r, z)
    requires z.status.Processed? ==> s.refunds[r].status.Processed?
    ensures Good(s, SetRefund(s, r, z))
  {
    hide Reservations, Payments, Refunds, Settled, Sessions, Evolves, Good, Inv;
    RefundFacts(s, r);
    MovingRefundIsGood(s, r, z);
    assert RefundedPayment(z, s.payments[z.payment]) == s.payments[z.payment];
    assert s.payments[z.payment := s.payments[z.payment]] == s.payments;
    assert WithRefundRow(s, r, z) == SetRefund(s, r, z);
  }

  lemma {:induction false} RefundEventOnIsGood(s: Store, now: Time, e: Body, r: Id)
    requires Inv(s) && e.RefundEvent? && r in s.refunds
    ensures Good(s, RefundEventOn(s, now, e, r).store)
  {
    hide Good, Inv, AcceptRefundEvent;
    RefundFacts(s, r);
    RefundStaysDistinct(s, r);
    var z := s.refunds[r];
    if e.amount != Some(z.subunits) || e.currency != Some(z.currency) {
      MovingOnlyRefundIsGood(s, r, z.(error := Some(ProviderRefundAmountMismatch)));
    } else if z.providerRefundId.Some? && z.providerRefundId.value != e.refund {
      MovingOnlyRefundIsGood(s, r, z.(error := Some(ProviderRefundIdMismatch)));
    } else if ProviderRefundTaken(s.refunds, e.refund, r) {
      StayingIsGood(s);
    } else {
      AcceptedRefundEventIsGood(s, now, e.refundKind, r, e.refund);
    }
  }

  lemma {:induction false} RefundEventIsGood(s: Store, now: Time, e: Body)
    requires Inv(s) && e.RefundEvent?
    ensures Good(s, ApplyRefundEvent(s, now, e).store)
  {
    hide Good, Inv, RefundEventOn;
    match PaymentWithProviderId(s.payments, e.payment)
    case None => StayingIsGood(s);
    case Some(p) =>
      match FindRefund(s.refunds, p)
      case None => StayingIsGood(s);
      case Some(r) => RefundEventOnIsGood(s, now, e, r);
  }

  lemma RefundFacts(s: Store, r: Id)
    requires Inv(s) && r in s.refunds
    ensures s.refunds[r].payment in s.payments
    ensures RefundAgrees(s.refunds[r], s.payments[s.refunds[r].payment])
  {
  }

  lemma AcceptedRefundEventIsGood(s: Store, now: Time, kind: RefundEventKind, r: Id, providerRefund: Id)
    requires Inv(s) && r in s.refunds
    requires KeepsId(s.refunds[r].providerRefundId, Some(providerRefund))
    requires !ProviderRefundTaken(s.refunds, providerRefund, r)
    ensures Good(s, AcceptRefundEvent(s, now, kind, r, s.refunds[r].(providerRefundId := Some(providerRefund))).store)
  {
    hide Good, Inv;
    RefundFacts(s, r);
    var z := s.refunds[r].(providerRefundId := Some(providerRefund));
    if kind.RefundProcessed? {
      var done := z.(status := Processed, processedAt := Some(now));
      MovingRefundIsGood(s, r, done);
      assert WithRefundRow(s, r, done)
          == SetPayment(SetRefund(s, r, done), z.payment, s.payments[z.payment].(status := Refunded));
    } else if z.status.Processed? {
      MovingOnlyRefundIsGood(s, r, z);
    } else {
      MovingOnlyRefundIsGood(s, r, z.(status := Rejected, error := Some(ProviderRefundFailed)));
    }
  }

  lemma {:induction false} ApplyEventIsGood(s: Store, now: Time, e: Body)
    requires Inv(s)
    ensures Good(s, ApplyEvent(s, now, e).store)
  {
    hide Good, Inv, ApplyPaymentEvent, ApplyRefundEvent;
    match e
    case PaymentEvent(_, _, _, _, _) => PaymentEventIsGood(s, now, e);
    case RefundEvent(_, _, _, _, _) => RefundEventIsGood(s, now, e);
    case _ => StayingIsGood(s);
  }

  lemma RecordingIsGood(s: Store, t: Store, event: Id, record: EventRecord)
    requires Good(s, t) && event !in s.events
    ensures Good(s, t.(events := s.events[event := record]))
  {
  }

  lemma {:induction false} WebhookIsGood(s: Store, now: Time, d: Delivery)
    requires Inv(s)
    ensures Good(s, ProcessWebhook(s, now, d).store)
  {
    hide Inv, Good, ApplyEvent;
    var e := ProcessWebhook(s, now, d);
    if e.reply.WebhookProcessed? || e.reply.WebhookIgnored? {
      ApplyEventIsGood(s, now, d.body);
      var status := if e.reply.WebhookProcessed? then ProcessedEvent else IgnoredEvent;
      RecordingIsGood(s, ApplyEvent(s, now, d.body).store, d.event, EventRecord(d.digest, status));
    } else {
      StayingIsGood(s);
    }
  }

  /******* Cancellation and refunds *******/

  lemma {:induction false} PrepareCancellationIsGood(
    s: Store, now: Time, user: Id, booking: Id, version: int, pick: Id, id: Id)
    requires Inv(s)
    ensures Good(s, PrepareCancellation(s, now, user, booking, version, pick, id).store)
  {
    var e := PrepareCancellation(s, now, user, booking, version, pick, id);
    if e.reply.RefundStarted? {
      var row, z, call := e.store.bookings[booking], e.store.refunds[id], e.store.calls[id];
      assert e.store == WithRefund(s, booking, row, id, z, call);
      OpeningRefundIsGood(s, booking, row, id, z, call);
    } else if e.reply.Done? {
      ClosingIsGood(s, e.store.bookings);
    } else {
      StayingIsGood(s);
    }
  }

  lemma RefundAnswerIsGood(s: Store, r: Id)
    requires Inv(s)
    ensures Good(s, s.(calls := s.calls - {r}))
  {
  }

  lemma RecordRefundFailureIsGood(s: Store, r: Id, code: ErrorCode)
    requires Inv(s)
    ensures Good(s, RecordRefundFailure(s, r, code).store)
  {
    var e := RecordRefundFailure(s, r, code);
    if r in s.calls {
      var rest := s.(calls := s.calls - {r});
      RefundAnswerIsGood(s, r);
      if s.refunds[r].status.Requested? {
        MovingOnlyRefundIsGood(rest, r, e.store.refunds[r]);
        GoodThenGood(s, rest, e.store);
      }
    } else {
      StayingIsGood(s);
    }
  }

  lemma FinalizeRefundIsGood(s: Store, now: Time, r: Id, providerRefund: Id, answer: RefundAnswer)
    requires Inv(s)
    ensures Good(s, FinalizeRefund(s, now, r, providerRefund, answer).store)
  {
    var e := FinalizeRefund(s, now, r, providerRefund, answer);
    if r in s.calls {
      var rest := s.(calls := s.calls - {r});
      RefundAnswerIsGood(s, r);
      if e.store != rest {
        var z' := e.store.refunds[r];
        if answer.AnswerProcessed? {
          MovingRefundIsGood(rest, r, z');
          assert e.store == WithRefundRow(rest, r, z');
        } else {
          MovingOnlyRefundIsGood(rest, r, z');
        }
        GoodThenGood(s, rest, e.store);
      }
    } else {
      StayingIsGood(s);
    }
  }

  lemma ReconcileIsGood(s: Store, now: Time, r: Id, answer: RefundAnswer)
    requires Inv(s)
    ensures Good(s, ApplyReconciled(s, now, r, answer).store)
  {
    var e := ApplyReconciled(s, now, r, answer);
    if e.store != s {
      var z' := e.store.refunds[r];
      RefundStaysDistinct(s, r);
      if answer.AnswerProcessed? {
        MovingRefundIsGood(s, r, z');
        assert e.store == WithRefundRow(s, r, z');
      } else {
        MovingOnlyRefundIsGood(s, r, z');
      }
    } else {
      StayingIsGood(s);
    }
  }

  lemma RefundStaysDistinct(s: Store, r: Id)
    requires Inv(s) && r in s.refunds
    ensures forall q | q in s.refunds && q != r ::
              !(s.refunds[r].providerRefundId.Some? && s.refunds[q].providerRefundId == s.refunds[r].providerRefundId)
  {
  }

  /******* Sessions *******/

  lemma {:induction false} StartSessionIsGood(
    s: Store, now: Time, operator: Operator, booking: Id, version: int, meterStart: real, id: Id)
    requires Inv(s)
    ensures Good(s, StartSession(s, now, operator, booking, version, meterStart, id).store)
  {
    var e := StartSession(s, now, operator, booking, version, meterStart, id);
    if e.reply.Done? {
      WritingSessionIsGood(s, id, e.store.sessions[id], e.store.bookings[booking]);
      assert e.store == WithSession(s, id, e.store.sessions[id], e.store.bookings[booking]);
    } else {
      StayingIsGood(s);
    }
  }

  lemma {:induction false} CompleteSessionIsGood(
    s: Store, now: Time, operator: Operator, session: Id, version: int, meterEnd: real)
    requires Inv(s)
    ensures Good(s, CompleteSession(s, now, operator, session, version, meterEnd).store)
  {
    var e := CompleteSession(s, now, operator, session, version, meterEnd);
    if e.reply.Done? {
      var b := e.store.bookings[s.sessions[session].booking];
      WritingSessionIsGood(s, session, e.store.sessions[session], b);
      assert e.store == WithSession(s, session, e.store.sessions[session], b);
    } else {
      StayingIsGood(s);
    }
  }

  /******* Every transaction *******/

  lemma CatalogueIsGood(s: Store, points: map<Id, ChargePoint>)
    requires Inv(s)
    ensures Good(s, s.(points := points))
  {
  }

  lemma {:induction false} StepIsGood(s: Store, a: Action)
    requires Inv(s)
    ensures Good(s, Next(s, a))
  {
    hide Good, Inv, CommitHold, BeginPayment, FinalizeOrder, CompensateFailure, VerifyCheckout, ProcessWebhook;
    hide PrepareCancellation, RecordRefundFailure, FinalizeRefund, ApplyReconciled, StartSession, CompleteSession;
    match a
    case CreateHoldTx(request, id) =>
      CommitHoldIsGood(s, request, BookingsAtPoint(s.bookings, request.point), id);
    case CommitHoldTx(request, swept, id) => CommitHoldIsGood(s, request, swept, id);
    case ListTx(now, user) => SweepIsGood(s, now, BookingsOfUser(s.bookings, user));
    case SweepTx(now, ids) => SweepIsGood(s, now, ids);
    case BeginTx(now, user, booking, version, key, id) =>
      BeginPaymentIsGood(s, now, user, booking, version, key, id);
    case FinalizeTx(payment, order) => FinalizeOrderIsGood(s, payment, order);
    case CompensateTx(now, payment) => CompensateFailureIsGood(s, now, payment);
    case VerifyTx(user, order, providerPayment, signed) =>
      VerifyCheckoutIsGood(s, user, order, providerPayment, signed);
    case WebhookTx(now, delivery) => WebhookIsGood(s, now, delivery);
    case CancelTx(now, user, booking, version, pick, id) =>
      PrepareCancellationIsGood(s, now, user, booking, version, pick, id);
    case RefundFailedTx(refund, code) => RecordRefundFailureIsGood(s, refund, code);
    case RefundAnsweredTx(now, refund, providerRefund, answer) =>
      FinalizeRefundIsGood(s, now, refund, providerRefund, answer);
    case ReconcileTx(now, refund, answer) => ReconcileIsGood(s, now, refund, answer);
    case StartTx(now, operator, booking, version, meterStart, id) =>
      StartSessionIsGood(s, now, operator, booking, version, meterStart, id);
    case CompleteTx(now, operator, session, version, meterEnd) =>
      CompleteSessionIsGood(s, now, operator, session, version, meterEnd);
    case CatalogueTx(points) => CatalogueIsGood(s, points);
  }
}
