/**
 Holds expire lazily: a stale hold keeps its row until some transaction needs to know.
 Sweeping early is invisible to every request, over whole runs, and the batched
 maintenance job ends where one bulk update would.
 */
module HoldExpiry {
  import opened Wrappers
  import opened Ledger
  import opened LedgerSteps
  import opened LedgerRuns
  import opened Sets

  /******* Tables *******/

  // A sweep keeps every row but the stale ones it was given, and those only expire.
  lemma SweepKeeps(bookings: map<Id, Booking>, t: Time, x: set<Id>)
    ensures SweepTable(bookings, t, x).Keys == bookings.Keys
    ensures forall b | b in bookings ::
              && SweepTable(bookings, t, x)[b].user == bookings[b].user
              && SweepTable(bookings, t, x)[b].point == bookings[b].point
              && (SweepTable(bookings, t, x)[b] == bookings[b]
                  || (Stale(bookings[b], t) && SweepTable(bookings, t, x)[b] == Moved(bookings[b], Expired)))
    ensures forall user :: BookingsOfUser(SweepTable(bookings, t, x), user) == BookingsOfUser(bookings, user)
    ensures forall point :: BookingsAtPoint(SweepTable(bookings, t, x), point) == BookingsAtPoint(bookings, point)
  {
  }

  lemma SweepsCommute(bookings: map<Id, Booking>, t: Time, x: set<Id>, u: Time, y: set<Id>)
    ensures SweepTable(SweepTable(bookings, t, x), u, y) == SweepTable(SweepTable(bookings, u, y), t, x)
  {
    SweepKeeps(bookings, t, x);
    SweepKeeps(bookings, u, y);
    var a, b := SweepTable(SweepTable(bookings, t, x), u, y), SweepTable(SweepTable(bookings, u, y), t, x);
    assert forall k | k in bookings :: a[k] == b[k];
  }

  // A row that is not stale can be written before or after the sweep.
  lemma WriteCommutes(bookings: map<Id, Booking>, t: Time, x: set<Id>, b: Id, row: Booking)
    requires !Stale(row, t)
    ensures SweepTable(bookings[b := row], t, x) == SweepTable(bookings, t, x)[b := row]
  {
  }

  // A stale hold of a swept point or user is found expired, whoever expired it.
  lemma SweepsAbsorb(bookings: map<Id, Booking>, t: Time, x: set<Id>, now: Time, y: set<Id>)
    requires t <= now
    ensures forall b | b in bookings && b in y ::
              SweepTable(SweepTable(bookings, t, x), now, y)[b] == SweepTable(bookings, now, y)[b]
  {
  }

  /******* Transactions *******/

  // A sweep touches the bookings only, so every other write commutes with it.
  lemma SweepFrame(s: Store, t: Time, x: set<Id>)
    ensures
      var w := Sweep(s, t, x);
      && w.points == s.points && w.payments == s.payments && w.refunds == s.refunds
      && w.sessions == s.sessions && w.events == s.events && w.attempts == s.attempts && w.calls == s.calls
      && w.bookings == SweepTable(s.bookings, t, x)
    ensures forall p, y :: SetPayment(Sweep(s, t, x), p, y) == Sweep(SetPayment(s, p, y), t, x)
    ensures forall r, z :: SetRefund(Sweep(s, t, x), r, z) == Sweep(SetRefund(s, r, z), t, x)
    ensures forall k, row :: SetSession(Sweep(s, t, x), k, row) == Sweep(SetSession(s, k, row), t, x)
    ensures forall u, d, status ::
              RecordEvent(Sweep(s, t, x), Sweep(u, t, x), d, status) == Sweep(RecordEvent(s, u, d, status), t, x)
  {
  }

  // So does writing a booking that is not stale.
  lemma BookingFrame(s: Store, t: Time, x: set<Id>, b: Id, row: Booking)
    requires !Stale(row, t)
    ensures SetBooking(Sweep(s, t, x), b, row) == Sweep(SetBooking(s, b, row), t, x)
  {
  }

  // Effect e, had the bookings x been swept at t.
  function SweptEffect(e: Effect, t: Time, x: set<Id>): Effect {
    Effect(Sweep(e.store, t, x), e.reply)
  }

  // Once the point's stale holds are swept at now, an earlier sweep leaves the same slots free.
  lemma SlotsIgnoreSweep(bookings: map<Id, Booking>, r: HoldRequest, t: Time, x: set<Id>)
    requires t <= r.now
    ensures
      var here := BookingsAtPoint(bookings, r.point);
      SlotFree(SweepTable(SweepTable(bookings, t, x), r.now, here), r.point, r.startsAt, r.endsAt)
      == SlotFree(SweepTable(bookings, r.now, here), r.point, r.startsAt, r.endsAt)
  {
    var here := BookingsAtPoint(bookings, r.point);
    var lazy, eager := SweepTable(bookings, r.now, here), SweepTable(SweepTable(bookings, t, x), r.now, here);
    SweepsAbsorb(bookings, t, x, r.now, here);
    assert forall b | b in lazy && Overlaps(lazy[b], r.point, r.startsAt, r.endsAt) :: eager[b] == lazy[b];
    assert forall b | b in eager && Overlaps(eager[b], r.point, r.startsAt, r.endsAt) :: eager[b] == lazy[b];
  }

  lemma CreateHoldIgnoresSweep(s: Store, r: HoldRequest, id: Id, t: Time, x: set<Id>)
    requires t <= r.now
    ensures CreateHold(Sweep(s, t, x), r, id) == SweptEffect(CreateHold(s, r, id), t, x)
  {
    var here := BookingsAtPoint(s.bookings, r.point);
    SweepKeeps(s.bookings, t, x);
    SweepKeeps(s.bookings, r.now, here);
    SweepFrame(s, t, x);
    SweepFrame(s, r.now, here);
    SweepFrame(Sweep(s, t, x), r.now, here);
    SlotsIgnoreSweep(s.bookings, r, t, x);
    StoreSweepsCommute(s, t, x, r.now, here);
    if r.point in s.points {
      BookingFrame(Sweep(s, r.now, here), t, x, id, NewHold(r, s.points[r.point].fee));
    }
    hide Sweep, SlotFree, SweepTable, SetBooking, BookingsAtPoint, NewHold;
  }

  lemma StoreSweepsCommute(s: Store, t: Time, x: set<Id>, u: Time, y: set<Id>)
    ensures Sweep(Sweep(s, t, x), u, y) == Sweep(Sweep(s, u, y), t, x)
  {
    SweepsCommute(s.bookings, t, x, u, y);
  }

  lemma RowsAgree(x: map<Id, Booking>, y: map<Id, Booking>, user: Id)
    requires BookingsOfUser(x, user) == BookingsOfUser(y, user)
    requires forall b | b in BookingsOfUser(x, user) :: x[b] == y[b]
    ensures RowsOfUser(x, user) == RowsOfUser(y, user)
  {
    var a, b := RowsOfUser(x, user), RowsOfUser(y, user);
    assert a.Keys == BookingsOfUser(x, user) && b.Keys == BookingsOfUser(y, user);
    assert forall k | k in a.Keys :: a[k] == b[k];
  }

  lemma ListIgnoresSweep(s: Store, now: Time, user: Id, t: Time, x: set<Id>)
    requires t <= now
    ensures ListBookings(Sweep(s, t, x), now, user) == SweptEffect(ListBookings(s, now, user), t, x)
  {
    var mine := BookingsOfUser(s.bookings, user);
    SweepKeeps(s.bookings, t, x);
    SweepsCommute(s.bookings, t, x, now, mine);
    SweepsAbsorb(s.bookings, t, x, now, mine);
    SweepKeeps(s.bookings, now, mine);
    SweepKeeps(SweepTable(s.bookings, t, x), now, mine);
    hide SweepTable;
    RowsAgree(
      SweepTable(SweepTable(s.bookings, t, x), now, mine), SweepTable(s.bookings, now, mine), user);
  }

  lemma BeginIgnoresSweep(
    s: Store, now: Time, user: Id, booking: Id, version: int, key: Id, id: Id, t: Time, x: set<Id>)
    requires t <= now
    ensures BeginPayment(Sweep(s, t, x), now, user, booking, version, key, id)
         == SweptEffect(BeginPayment(s, now, user, booking, version, key, id), t, x)
  {
    SweepKeeps(s.bookings, t, x);
    if booking in s.bookings {
      WriteCommutes(s.bookings, t, x, booking, Moved(s.bookings[booking], PaymentPending));
    }
  }

  lemma {:induction false} CompensateIgnoresSweep(s: Store, now: Time, p: Id, t: Time, x: set<Id>)
    requires t <= now
    ensures CompensateFailure(Sweep(s, t, x), now, p) == SweptEffect(CompensateFailure(s, now, p), t, x)
  {
    SweepKeeps(s.bookings, t, x);
    if p in s.attempts && s.attempts[p].booking in s.bookings {
      ReleaseCommutes(s.bookings, t, x, s.attempts[p].booking, now);
    }
    hide SweepTable, Released;
  }

  // Releasing a booking commutes with sweeping it earlier.
  lemma ReleaseCommutes(bookings: map<Id, Booking>, t: Time, x: set<Id>, b: Id, now: Time)
    requires t <= now && b in bookings
    ensures
      var swept := SweepTable(bookings, t, x);
      swept[b := Released(swept[b], now)] == SweepTable(bookings[b := Released(bookings[b], now)], t, x)
  {
  }

  lemma FailureIgnoresSweep(s: Store, now: Time, p: Id, y: Payment, t: Time, x: set<Id>)
    requires t <= now
    ensures ApplyFailed(Sweep(s, t, x), now, p, y) == SweptEffect(ApplyFailed(s, now, p, y), t, x)
  {
    SweepKeeps(s.bookings, t, x);
    SweepFrame(s, t, x);
    if y.booking in s.bookings {
      ReleaseFrame(SetPayment(s, p, y.(status := Failed)), t, x, y.booking, now);
    }
    hide Sweep, SweepTable, SetPayment, SetBooking, Released;
    assert SetPayment(s, p, y.(status := Failed)).bookings == s.bookings by {
      PaymentLeavesBookings(s, p, y.(status := Failed));
    }
  }

  lemma PaymentLeavesBookings(s: Store, p: Id, y: Payment)
    ensures SetPayment(s, p, y).bookings == s.bookings
  {
  }

  lemma ReleaseFrame(s: Store, t: Time, x: set<Id>, b: Id, now: Time)
    requires t <= now && b in s.bookings
    ensures SetBooking(Sweep(s, t, x), b, Released(SweepTable(s.bookings, t, x)[b], now))
         == Sweep(SetBooking(s, b, Released(s.bookings[b], now)), t, x)
  {
  }

  lemma {:induction false} CaptureIgnoresSweep(s: Store, p: Id, y: Payment, t: Time, x: set<Id>)
    ensures ApplyCaptured(Sweep(s, t, x), p, y) == SweptEffect(ApplyCaptured(s, p, y), t, x)
  {
    SweepKeeps(s.bookings, t, x);
    SweepFrame(s, t, x);
    if y.booking in s.bookings {
      BookingFrame(
        SetPayment(s, p, y.(status := Captured)), t, x, y.booking, Moved(s.bookings[y.booking], Confirmed));
    }
    hide Sweep, SweepTable, SetPayment, SetBooking;
  }

  lemma {:induction false} AcceptedEventIgnoresSweep(
    s: Store, now: Time, kind: PaymentEventKind, p: Id, y: Payment, t: Time, x: set<Id>)
    requires t <= now
    ensures AcceptPaymentEvent(Sweep(s, t, x), now, kind, p, y)
         == SweptEffect(AcceptPaymentEvent(s, now, kind, p, y), t, x)
  {
    hide SweepTable, ApplyFailed, ApplyCaptured;
    match kind
    case PaymentAuthorized =>
    case PaymentCaptured => CaptureIgnoresSweep(s, p, y, t, x);
    case PaymentFailed => FailureIgnoresSweep(s, now, p, y, t, x);
  }

  lemma {:induction false} PaymentEventOnIgnoresSweep(s: Store, now: Time, e: Body, p: Id, t: Time, x: set<Id>)
    requires t <= now && e.PaymentEvent? && p in s.payments
    ensures PaymentEventOn(Sweep(s, t, x), now, e, p) == SweptEffect(PaymentEventOn(s, now, e, p), t, x)
  {
    hide SweepTable, AcceptPaymentEvent;
    AcceptedEventIgnoresSweep(s, now, e.kind, p, s.payments[p].(providerPaymentId := Some(e.payment)), t, x);
  }

  lemma {:induction false} EventIgnoresSweep(s: Store, now: Time, e: Body, t: Time, x: set<Id>)
    requires t <= now
    ensures ApplyEvent(Sweep(s, t, x), now, e) == SweptEffect(ApplyEvent(s, now, e), t, x)
  {
    SweepFrame(s, t, x);
    hide Sweep, SweepTable, PaymentEventOn, RefundEventOn;
    match e
    case PaymentEvent(_, order, _, _, _) =>
      if PaymentWithOrder(s.payments, order).Some? {
        PaymentEventOnIgnoresSweep(s, now, e, PaymentWithOrder(s.payments, order).value, t, x);
      }
    case RefundEvent(_, _, payment, _, _) =>
      if PaymentWithProviderId(s.payments, payment).Some? {
        var p := PaymentWithProviderId(s.payments, payment).value;
        if FindRefund(s.refunds, p).Some? {
          RefundEventOnIgnoresSweep(s, now, e, FindRefund(s.refunds, p).value, t, x);
        }
      }
    case _ =>
  }

  lemma {:induction false} RefundEventOnIgnoresSweep(s: Store, now: Time, e: Body, r: Id, t: Time, x: set<Id>)
    requires e.RefundEvent? && r in s.refunds
    ensures r in Sweep(s, t, x).refunds
    ensures RefundEventOn(Sweep(s, t, x), now, e, r) == SweptEffect(RefundEventOn(s, now, e, r), t, x)
  {
    SweepFrame(s, t, x);
    AcceptedRefundIgnoresSweep(s, now, e.refundKind, r, s.refunds[r].(providerRefundId := Some(e.refund)), t, x);
    hide Sweep, SweepTable, SetRefund, AcceptRefundEvent;
  }

  lemma AcceptedRefundIgnoresSweep(
    s: Store, now: Time, kind: RefundEventKind, r: Id, z: Refund, t: Time, x: set<Id>)
    ensures AcceptRefundEvent(Sweep(s, t, x), now, kind, r, z)
         == SweptEffect(AcceptRefundEvent(s, now, kind, r, z), t, x)
  {
    SweepFrame(s, t, x);
    SweepFrame(SetRefund(s, r, z.(status := Processed, processedAt := Some(now))), t, x);
    hide Sweep, SweepTable, SetPayment, SetRefund;
  }

  lemma {:induction false} WebhookIgnoresSweep(s: Store, now: Time, d: Delivery, t: Time, x: set<Id>)
    requires t <= now
    ensures ProcessWebhook(Sweep(s, t, x), now, d) == SweptEffect(ProcessWebhook(s, now, d), t, x)
  {
    EventIgnoresSweep(s, now, d.body, t, x);
    SweepFrame(s, t, x);
    hide Sweep, SweepTable, ApplyEvent, RecordEvent;
  }

  lemma {:induction false} CancelIgnoresSweep(
    s: Store, now: Time, user: Id, booking: Id, version: int, pick: Id, id: Id, t: Time, x: set<Id>)
    requires t <= now
    ensures PrepareCancellation(Sweep(s, t, x), now, user, booking, version, pick, id)
         == SweptEffect(PrepareCancellation(s, now, user, booking, version, pick, id), t, x)
  {
    SweepKeeps(s.bookings, t, x);
    SweepFrame(s, t, x);
    if booking in s.bookings {
      BookingFrame(s, t, x, booking, CancelledRow(s.bookings[booking], now));
      if CapturedFor(s.payments, booking, pick) && s.payments[pick].providerPaymentId.Some? {
        RefundOpeningCommutes(s, now, booking, pick, id, t, x);
      }
      hide Sweep, SweepTable, CancelledRow, FindBookingRefund, FindRefund, CapturedFor, OpenRefund, SetBooking;
      if SweepTable(s.bookings, t, x)[booking] != s.bookings[booking] {
        assert PrepareCancellation(s, now, user, booking, version, pick, id) == Effect(s, Conflict);
      }
    }
  }

  lemma RefundOpeningCommutes(s: Store, now: Time, booking: Id, pick: Id, id: Id, t: Time, x: set<Id>)
    requires booking in s.bookings && pick in s.payments && s.payments[pick].providerPaymentId.Some?
    ensures booking in Sweep(s, t, x).bookings
    ensures SweepTable(s.bookings, t, x)[booking] == s.bookings[booking] ==>
              OpenRefund(Sweep(s, t, x), now, booking, pick, id) == Sweep(OpenRefund(s, now, booking, pick, id), t, x)
  {
  }

  lemma StartIgnoresSweep(
    s: Store, now: Time, operator: Operator, booking: Id, version: int, meterStart: real, id: Id, t: Time, x: set<Id>)
    ensures StartSession(Sweep(s, t, x), now, operator, booking, version, meterStart, id)
         == SweptEffect(StartSession(s, now, operator, booking, version, meterStart, id), t, x)
  {
    SweepKeeps(s.bookings, t, x);
    if booking in s.bookings {
      WriteCommutes(s.bookings, t, x, booking, Moved(s.bookings[booking], Active));
    }
    hide SweepTable;
  }

  lemma CompleteIgnoresSweep(
    s: Store, now: Time, operator: Operator, session: Id, version: int, meterEnd: real, t: Time, x: set<Id>)
    ensures CompleteSession(Sweep(s, t, x), now, operator, session, version, meterEnd)
         == SweptEffect(CompleteSession(s, now, operator, session, version, meterEnd), t, x)
  {
    SweepKeeps(s.bookings, t, x);
    SweepFrame(s, t, x);
    if session in s.sessions && s.sessions[session].booking in s.bookings {
      var b := s.sessions[session].booking;
      var row := Moved(s.bookings[b], Completed);
      BookingFrame(s, t, x, b, row);
      SweepFrame(SetBooking(s, b, row), t, x);
    }
    hide Sweep, SweepTable, SetBooking, SetSession;
  }

  // Forgetting an answered refund call commutes with the sweep.
  lemma CallFrame(s: Store, r: Id, t: Time, x: set<Id>)
    ensures Sweep(s, t, x).(calls := s.calls - {r}) == Sweep(s.(calls := s.calls - {r}), t, x)
  {
  }

  lemma {:induction false} FinalizeRefundIgnoresSweep(
    s: Store, now: Time, r: Id, providerRefund: Id, answer: RefundAnswer, t: Time, x: set<Id>)
    ensures FinalizeRefund(Sweep(s, t, x), now, r, providerRefund, answer)
         == SweptEffect(FinalizeRefund(s, now, r, providerRefund, answer), t, x)
  {
    var rest := s.(calls := s.calls - {r});
    SweepFrame(s, t, x);
    SweepFrame(rest, t, x);
    CallFrame(s, r, t, x);
    if r in s.refunds {
      var z := s.refunds[r].(providerRefundId := Some(providerRefund));
      SweepFrame(SetRefund(rest, r, z.(status := Processed, processedAt := Some(now))), t, x);
    }
    hide Sweep, SweepTable, SetPayment, SetRefund;
  }

  lemma {:induction false} RecordFailureIgnoresSweep(s: Store, r: Id, code: ErrorCode, t: Time, x: set<Id>)
    ensures RecordRefundFailure(Sweep(s, t, x), r, code) == SweptEffect(RecordRefundFailure(s, r, code), t, x)
  {
    SweepFrame(s, t, x);
    SweepFrame(s.(calls := s.calls - {r}), t, x);
    CallFrame(s, r, t, x);
    hide Sweep, SweepTable, SetRefund;
  }

  lemma ReconcileIgnoresSweep(s: Store, now: Time, r: Id, answer: RefundAnswer, t: Time, x: set<Id>)
    ensures ApplyReconciled(Sweep(s, t, x), now, r, answer) == SweptEffect(ApplyReconciled(s, now, r, answer), t, x)
  {
  }

  lemma {:induction false} FinalizeIgnoresSweep(s: Store, p: Id, order: Id, t: Time, x: set<Id>)
    ensures FinalizeOrder(Sweep(s, t, x), p, order) == SweptEffect(FinalizeOrder(s, p, order), t, x)
  {
    var rest := s.(attempts := s.attempts - {p});
    hide Sweep, SweepTable, SetPayment;
    AttemptsFrame(s, t, x, s.attempts - {p});
    SweepFrame(s, t, x);
    SweepFrame(rest, t, x);
    if p in s.attempts {
      SweptStatus(s.bookings, t, x, s.attempts[p].booking);
    }
  }

  lemma AttemptsFrame(s: Store, t: Time, x: set<Id>, attempts: map<Id, Attempt>)
    ensures Sweep(s, t, x).(attempts := attempts) == Sweep(s.(attempts := attempts), t, x)
  {
  }

  // A sweep never makes a booking wait for a payment or stop waiting.
  lemma SweptStatus(bookings: map<Id, Booking>, t: Time, x: set<Id>, b: Id)
    ensures b in SweepTable(bookings, t, x) <==> b in bookings
    ensures b in bookings ==>
              (SweepTable(bookings, t, x)[b].status.PaymentPending? <==> bookings[b].status.PaymentPending?)
  {
  }

  lemma VerifyIgnoresSweep(s: Store, user: Id, order: Id, providerPayment: Id, signed: bool, t: Time, x: set<Id>)
    ensures VerifyCheckout(Sweep(s, t, x), user, order, providerPayment, signed)
         == SweptEffect(VerifyCheckout(s, user, order, providerPayment, signed), t, x)
  {
    SweepFrame(s, t, x);
    hide Sweep, SweepTable, SetPayment;
  }

  /******* Runs *******/

  // Requests at or after t. CommitHoldTx is left out: it says itself which holds were swept.
  predicate NotBefore(a: Action, t: Time) {
    match a
    case CreateHoldTx(request, _) => t <= request.now
    case CommitHoldTx(_, _, _) => false
    case ListTx(now, _) => t <= now
    case BeginTx(now, _, _, _, _, _) => t <= now
    case CompensateTx(now, _) => t <= now
    case WebhookTx(now, _) => t <= now
    case CancelTx(now, _, _, _, _, _) => t <= now
    case _ => true
  }

  // No request can tell whether the bookings x were swept at t: the reply is the same, and so is the
  // store up to that sweep.
  lemma {:induction false} StepIgnoresSweep(s: Store, a: Action, t: Time, x: set<Id>)
    requires NotBefore(a, t)
    ensures Apply(Sweep(s, t, x), a) == SweptEffect(Apply(s, a), t, x)
  {
    hide Sweep, CreateHold, ListBookings, BeginPayment, FinalizeOrder, CompensateFailure, VerifyCheckout;
    hide ProcessWebhook, PrepareCancellation, RecordRefundFailure, FinalizeRefund, ApplyReconciled;
    hide StartSession, CompleteSession;
    match a
    case CreateHoldTx(request, id) => CreateHoldIgnoresSweep(s, request, id, t, x);
    case ListTx(now, user) => ListIgnoresSweep(s, now, user, t, x);
    case SweepTx(now, ids) => StoreSweepsCommute(s, t, x, now, ids);
    case BeginTx(now, user, booking, version, key, id) =>
      BeginIgnoresSweep(s, now, user, booking, version, key, id, t, x);
    case FinalizeTx(payment, order) => FinalizeIgnoresSweep(s, payment, order, t, x);
    case CompensateTx(now, payment) => CompensateIgnoresSweep(s, now, payment, t, x);
    case VerifyTx(user, order, providerPayment, signed) =>
      VerifyIgnoresSweep(s, user, order, providerPayment, signed, t, x);
    case WebhookTx(now, delivery) => WebhookIgnoresSweep(s, now, delivery, t, x);
    case CancelTx(now, user, booking, version, pick, id) =>
      CancelIgnoresSweep(s, now, user, booking, version, pick, id, t, x);
    case RefundFailedTx(refund, code) => RecordFailureIgnoresSweep(s, refund, code, t, x);
    case RefundAnsweredTx(now, refund, providerRefund, answer) =>
      FinalizeRefundIgnoresSweep(s, now, refund, providerRefund, answer, t, x);
    case ReconcileTx(now, refund, answer) => ReconcileIgnoresSweep(s, now, refund, answer, t, x);
    case StartTx(now, operator, booking, version, meterStart, id) =>
      StartIgnoresSweep(s, now, operator, booking, version, meterStart, id, t, x);
    case CompleteTx(now, operator, session, version, meterEnd) =>
      CompleteIgnoresSweep(s, now, operator, session, version, meterEnd, t, x);
    case CatalogueTx(points) => CatalogueIgnoresSweep(s, points, t, x);
  }

  lemma CatalogueIgnoresSweep(s: Store, points: map<Id, ChargePoint>, t: Time, x: set<Id>)
    ensures Sweep(s, t, x).(points := points) == Sweep(s.(points := points), t, x)
  {
  }

  // Over a whole run: sweeping any holds at t before requests no earlier than t leads to the store
  // that sweeping them after the run gives.
  lemma {:induction false} LazyAndEagerExpiryAgree(s: Store, acts: seq<Action>, t: Time, x: set<Id>)
    requires forall a | a in acts :: NotBefore(a, t)
    ensures Run(Sweep(s, t, x), acts) == Sweep(Run(s, acts), t, x)
  {
    if acts != [] {
      hide NotBefore, Sweep, Apply;
      var before, last := acts[..|acts| - 1], acts[|acts| - 1];
      LazyAndEagerExpiryAgree(s, before, t, x);
      StepIgnoresSweep(Run(s, before), last, t, x);
    }
  }

  // And no request of the run gets another reply.
  lemma LazyAndEagerRepliesAgree(s: Store, acts: seq<Action>, t: Time, x: set<Id>, i: nat)
    requires forall a | a in acts :: NotBefore(a, t)
    requires i < |acts|
    ensures Apply(At(Sweep(s, t, x), acts, i), acts[i]).reply == Apply(At(s, acts, i), acts[i]).reply
  {
    hide NotBefore, Sweep, Apply, Run;
    forall a | a in acts[..i]
      ensures NotBefore(a, t)
    {
      assert a in acts;
    }
    LazyAndEagerExpiryAgree(s, acts[..i], t, x);
    StepIgnoresSweep(At(s, acts, i), acts[i], t, x);
  }

  // In particular the stores agree once everything stale at t is swept.
  lemma {:induction false} FullySweptStoresAgree(s: Store, acts: seq<Action>, t: Time, x: set<Id>)
    requires forall a | a in acts :: NotBefore(a, t)
    ensures Sweep(Run(Sweep(s, t, x), acts), t, Run(s, acts).bookings.Keys)
         == Sweep(Run(s, acts), t, Run(s, acts).bookings.Keys)
  {
    LazyAndEagerExpiryAgree(s, acts, t, x);
    SweepsMerge(Run(s, acts), t, x, Run(s, acts).bookings.Keys);
  }

  lemma TablesMerge(bookings: map<Id, Booking>, t: Time, x: set<Id>, y: set<Id>)
    requires bookings.Keys <= y
    ensures SweepTable(SweepTable(bookings, t, x), t, y) == SweepTable(bookings, t, y)
  {
    var a, b := SweepTable(SweepTable(bookings, t, x), t, y), SweepTable(bookings, t, y);
    assert forall k | k in bookings :: a[k] == b[k];
  }

  lemma SweepsMerge(s: Store, t: Time, x: set<Id>, y: set<Id>)
    requires s.bookings.Keys <= y
    ensures Sweep(Sweep(s, t, x), t, y) == Sweep(s, t, y)
  {
    TablesMerge(s.bookings, t, x, y);
    hide SweepTable;
  }

  /******* The maintenance job *******/

  function StaleIds(bookings: map<Id, Booking>, now: Time): set<Id> {
    set b | b in bookings && Stale(bookings[b], now)
  }

  // ORDER BY hold_expires_at, id.
  predicate ExpiresBefore(bookings: map<Id, Booking>, a: Id, b: Id)
    requires a in bookings && bookings[a].holdExpiresAt.Some?
    requires b in bookings && bookings[b].holdExpiresAt.Some?
  {
    var x, y := bookings[a].holdExpiresAt.value, bookings[b].holdExpiresAt.value;
    x < y || (x == y && a < b)
  }

  lemma NotBothBefore(bookings: map<Id, Booking>, a: Id, b: Id)
    requires a in bookings && bookings[a].holdExpiresAt.Some?
    requires b in bookings && bookings[b].holdExpiresAt.Some?
    ensures !(ExpiresBefore(bookings, a, b) && ExpiresBefore(bookings, b, a))
  {
  }

  // The rows the locked batch query returns: the first size stale holds, all of them if there are fewer.
  ghost predicate IsBatch(bookings: map<Id, Booking>, now: Time, size: nat, ids: set<Id>) {
    && ids <= StaleIds(bookings, now)
    && |ids| == (if size <= |StaleIds(bookings, now)| then size else |StaleIds(bookings, now)|)
    && forall a, b | a in ids && b in StaleIds(bookings, now) - ids :: ExpiresBefore(bookings, a, b)
  }

  // A nonempty set of stale holds has a first one.
  lemma FirstExists(bookings: map<Id, Booking>, now: Time, ids: set<Id>) returns (first: Id)
    requires ids != {} && ids <= StaleIds(bookings, now)
    ensures first in ids
    ensures forall b | b in ids && b != first :: ExpiresBefore(bookings, first, b)
  {
    var x := PickOutside(ids, {});
    if ids == {x} {
      first := x;
    } else {
      var y := FirstExists(bookings, now, ids - {x});
      first := if ExpiresBefore(bookings, x, y) then x else y;
      assert forall b | b in ids && b != first :: b == x || b == y || ExpiresBefore(bookings, y, b);
    }
  }

  lemma BatchExists(bookings: map<Id, Booking>, now: Time, size: nat) returns (ids: set<Id>)
    ensures IsBatch(bookings, now, size, ids)
  {
    var stale := StaleIds(bookings, now);
    ids := {};
    while |ids| < size && ids != stale
      invariant ids <= stale && |ids| <= size
      invariant forall a, b | a in ids && b in stale - ids :: ExpiresBefore(bookings, a, b)
      decreases stale - ids
    {
      assert stale - ids != {};
      var first := FirstExists(bookings, now, stale - ids);
      ids := ids + {first};
    }
    CardinalityBound(ids, stale);
  }

  // The batch is determined by the table.
  lemma BatchIsUnique(bookings: map<Id, Booking>, now: Time, size: nat, x: set<Id>, y: set<Id>)
    requires IsBatch(bookings, now, size, x) && IsBatch(bookings, now, size, y)
    ensures x == y
  {
    if !(x <= y) {
      var a := PickOutside(x, y);
      if y <= x {
        CardinalityBound(y, x);
      } else {
        var b := PickOutside(y, x);
        NotBothBefore(bookings, a, b);
      }
    } else {
      CardinalityBound(x, y);
    }
  }

  // The batch holds run-out holds only, and none that it leaves out ran out before one it takes.
  lemma BatchIsEarliestFirst(bookings: map<Id, Booking>, now: Time, size: nat, ids: set<Id>)
    requires IsBatch(bookings, now, size, ids)
    ensures |ids| <= size
    ensures forall a | a in ids ::
              && a in bookings && bookings[a].status == Held
              && bookings[a].holdExpiresAt.Some? && bookings[a].holdExpiresAt.value <= now
    ensures forall a, b |
              && a in ids && b in bookings && b !in ids && bookings[b].status == Held
              && bookings[b].holdExpiresAt.Some? && bookings[b].holdExpiresAt.value <= now ::
              || bookings[a].holdExpiresAt.value < bookings[b].holdExpiresAt.value
              || (bookings[a].holdExpiresAt == bookings[b].holdExpiresAt && a < b)
    ensures |ids| < size ==> forall b | b in bookings && Stale(bookings[b], now) :: b in ids
  {
    if |ids| < size {
      CardinalityBound(ids, StaleIds(bookings, now));
    }
    forall a, b | a in ids && b in bookings && b !in ids && Stale(bookings[b], now)
      ensures ExpiresBefore(bookings, a, b)
    {
      assert b in StaleIds(bookings, now) - ids;
    }
  }

  // One run of the job leaves exactly the holds it did not take.
  lemma BatchLeavesRest(bookings: map<Id, Booking>, now: Time, ids: set<Id>)
    ensures StaleIds(SweepTable(bookings, now, ids), now) == StaleIds(bookings, now) - ids
  {
    var swept := SweepTable(bookings, now, ids);
    assert forall b | b in bookings :: Stale(swept[b], now) <==> Stale(bookings[b], now) && b !in ids;
  }

  // Run the job until it reports that nothing was expired.
  ghost function Drain(s: Store, now: Time, size: nat): Store
    requires size > 0
    decreases |StaleIds(s.bookings, now)|
  {
    if StaleIds(s.bookings, now) == {} then s
    else
      var ids := NextBatch(s, now, size);
      BatchLeavesRest(s.bookings, now, ids);
      CardinalityBound(StaleIds(s.bookings, now) - ids, StaleIds(s.bookings, now));
      Drain(Sweep(s, now, ids), now, size)
  }

  ghost function NextBatch(s: Store, now: Time, size: nat): (ids: set<Id>)
    ensures IsBatch(s.bookings, now, size, ids)
  {
    assert exists ids :: IsBatch(s.bookings, now, size, ids) by {
      var ids := BatchExists(s.bookings, now, size);
    }
    var ids :| IsBatch(s.bookings, now, size, ids);
    ids
  }

  // Repeating the batched job to the end gives the store of one bulk update.
  lemma {:induction false} DrainIsBulkExpiry(s: Store, now: Time, size: nat)
    requires size > 0
    ensures Drain(s, now, size) == Sweep(s, now, s.bookings.Keys)
    decreases |StaleIds(s.bookings, now)|
  {
    if StaleIds(s.bookings, now) == {} {
      NothingStale(s, now);
    } else {
      var ids := NextBatch(s, now, size);
      BatchLeavesRest(s.bookings, now, ids);
      CardinalityBound(StaleIds(s.bookings, now) - ids, StaleIds(s.bookings, now));
      var t := Sweep(s, now, ids);
      DrainIsBulkExpiry(t, now, size);
      SweepsMerge(s, now, ids, s.bookings.Keys);
      assert t.bookings.Keys == s.bookings.Keys;
    }
  }

  lemma NothingStale(s: Store, now: Time)
    requires StaleIds(s.bookings, now) == {}
    ensures Sweep(s, now, s.bookings.Keys) == s
  {
    var swept := SweepTable(s.bookings, now, s.bookings.Keys);
    forall b | b in s.bookings
      ensures swept[b] == s.bookings[b]
    {
      assert b !in StaleIds(s.bookings, now);
    }
    assert swept == s.bookings;
  }
}
