/**
 The life of a hold: while its row stands it keeps everybody else out, and once it has expired
 unpaid it is as good as gone, whatever else happened in between.
 */
module HoldLife {
  import opened Wrappers
  import opened Ledger
  import opened LedgerInvariant
  import opened LedgerSteps
  import opened LedgerRuns
  import opened HoldExpiry
  import opened HoldLocking

  predicate Conflicts(r: HoldRequest, q: HoldRequest) {
    r.point == q.point && r.startsAt < q.endsAt && q.startsAt < r.endsAt
  }

  lemma HoldIsWritten(s: Store, r: HoldRequest, id: Id)
    requires CreateHold(s, r, id).reply.Done?
    ensures
      var t := CreateHold(s, r, id).store;
      && t.points == s.points && r.point in s.points && id !in s.bookings
      && t.bookings == SweepTable(s.bookings, r.now, BookingsAtPoint(s.bookings, r.point))
                       [id := NewHold(r, s.points[r.point].fee)]
  {
  }

  // The hold's row after any run keeps its reservation and its expiry.
  lemma {:induction false} HoldAfterRun(s: Store, r: HoldRequest, id: Id, acts: seq<Action>)
    requires Inv(s) && CreateHold(s, r, id).reply.Done?
    ensures Inv(Run(CreateHold(s, r, id).store, acts))
    ensures
      var t := Run(CreateHold(s, r, id).store, acts);
      && id in t.bookings
      && t.bookings[id].point == r.point
      && t.bookings[id].startsAt == r.startsAt && t.bookings[id].endsAt == r.endsAt
      && t.bookings[id].holdExpiresAt == Some(r.now + HOLD_SECONDS)
  {
    var u := CreateHold(s, r, id).store;
    HoldIsWritten(s, r, id);
    StepIsGood(s, CreateHoldTx(r, id));
    hide CreateHold, Run, SweepTable, Inv, Evolves;
    RunKeepsInv(u, acts);
    RunIsLater(u, acts, 0, |acts|);
    AtEnds(u, acts);
  }

  // As long as the hold's row blocks, after any run, whatever became of it, a request for an overlapping
  // slot is turned down and changes nothing.
  lemma {:induction false} HoldBlocks(
    s: Store, r: HoldRequest, id: Id, acts: seq<Action>, q: HoldRequest, other: Id)
    requires Inv(s) && CreateHold(s, r, id).reply.Done?
    requires Conflicts(r, q) && q.now < q.startsAt
    requires
      var t := Run(CreateHold(s, r, id).store, acts);
      id in t.bookings && Blocking(t.bookings[id].status) && !Stale(t.bookings[id], q.now)
    ensures
      var t := Run(CreateHold(s, r, id).store, acts);
      CreateHold(t, q, other) == Effect(t, Unavailable)
  {
    HoldAfterRun(s, r, id, acts);
    hide Run, Inv;
    RowBlocks(Run(CreateHold(s, r, id).store, acts), id, q, other);
  }

  lemma RowBlocks(t: Store, id: Id, q: HoldRequest, other: Id)
    requires id in t.bookings && Overlaps(t.bookings[id], q.point, q.startsAt, q.endsAt)
    requires !Stale(t.bookings[id], q.now) && q.now < q.startsAt
    ensures CreateHold(t, q, other) == Effect(t, Unavailable)
  {
    assert Overlaps(
        SweepTable(t.bookings, q.now, BookingsAtPoint(t.bookings, q.point))[id], q.point, q.startsAt, q.endsAt);
  }

  /******* A hold nobody pays or cancels only expires *******/

  // What is held stays as it is or expires.
  predicate OnlyExpires(x: map<Id, Booking>, y: map<Id, Booking>, b: Id) {
    b in x && x[b].status.Held? ==> b in y && (y[b] == x[b] || y[b] == Moved(x[b], Expired))
  }

  predicate Names(a: Action, b: Id) {
    (a.BeginTx? && a.booking == b) || (a.CancelTx? && a.booking == b)
  }

  lemma SweepOnlyExpires(bookings: map<Id, Booking>, now: Time, ids: set<Id>, b: Id)
    ensures OnlyExpires(bookings, SweepTable(bookings, now, ids), b)
  {
  }

  lemma HoldOnlyExpires(s: Store, r: HoldRequest, swept: set<Id>, id: Id, b: Id)
    ensures OnlyExpires(s.bookings, CommitHold(s, r, swept, id).store.bookings, b)
  {
    SweepOnlyExpires(s.bookings, r.now, swept, b);
    hide SweepTable, SlotFree, NewHold;
  }

  lemma BeginOnlyExpires(
    s: Store, now: Time, user: Id, booking: Id, version: int, key: Id, id: Id, b: Id)
    requires booking != b
    ensures OnlyExpires(s.bookings, BeginPayment(s, now, user, booking, version, key, id).store.bookings, b)
  {
  }

  lemma CompensationOnlyExpires(s: Store, now: Time, p: Id, b: Id)
    ensures OnlyExpires(s.bookings, CompensateFailure(s, now, p).store.bookings, b)
  {
  }

  lemma CaptureOnlyExpires(s: Store, p: Id, y: Payment, b: Id)
    ensures OnlyExpires(s.bookings, ApplyCaptured(s, p, y).store.bookings, b)
  {
  }

  lemma FailureOnlyExpires(s: Store, now: Time, p: Id, y: Payment, b: Id)
    ensures OnlyExpires(s.bookings, ApplyFailed(s, now, p, y).store.bookings, b)
  {
  }

  lemma AcceptanceOnlyExpires(s: Store, now: Time, kind: PaymentEventKind, p: Id, y: Payment, b: Id)
    ensures OnlyExpires(s.bookings, AcceptPaymentEvent(s, now, kind, p, y).store.bookings, b)
  {
    CaptureOnlyExpires(s, p, y, b);
    FailureOnlyExpires(s, now, p, y, b);
    hide ApplyCaptured, ApplyFailed;
  }

  lemma PaymentEventOnlyExpires(s: Store, now: Time, e: Body, p: Id, b: Id)
    requires e.PaymentEvent? && p in s.payments
    ensures OnlyExpires(s.bookings, PaymentEventOn(s, now, e, p).store.bookings, b)
  {
    AcceptanceOnlyExpires(s, now, e.kind, p, s.payments[p].(providerPaymentId := Some(e.payment)), b);
    hide AcceptPaymentEvent, Moved;
  }

  lemma EventOnlyExpires(s: Store, now: Time, e: Body, b: Id)
    ensures OnlyExpires(s.bookings, ApplyEvent(s, now, e).store.bookings, b)
  {
    hide PaymentEventOn, RefundEventOn;
    if e.PaymentEvent? && PaymentWithOrder(s.payments, e.order).Some? {
      PaymentEventOnlyExpires(s, now, e, PaymentWithOrder(s.payments, e.order).value, b);
    } else if e.RefundEvent? {
      var p := PaymentWithProviderId(s.payments, e.payment);
      if p.Some? && FindRefund(s.refunds, p.value).Some? {
        RefundEventInsertsNone(s, now, e, FindRefund(s.refunds, p.value).value);
      }
    }
  }

  lemma WebhookOnlyExpires(s: Store, now: Time, d: Delivery, b: Id)
    ensures OnlyExpires(s.bookings, ProcessWebhook(s, now, d).store.bookings, b)
  {
    EventOnlyExpires(s, now, d.body, b);
    var u := ApplyEvent(s, now, d.body).store;
    RecordingKeepsBookings(s, u, d, ProcessedEvent);
    RecordingKeepsBookings(s, u, d, IgnoredEvent);
    hide ApplyEvent, RecordEvent;
  }

  lemma CancelOnlyExpires(s: Store, now: Time, user: Id, booking: Id, version: int, pick: Id, id: Id, b: Id)
    requires booking != b
    ensures OnlyExpires(s.bookings, PrepareCancellation(s, now, user, booking, version, pick, id).store.bookings, b)
  {
  }

  lemma StartOnlyExpires(
    s: Store, now: Time, operator: Operator, booking: Id, version: int, meterStart: real, id: Id, b: Id)
    ensures OnlyExpires(
              s.bookings, StartSession(s, now, operator, booking, version, meterStart, id).store.bookings, b)
  {
  }

  lemma CompletionOnlyExpires(
    s: Store, now: Time, operator: Operator, session: Id, version: int, meterEnd: real, b: Id)
    ensures OnlyExpires(s.bookings, CompleteSession(s, now, operator, session, version, meterEnd).store.bookings, b)
  {
  }

  lemma {:induction false} StepOnlyExpires(s: Store, a: Action, b: Id)
    requires !Names(a, b)
    ensures OnlyExpires(s.bookings, Next(s, a).bookings, b)
  {
    hide OnlyExpires, CommitHold, BeginPayment, FinalizeOrder, CompensateFailure, VerifyCheckout, ProcessWebhook;
    hide PrepareCancellation, RecordRefundFailure, FinalizeRefund, ApplyReconciled, StartSession, CompleteSession;
    UnchangedOnlyExpires(s.bookings, b);
    match a
    case CreateHoldTx(r, id) => HoldOnlyExpires(s, r, BookingsAtPoint(s.bookings, r.point), id, b);
    case CommitHoldTx(r, swept, id) => HoldOnlyExpires(s, r, swept, id, b);
    case ListTx(now, user) => SweepOnlyExpires(s.bookings, now, BookingsOfUser(s.bookings, user), b);
    case SweepTx(now, ids) => SweepOnlyExpires(s.bookings, now, ids, b);
    case BeginTx(now, user, booking, version, key, id) =>
      BeginOnlyExpires(s, now, user, booking, version, key, id, b);
    case FinalizeTx(p, order) => OrderInsertsNone(s, p, order);
    case CompensateTx(now, p) => CompensationOnlyExpires(s, now, p, b);
    case VerifyTx(user, order, providerPayment, signed) => VerifyInsertsNone(s, user, order, providerPayment, signed);
    case WebhookTx(now, d) => WebhookOnlyExpires(s, now, d, b);
    case CancelTx(now, user, booking, version, pick, id) =>
      CancelOnlyExpires(s, now, user, booking, version, pick, id, b);
    case RefundFailedTx(r, code) => RefundFailureInsertsNone(s, r, code);
    case RefundAnsweredTx(now, r, providerRefund, answer) =>
      RefundAnswerInsertsNone(s, now, r, providerRefund, answer);
    case ReconcileTx(now, r, answer) => ReconcileInsertsNone(s, now, r, answer);
    case StartTx(now, operator, booking, version, meterStart, id) =>
      StartOnlyExpires(s, now, operator, booking, version, meterStart, id, b);
    case CompleteTx(now, operator, session, version, meterEnd) =>
      CompletionOnlyExpires(s, now, operator, session, version, meterEnd, b);
    case CatalogueTx(points) =>
  }

  lemma UnchangedOnlyExpires(bookings: map<Id, Booking>, b: Id)
    ensures OnlyExpires(bookings, bookings, b)
  {
  }

  predicate HeldOrExpired(s: Store, b: Id) {
    b in s.bookings && (s.bookings[b].status.Held? || s.bookings[b].status.Expired?)
  }

  // In any run that neither pays for nor cancels a held booking, it is held or expired.
  lemma {:induction false} UnnamedOnlyExpires(s: Store, acts: seq<Action>, b: Id)
    requires Inv(s) && HeldOrExpired(s, b)
    requires forall a | a in acts :: !Names(a, b)
    ensures HeldOrExpired(Run(s, acts), b)
  {
    if acts != [] {
      var before, last := acts[..|acts| - 1], acts[|acts| - 1];
      UnnamedOnlyExpires(s, before, b);
      RunKeepsInv(s, before);
      var u := Run(s, before);
      StepIsGood(u, last);
      StepOnlyExpires(u, last, b);
      hide Run, Inv, Next;
      assert BookingStep(u.bookings[b], Next(u, last).bookings[b]);
    }
  }

  /******* An expired hold is as good as gone *******/

  function Without(s: Store, b: Id): Store {
    s.(bookings := s.bookings - {b})
  }

  // A row that does not block, or is stale, makes no difference to a request.
  lemma IdleRowIsIgnored(t: Store, b: Id, q: HoldRequest, other: Id)
    requires b in t.bookings && other != b
    requires !Blocking(t.bookings[b].status) || Stale(t.bookings[b], q.now)
    ensures CreateHold(t, q, other).reply == CreateHold(Without(t, b), q, other).reply
  {
    SlotIgnoresIdleRow(t.bookings, b, q);
    hide SlotFree, SweepTable, BookingsAtPoint, NewHold, Stale;
  }

  lemma SlotIgnoresIdleRow(x: map<Id, Booking>, b: Id, q: HoldRequest)
    requires b in x && (!Blocking(x[b].status) || Stale(x[b], q.now))
    ensures SlotFree(SweepTable(x, q.now, BookingsAtPoint(x, q.point)), q.point, q.startsAt, q.endsAt)
         == SlotFree(SweepTable(x - {b}, q.now, BookingsAtPoint(x - {b}, q.point)), q.point, q.startsAt, q.endsAt)
  {
    var u := SweepTable(x, q.now, BookingsAtPoint(x, q.point));
    var v := SweepTable(x - {b}, q.now, BookingsAtPoint(x - {b}, q.point));
    assert forall k | k in u && Overlaps(u[k], q.point, q.startsAt, q.endsAt) :: k in v && v[k] == u[k];
    assert forall k | k in v && Overlaps(v[k], q.point, q.startsAt, q.endsAt) :: k in u && v[k] == u[k];
  }

  // After any run that neither pays for it nor cancels it, a request made at or after the hold's expiry is
  // answered as if the hold did not exist.
  lemma {:induction false} ExpiredHoldIsForgotten(
    s: Store, r: HoldRequest, id: Id, acts: seq<Action>, q: HoldRequest, other: Id)
    requires Inv(s) && CreateHold(s, r, id).reply.Done?
    requires forall a | a in acts :: !Names(a, id)
    requires q.now >= r.now + HOLD_SECONDS && other != id
    ensures
      var t := Run(CreateHold(s, r, id).store, acts);
      CreateHold(t, q, other).reply == CreateHold(Without(t, id), q, other).reply
    // With nothing in between: as if it had never been made.
    ensures CreateHold(CreateHold(s, r, id).store, q, other).reply == CreateHold(s, q, other).reply
  {
    var u := CreateHold(s, r, id).store;
    HoldIsWritten(s, r, id);
    HoldAfterRun(s, r, id, acts);
    HoldAfterRun(s, r, id, []);
    assert HeldOrExpired(u, id);
    UnnamedOnlyExpires(u, acts, id);
    IdleRowIsIgnored(Run(u, acts), id, q, other);
    IdleRowIsIgnored(u, id, q, other);
    UndoneHold(s, r, id, q, other);
    hide *;
  }

  lemma UndoneHold(s: Store, r: HoldRequest, id: Id, q: HoldRequest, other: Id)
    requires CreateHold(s, r, id).reply.Done? && r.now <= q.now
    ensures CreateHold(Without(CreateHold(s, r, id).store, id), q, other).reply == CreateHold(s, q, other).reply
  {
    HoldIsWritten(s, r, id);
    var here := BookingsAtPoint(s.bookings, r.point);
    var swept := SweepTable(s.bookings, r.now, here);
    assert swept[id := NewHold(r, s.points[r.point].fee)] - {id} == swept;
    SameAnswer(Without(CreateHold(s, r, id).store, id), Sweep(s, r.now, here), q, other);
    CreateHoldIgnoresSweep(s, q, other, r.now, here);
    hide CreateHold;
  }

  lemma SameAnswer(s: Store, t: Store, q: HoldRequest, other: Id)
    requires s.points == t.points && s.bookings == t.bookings
    ensures CreateHold(s, q, other).reply == CreateHold(t, q, other).reply
  {
  }
}
