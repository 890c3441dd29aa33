/**
 Payment events that arrive late or again: exactly when a failure event releases a booking,
 and exactly when a captured payment can still be paid back.
 */
module LateEvents {
  import opened Wrappers
  import opened Ledger
  import opened LedgerInvariant
  import opened LedgerSteps
  import opened LedgerRuns
  import opened LedgerFacts
  import opened RefundConvergence
  import opened HoldLife
  import opened Journeys
  import opened Money
  import opened Answers
  import opened Sets

  /******* Failure events *******/

  // Of all failure events that name the order of payment p, those release its booking that are genuine
  // while the booking waits for some payment and p holds no money. It need not be p the booking waits for.
  lemma FailureReleasesWhateverPends(s: Store, now: Time, d: Delivery, p: Id)
    requires Inv(s) && d.body.PaymentEvent? && d.body.kind.PaymentFailed? && HasOrder(s.payments, d.body.order, p)
    ensures s.payments[p].booking in s.bookings
    ensures
      var y, b := s.payments[p], s.bookings[s.payments[p].booking];
      var e := ProcessWebhook(s, now, d);
      && (e.store.bookings != s.bookings <==>
            GenuinePayment(s, d, p) && b.status.PaymentPending? && !y.status.Captured? && !y.status.Refunded?)
      && (e.store.bookings != s.bookings ==>
            e.store.bookings == s.bookings[y.booking := b.(
              status := if After(b.holdExpiresAt, now) then Held else Expired, version := b.version + 1)])
      && p in e.store.payments
      && e.store.payments[p].status ==
           (if GenuinePayment(s, d, p) && !y.status.Captured? && !y.status.Refunded? then Failed else y.status)
      && (forall q | q in s.payments && q != p :: q in e.store.payments && e.store.payments[q] == s.payments[q])
  {
    PaymentFacts(s, p);
    hide Inv, ProcessWebhook, PaymentRow, PaymentMatches, GenuinePayment;
    if GenuinePayment(s, d, p) {
      FailureIsExact(s, now, d, p);
      var booking := s.payments[p].booking;
      var b := s.bookings[booking];
      WritingChanges(s.bookings, booking, b.(
        status := if After(b.holdExpiresAt, now) then Held else Expired, version := b.version + 1));
    } else {
      DoubtfulEventMovesNothing(s, now, d, p);
    }
  }

  lemma WritingChanges(bookings: map<Id, Booking>, b: Id, row: Booking)
    requires b in bookings && bookings[b] != row
    ensures bookings[b := row] != bookings
  {
    assert bookings[b := row][b] != bookings[b];
  }

  lemma DoubtfulEventMovesNothing(s: Store, now: Time, d: Delivery, p: Id)
    requires Inv(s) && d.body.PaymentEvent? && HasOrder(s.payments, d.body.order, p) && !GenuinePayment(s, d, p)
    ensures
      var t := ProcessWebhook(s, now, d).store;
      && t.bookings == s.bookings && t.payments.Keys == s.payments.Keys
      && t.payments[p].status == s.payments[p].status
      && (forall q | q in s.payments && q != p :: t.payments[q] == s.payments[q])
  {
    hide Inv, ProcessWebhook;
    DeliveriesAreAnsweredExactly(s, now, d);
    if Fresh(s, d) {
      DoubtfulPaymentEventIsExact(s, now, d, p);
    }
  }

  // A store with one charge point and one booking, which is at the given status and version.
  function OneBooking(
    status: BookingStatus, version: int, payments: map<Id, Payment>, events: map<Id, EventRecord>,
    attempts: map<Id, Attempt>): Store
  {
    Store(
      map[1 := ChargePoint(9, true, true, true, 50.0)],
      map[3 := Booking(2, 1, 5000, 8600, Some(HOLD_SECONDS), status, Some(50.0), Inr, version, None)],
      payments, map[], map[], events, attempts, map[])
  }

  function Attempted(key: Id, status: PaymentStatus, order: Option<Id>, providerPayment: Option<Id>): Payment {
    Payment(3, 2, status, 50.0, 5000, Inr, key, order, providerPayment, None)
  }

  function Failure(event: Id, order: Id, providerPayment: Id): Delivery {
    Delivery(event, event, true, PaymentEvent(PaymentFailed, order, providerPayment, Some(5000), Some(Inr)))
  }

  lemma HoldIsMade()
    ensures
      var s := Next(EMPTY, CatalogueTx(map[1 := ChargePoint(9, true, true, true, 50.0)]));
      Next(s, CreateHoldTx(HoldRequest(0, 2, 1, 5000, 8600), 3)) == OneBooking(Held, 1, map[], map[], map[])
  {
    var s := Next(EMPTY, CatalogueTx(map[1 := ChargePoint(9, true, true, true, 50.0)]));
    assert SweepTable(s.bookings, 0, BookingsAtPoint(s.bookings, 1)) == map[];
  }

  lemma AttemptIsBegun(
    version: int, payments: map<Id, Payment>, events: map<Id, EventRecord>, now: Time, key: Id, id: Id)
    requires now < HOLD_SECONDS && id !in payments && forall p | p in payments :: payments[p].key != key
    ensures
      Next(OneBooking(Held, version, payments, events, map[]), BeginTx(now, 2, 3, version, key, id))
      == OneBooking(
        PaymentPending, version + 1, payments[id := Attempted(key, Initiated, None, None)], events,
        map[id := Attempt(3, 5000, Inr)])
  {
    var s := OneBooking(Held, version, payments, events, map[]);
    assert PaymentWithKey(s.payments, key).None?;
    assert 50.0 * CURRENCY_SUBUNITS == 5000.0;
    assert ToSubunits(50.0) == Some(5000);
  }

  lemma AttemptIsOrdered(
    version: int, payments: map<Id, Payment>, events: map<Id, EventRecord>, key: Id, id: Id, order: Id)
    requires forall p | p in payments && p != id :: payments[p].orderId != Some(order)
    requires id in payments && payments[id] == Attempted(key, Initiated, None, None)
    ensures
      Next(
        OneBooking(PaymentPending, version, payments, events, map[id := Attempt(3, 5000, Inr)]), FinalizeTx(id, order))
      == OneBooking(
        PaymentPending, version, payments[id := Attempted(key, OrderCreated, Some(order), None)], events, map[])
  {
    assert map[id := Attempt(3, 5000, Inr)] - {id} == map[];
  }

  lemma FailureArrives(
    version: int, payments: map<Id, Payment>, events: map<Id, EventRecord>, now: Time, p: Id, order: Id, event: Id)
    requires Inv(OneBooking(PaymentPending, version, payments, events, map[]))
    requires now < HOLD_SECONDS && event !in events
    requires HasOrder(payments, order, p) && payments[p].booking == 3
    requires payments[p].subunits == 5000 && payments[p].currency == Inr
    requires !payments[p].status.Captured? && !payments[p].status.Refunded?
    requires KeepsId(payments[p].providerPaymentId, Some(41)) && !ProviderPaymentTaken(payments, 41, p)
    ensures
      Next(OneBooking(PaymentPending, version, payments, events, map[]), WebhookTx(now, Failure(event, order, 41)))
      == OneBooking(
        Held, version + 1, payments[p := payments[p].(status := Failed, providerPaymentId := Some(41))],
        events[event := EventRecord(event, ProcessedEvent)], map[])
  {
    var s := OneBooking(PaymentPending, version, payments, events, map[]);
    var d := Failure(event, order, 41);
    OrderIsUnique(s, order);
    hide Inv;
    assert ApplyEvent(s, now, d.body) == PaymentEventOn(s, now, d.body, p)
        == ApplyFailed(s, now, p, s.payments[p].(providerPaymentId := Some(41)));
  }

  lemma RunOneMore(acts: seq<Action>, a: Action)
    ensures Run(EMPTY, acts + [a]) == Next(Run(EMPTY, acts), a)
  {
    hide Next;
    assert (acts + [a])[..|acts|] == acts;
  }

  const FIRST := map[4 := Attempted(11, Failed, Some(21), Some(41))]
  const SECOND := FIRST[5 := Attempted(12, OrderCreated, Some(22), None)]
  const RECORDED := map[31 := EventRecord(31, ProcessedEvent)]

  const CATALOGUE := CatalogueTx(map[1 := ChargePoint(9, true, true, true, 50.0)])
  const HOLD := CreateHoldTx(HoldRequest(0, 2, 1, 5000, 8600), 3)
  const BEGIN := BeginTx(1, 2, 3, 1, 11, 4)
  const ORDER := FinalizeTx(4, 21)
  const FAIL := WebhookTx(10, Failure(31, 21, 41))
  const FIRST_RUN: seq<Action> := [] + [CATALOGUE] + [HOLD] + [BEGIN] + [ORDER] + [FAIL]

  lemma FirstRunIsInOrder()
    ensures OrderedUntil(FIRST_RUN, 0, 10)
  {
    OrderedOneMore([], CATALOGUE, 0, 0, 0);
    OrderedOneMore([] + [CATALOGUE], HOLD, 0, 0, 0);
    OrderedOneMore([] + [CATALOGUE] + [HOLD], BEGIN, 0, 0, 1);
    OrderedOneMore([] + [CATALOGUE] + [HOLD] + [BEGIN], ORDER, 0, 1, 1);
    OrderedOneMore([] + [CATALOGUE] + [HOLD] + [BEGIN] + [ORDER], FAIL, 0, 1, 10);
  }

  lemma FirstAttemptFails()
    ensures Run(EMPTY, FIRST_RUN) == OneBooking(Held, 3, FIRST, RECORDED, map[])
  {
    var ordered: map<Id, Payment> := map[4 := Attempted(11, OrderCreated, Some(21), None)];
    var begun: map<Id, Payment> := map[4 := Attempted(11, Initiated, None, None)];
    HoldIsMade();
    hide Next, Run, Inv;
    assert Run(EMPTY, []) == EMPTY by { AtEnds(EMPTY, []); }
    RunOneMore([], CATALOGUE);
    RunOneMore([] + [CATALOGUE], HOLD);
    RunOneMore([] + [CATALOGUE] + [HOLD], BEGIN);
    AttemptIsBegun(1, map[], map[], 1, 11, 4);
    RunOneMore([] + [CATALOGUE] + [HOLD] + [BEGIN], ORDER);
    AttemptIsOrdered(2, begun, map[], 11, 4, 21);
    assert begun[4 := ordered[4]] == ordered;
    ReachableInv([] + [CATALOGUE] + [HOLD] + [BEGIN] + [ORDER]);
    FailureArrives(2, ordered, map[], 10, 4, 21, 31);
    RunOneMore([] + [CATALOGUE] + [HOLD] + [BEGIN] + [ORDER], FAIL);
  }

  const BEGIN_AGAIN := BeginTx(20, 2, 3, 3, 12, 5)
  const ORDER_AGAIN := FinalizeTx(5, 22)
  const SECOND_RUN: seq<Action> := FIRST_RUN + [BEGIN_AGAIN] + [ORDER_AGAIN]

  lemma SecondRunIsInOrder()
    ensures OrderedUntil(SECOND_RUN, 0, 20)
  {
    FirstRunIsInOrder();
    OrderedOneMore(FIRST_RUN, BEGIN_AGAIN, 0, 10, 20);
    OrderedOneMore(FIRST_RUN + [BEGIN_AGAIN], ORDER_AGAIN, 0, 20, 20);
  }

  lemma SecondAttemptIsOpen()
    ensures Run(EMPTY, SECOND_RUN) == OneBooking(PaymentPending, 4, SECOND, RECORDED, map[])
    ensures OrderedUntil(SECOND_RUN, 0, 20)
  {
    hide Next, Run, Inv;
    SecondRunIsInOrder();
    hide OrderedUntil;
    FirstAttemptFails();
    var begun := FIRST[5 := Attempted(12, Initiated, None, None)];
    RunOneMore(FIRST_RUN, BEGIN_AGAIN);
    AttemptIsBegun(3, FIRST, RECORDED, 20, 12, 5);
    RunOneMore(FIRST_RUN + [BEGIN_AGAIN], ORDER_AGAIN);
    AttemptIsOrdered(4, begun, RECORDED, 12, 5, 22);
    assert begun[5 := SECOND[5]] == SECOND;
  }

  // It happens: after a run in which the first attempt failed and the customer started a second one, an
  // event about the first releases the booking while the second attempt's order is open.
  lemma DeadAttemptReleasesNewerOne() returns (acts: seq<Action>, again: Action)
    ensures OrderedUntil(acts, 0, 20) && AtOrAfter(again, 20)
    ensures
      var s := Run(EMPTY, acts);
      && 3 in s.bookings && s.bookings[3].status.PaymentPending?
      && 4 in s.payments && s.payments[4].booking == 3 && s.payments[4].status.Failed?
      && 5 in s.payments && s.payments[5].booking == 3 && s.payments[5].status.OrderCreated?
      && again.WebhookTx? && again.delivery.body.PaymentEvent?
      && HasOrder(s.payments, again.delivery.body.order, 4)
    ensures
      var t := Next(Run(EMPTY, acts), again);
      && 3 in t.bookings && t.bookings[3].status.Held?
      && 5 in t.payments && t.payments[5].status.OrderCreated?
  {
    SecondAttemptIsOpen();
    acts := SECOND_RUN;
    again := WebhookTx(30, Failure(32, 21, 41));
    ReachableInv(acts);
    hide Next, Run, Inv;
    FailureArrives(4, SECOND, RECORDED, 30, 4, 21, 32);
  }

  /******* Can the money still be paid back? *******/

  // Only cancelling a confirmed booking opens a refund, and it opens one for that booking's payment.
  ghost predicate OpensOnlyByCancelling(s: Store, a: Action) {
    forall r | r in Next(s, a).refunds && r !in s.refunds ::
      && a.CancelTx? && CapturedFor(s.payments, a.booking, a.pick)
      && a.booking in s.bookings && s.bookings[a.booking].status.Confirmed?
      && Next(s, a).refunds[r].payment == a.pick
  }

  lemma SettersFrame(s: Store, p: Id, y: Payment, r: Id, z: Refund)
    ensures SetPayment(s, p, y).refunds == s.refunds
    ensures SetRefund(s, r, z).refunds == s.refunds[r := z]
  {
  }

  lemma AcceptedRefundOpensNone(s: Store, now: Time, kind: RefundEventKind, r: Id, z: Refund)
    requires r in s.refunds
    ensures AcceptRefundEvent(s, now, kind, r, z).store.refunds.Keys == s.refunds.Keys
  {
    forall t, p, y, q, row
      ensures SetPayment(t, p, y).refunds == t.refunds && SetRefund(t, q, row).refunds == t.refunds[q := row]
    {
      SettersFrame(t, p, y, q, row);
    }
    hide SetPayment, SetRefund;
  }

  lemma RefundEventOpensNone(s: Store, now: Time, e: Body, r: Id)
    requires e.RefundEvent? && r in s.refunds
    ensures RefundEventOn(s, now, e, r).store.refunds.Keys == s.refunds.Keys
  {
    hide AcceptRefundEvent;
    AcceptedRefundOpensNone(s, now, e.refundKind, r, s.refunds[r].(providerRefundId := Some(e.refund)));
  }

  lemma EventOpensNone(s: Store, now: Time, e: Body)
    ensures ApplyEvent(s, now, e).store.refunds.Keys == s.refunds.Keys
  {
    hide RefundEventOn, ApplyPaymentEvent;
    if e.PaymentEvent? {
      PaymentEventKeepsRefunds(s, now, e);
    } else if e.RefundEvent? {
      forall r | r in s.refunds
        ensures RefundEventOn(s, now, e, r).store.refunds.Keys == s.refunds.Keys
      {
        RefundEventOpensNone(s, now, e, r);
      }
    }
  }

  lemma WebhookOpensNone(s: Store, now: Time, d: Delivery)
    ensures ProcessWebhook(s, now, d).store.refunds.Keys == s.refunds.Keys
  {
    EventOpensNone(s, now, d.body);
    var u := ApplyEvent(s, now, d.body).store;
    RecordingOpensNone(s, u, d, ProcessedEvent);
    RecordingOpensNone(s, u, d, IgnoredEvent);
    hide ApplyEvent, RecordEvent;
  }

  lemma RecordingOpensNone(s: Store, u: Store, d: Delivery, status: EventStatus)
    ensures RecordEvent(s, u, d, status).refunds == u.refunds
  {
  }

  lemma AnswerOpensNone(s: Store, now: Time, r: Id, providerRefund: Id, answer: RefundAnswer)
    ensures FinalizeRefund(s, now, r, providerRefund, answer).store.refunds.Keys == s.refunds.Keys
  {
    forall t, p, y, q, row
      ensures SetPayment(t, p, y).refunds == t.refunds && SetRefund(t, q, row).refunds == t.refunds[q := row]
    {
      SettersFrame(t, p, y, q, row);
    }
    hide SetPayment, SetRefund;
  }

  lemma FailureRecordOpensNone(s: Store, r: Id, code: ErrorCode)
    ensures RecordRefundFailure(s, r, code).store.refunds.Keys == s.refunds.Keys
  {
    forall t, p, y, q, row
      ensures SetPayment(t, p, y).refunds == t.refunds && SetRefund(t, q, row).refunds == t.refunds[q := row]
    {
      SettersFrame(t, p, y, q, row);
    }
    hide SetPayment, SetRefund;
  }

  lemma ReconciliationOpensNone(s: Store, now: Time, r: Id, answer: RefundAnswer)
    ensures ApplyReconciled(s, now, r, answer).store.refunds.Keys == s.refunds.Keys
  {
    forall t, p, y, z
      ensures SetPayment(t, p, y).refunds == t.refunds && SetRefund(t, r, z).refunds == t.refunds[r := z]
    {
      SettersFrame(t, p, y, r, z);
    }
    hide SetPayment, SetRefund;
  }

  lemma CancellationOpensOne(s: Store, a: Action)
    requires a.CancelTx?
    ensures OpensOnlyByCancelling(s, a)
  {
  }

  lemma {:induction false} OpeningNeedsConfirmed(s: Store, a: Action)
    ensures OpensOnlyByCancelling(s, a)
  {
    match a
    case CancelTx(_, _, _, _, _, _) => CancellationOpensOne(s, a);
    case WebhookTx(now, d) => WebhookOpensNone(s, now, d); hide ProcessWebhook;
    case RefundAnsweredTx(now, r, id, answer) => AnswerOpensNone(s, now, r, id, answer); hide FinalizeRefund;
    case RefundFailedTx(r, code) => FailureRecordOpensNone(s, r, code); hide RecordRefundFailure;
    case ReconcileTx(now, r, answer) => ReconciliationOpensNone(s, now, r, answer); hide ApplyReconciled;
    case _ =>
      OthersKeepRefunds(s, a);
      hide Next;
  }

  predicate Closed(status: BookingStatus) {
    status.Active? || status.Completed? || status.Cancelled? || status.Expired?
  }

  // Payment p holds money nobody has asked back.
  ghost predicate Unasked(s: Store, p: Id) {
    && p in s.payments && s.payments[p].status.Captured?
    && (forall r :: !RefundOf(s.refunds, p, r))
    && s.payments[p].booking in s.bookings
  }

  // ... for a booking that is over or in use.
  ghost predicate Stranded(s: Store, p: Id) {
    Unasked(s, p) && Closed(s.bookings[s.payments[p].booking].status)
  }

  // ... or for a hold that has run out at t.
  ghost predicate LeftBehind(s: Store, p: Id, t: Time) {
    && Unasked(s, p)
    && (Closed(s.bookings[s.payments[p].booking].status) || Stale(s.bookings[s.payments[p].booking], t))
  }

  lemma {:induction false} StepKeepsUnasked(s: Store, a: Action, p: Id)
    requires Inv(s) && Unasked(s, p) && !s.bookings[s.payments[p].booking].status.Confirmed?
    ensures Unasked(Next(s, a), p)
    ensures Next(s, a).payments[p].booking == s.payments[p].booking
    ensures BookingStep(
              s.bookings[s.payments[p].booking], Next(s, a).bookings[s.payments[p].booking])
  {
    StepIsGood(s, a);
    OpeningNeedsConfirmed(s, a);
    assert p in Next(s, a).payments;
    hide Inv, Next, Unasked, OpensOnlyByCancelling;
    NothingOpened(s, a, p);
    NotRefunded(Next(s, a), p);
    RowsStayUnasked(s, Next(s, a), p);
  }

  lemma {:induction false} NothingOpened(s: Store, a: Action, p: Id)
    requires Unasked(s, p) && !s.bookings[s.payments[p].booking].status.Confirmed?
    requires OpensOnlyByCancelling(s, a) && RefundsEvolve(s.refunds, Next(s, a).refunds)
    requires p in Next(s, a).payments
    ensures forall r :: !RefundOf(Next(s, a).refunds, p, r)
  {
    hide Next;
    forall r
      ensures !RefundOf(Next(s, a).refunds, p, r)
    {
      assert !RefundOf(s.refunds, p, r);
    }
  }

  lemma RowsStayUnasked(s: Store, t: Store, p: Id)
    requires Unasked(s, p) && Evolves(s, t)
    requires p in t.payments && !t.payments[p].status.Refunded? && forall r :: !RefundOf(t.refunds, p, r)
    ensures Unasked(t, p) && t.payments[p].booking == s.payments[p].booking
    ensures BookingStep(s.bookings[s.payments[p].booking], t.bookings[s.payments[p].booking])
  {
    assert PaymentStep(s.payments[p], t.payments[p]);
  }

  lemma NotRefunded(s: Store, p: Id)
    requires Inv(s) && p in s.payments && forall r :: !RefundOf(s.refunds, p, r)
    ensures !s.payments[p].status.Refunded?
  {
    assert s.payments[p].status.Refunded? ==> PaidBack(s.refunds, p);
  }

  // A captured payment without a refund whose booking is active, completed, cancelled or expired stays
  // captured and unrefunded through every run.
  lemma {:induction false} StrandedForever(s: Store, acts: seq<Action>, p: Id)
    requires Inv(s) && Stranded(s, p)
    ensures Stranded(Run(s, acts), p)
  {
    if acts != [] {
      hide Inv, Unasked, Next;
      var before := acts[..|acts| - 1];
      StrandedForever(s, before, p);
      RunKeepsInv(s, before);
      StepKeepsUnasked(Run(s, before), acts[|acts| - 1], p);
    }
  }

  // From its expiry on, a hold only expires, whoever asks for it.
  lemma {:induction false} StaleOnlyExpires(s: Store, a: Action, b: Id, t: Time)
    requires b in s.bookings && Stale(s.bookings[b], t) && AtOrAfter(a, t)
    ensures OnlyExpires(s.bookings, Next(s, a).bookings, b)
  {
    match a
    case BeginTx(_, _, _, _, _, _) =>
      if Names(a, b) { StaleIsRefused(s, a, b, t); } else { StepOnlyExpires(s, a, b); hide Next; }
    case CancelTx(_, _, _, _, _, _) =>
      if Names(a, b) { StaleIsRefused(s, a, b, t); } else { StepOnlyExpires(s, a, b); hide Next; }
    case _ =>
      StepOnlyExpires(s, a, b);
      hide Next;
  }

  lemma {:induction false} StaleIsRefused(s: Store, a: Action, b: Id, t: Time)
    requires b in s.bookings && Stale(s.bookings[b], t) && AtOrAfter(a, t) && Names(a, b)
    ensures Next(s, a) == s
  {
  }

  // So does one whose booking is held, once the hold has run out, as long as no clock is earlier.
  lemma {:induction false} LeftBehindForever(s: Store, acts: seq<Action>, p: Id, t: Time)
    requires Inv(s) && LeftBehind(s, p, t)
    requires forall a | a in acts :: AtOrAfter(a, t)
    ensures LeftBehind(Run(s, acts), p, t)
  {
    if acts != [] {
      hide Inv, Unasked, Next, AtOrAfter;
      var before, last := acts[..|acts| - 1], acts[|acts| - 1];
      LeftBehindForever(s, before, p, t);
      var u := Run(s, before);
      RunKeepsInv(s, before);
      StepKeepsUnasked(u, last, p);
      if Stale(u.bookings[u.payments[p].booking], t) {
        StaleOnlyExpires(u, last, u.payments[p].booking, t);
      }
    }
  }

  /******* ... exactly when its booking is not closed and its hold has not run out *******/

  ghost predicate IsPaidBack(s: Store, p: Id) {
    p in s.payments && s.payments[p].status.Refunded? && PaidBack(s.refunds, p)
  }

  // Some run from time t on, with clocks that never go back, ends with the money paid back.
  ghost predicate CanBePaidBack(s: Store, p: Id, t: Time) {
    exists acts :: InOrder(acts, t) && IsPaidBack(Run(s, acts), p)
  }

  // Payment p is captured and its booking has the status.
  ghost predicate PaysFor(s: Store, p: Id, status: BookingStatus) {
    && p in s.payments && s.payments[p].status.Captured?
    && s.payments[p].booking in s.bookings && s.bookings[s.payments[p].booking].status == status
  }

  lemma {:induction false} RunFrom(s: Store, a: Action, acts: seq<Action>)
    ensures Run(s, [a] + acts) == Run(Next(s, a), acts)
  {
    hide Next;
    if acts == [] {
      assert [a] + acts == [a] && [a][..0] == [];
    } else {
      assert ([a] + acts)[..|acts|] == [a] + acts[..|acts| - 1];
      RunFrom(s, a, acts[..|acts| - 1]);
    }
  }

  lemma {:induction false} OneStepEarlier(s: Store, a: Action, p: Id, t: Time)
    requires CanBePaidBack(Next(s, a), p, t) && Clock(a) == Some(t)
    ensures CanBePaidBack(s, p, t)
  {
    hide IsPaidBack, Next, InOrder;
    var acts :| InOrder(acts, t) && IsPaidBack(Run(Next(s, a), acts), p);
    RunFrom(s, a, acts);
    InOrderFrom(a, acts, t);
  }

  lemma FreshId(ids: set<Id>) returns (x: Id)
    ensures x !in ids
  {
    var bound := UpperBound(ids);
    x := bound + 1;
  }

  lemma {:induction false} UpperBound(ids: set<Id>) returns (bound: Id)
    ensures forall x | x in ids :: x <= bound
    decreases |ids|
  {
    bound := 0;
    if ids != {} {
      var y := Pick(ids);
      var rest := UpperBound(ids - {y});
      bound := if rest < y then y else rest;
      assert forall x | x in ids :: x == y || x in ids - {y};
    }
  }

  // The customer cancels, and the provider answers that the money went back.
  lemma PaidBackFromConfirmed(s: Store, p: Id, t: Time)
    requires Inv(s) && PaysFor(s, p, Confirmed)
    ensures CanBePaidBack(s, p, t)
  {
    var id := FreshId(s.refunds.Keys);
    var providerRefund := FreshProviderRefund(s);
    var cancel, answer := CancelledAndAnswered(s, p, t, id, providerRefund);
    hide Inv, Next, IsPaidBack, PaysFor;
    StepIsGood(s, cancel);
    StepIsGood(Next(s, cancel), answer);
    RefundedIsPaidBack(Next(Next(s, cancel), answer), p);
    assert Run(Next(Next(s, cancel), answer), []) == Next(Next(s, cancel), answer) && InOrder([], t);
    OneStepEarlier(Next(s, cancel), answer, p, t);
    OneStepEarlier(s, cancel, p, t);
  }

  lemma CancelledAndAnswered(s: Store, p: Id, t: Time, id: Id, providerRefund: Id)
    returns (cancel: Action, answer: Action)
    requires Inv(s) && PaysFor(s, p, Confirmed) && id !in s.refunds
    requires forall r | r in s.refunds :: s.refunds[r].providerRefundId != Some(providerRefund)
    ensures Clock(cancel) == Some(t) && Clock(answer) == Some(t)
    ensures
      var u := Next(Next(s, cancel), answer);
      p in u.payments && u.payments[p].status.Refunded?
  {
    var b := s.bookings[s.payments[p].booking];
    cancel := CancelTx(t, b.user, s.payments[p].booking, b.version, p, id);
    answer := RefundAnsweredTx(t, id, providerRefund, AnswerProcessed);
    CancellationPaysBack(s, t, s.payments[p].booking, p, id, t, providerRefund);
    hide Inv, PrepareCancellation, FinalizeRefund;
  }

  lemma RefundedIsPaidBack(s: Store, p: Id)
    requires Inv(s) && p in s.payments && s.payments[p].status.Refunded?
    ensures IsPaidBack(s, p)
  {
  }

  lemma FreshProviderRefund(s: Store) returns (id: Id)
    ensures forall r | r in s.refunds :: s.refunds[r].providerRefundId != Some(id)
  {
    id := FreshId(set r | r in s.refunds && s.refunds[r].providerRefundId.Some? :: s.refunds[r].providerRefundId.value);
  }

  lemma OwnIdIsNotTaken(s: Store, p: Id)
    requires Inv(s) && p in s.payments && s.payments[p].providerPaymentId.Some?
    ensures !ProviderPaymentTaken(s.payments, s.payments[p].providerPaymentId.value, p)
  {
    var id := s.payments[p].providerPaymentId.value;
    ProviderPaymentIsUnique(s, id);
    hide Inv;
    assert HasProviderPayment(s.payments, id, p);
    forall q | q in s.payments && q != p
      ensures s.payments[q].providerPaymentId != Some(id)
    {
      assert !HasProviderPayment(s.payments, id, q);
    }
  }

  // The provider says once more that p was captured.
  lemma PaidBackFromPending(s: Store, p: Id, t: Time)
    requires Inv(s) && PaysFor(s, p, PaymentPending)
    ensures CanBePaidBack(s, p, t)
  {
    var event := FreshId(s.events.Keys);
    var d := CapturedAgain(s, p, event, t);
    StepIsGood(s, WebhookTx(t, d));
    hide Inv, Next, PaysFor;
    PaidBackFromConfirmed(Next(s, WebhookTx(t, d)), p, t);
    OneStepEarlier(s, WebhookTx(t, d), p, t);
  }

  lemma CapturedAgain(s: Store, p: Id, event: Id, t: Time) returns (d: Delivery)
    requires Inv(s) && PaysFor(s, p, PaymentPending) && event !in s.events
    ensures PaysFor(Next(s, WebhookTx(t, d)), p, Confirmed)
  {
    var y := s.payments[p];
    PaymentFacts(s, p);
    OwnIdIsNotTaken(s, p);
    d := Delivery(
      event, 0, true,
      PaymentEvent(PaymentCaptured, y.orderId.value, y.providerPaymentId.value, Some(y.subunits), Some(y.currency)));
    assert GenuinePayment(s, d, p);
    CaptureIsExact(s, t, d, p);
    hide Inv, ProcessWebhook;
  }

  // The customer starts another payment while the hold stands.
  lemma PaidBackFromHeld(s: Store, p: Id, t: Time)
    requires Inv(s) && PaysFor(s, p, Held) && !Stale(s.bookings[s.payments[p].booking], t)
    ensures CanBePaidBack(s, p, t)
  {
    var id := FreshId(s.payments.Keys);
    var key := FreshId(set q | q in s.payments :: s.payments[q].key);
    var b := s.bookings[s.payments[p].booking];
    var a := BeginTx(t, b.user, s.payments[p].booking, b.version, key, id);
    AttemptCanStart(s, p, t, key, id);
    hide Inv, Evolves, Next, PaysFor;
    StepIsGood(s, a);
    PaidBackFromPending(Next(s, a), p, t);
    OneStepEarlier(s, a, p, t);
  }

  lemma AttemptCanStart(s: Store, p: Id, t: Time, key: Id, id: Id)
    requires Inv(s) && PaysFor(s, p, Held) && !Stale(s.bookings[s.payments[p].booking], t)
    requires id !in s.payments && forall q | q in s.payments :: s.payments[q].key != key
    ensures
      var b := s.bookings[s.payments[p].booking];
      PaysFor(Next(s, BeginTx(t, b.user, s.payments[p].booking, b.version, key, id)), p, PaymentPending)
  {
    PaymentFacts(s, p);
    HoldsExpire(s, s.payments[p].booking);
    hide Inv;
    AnotherAttempt(s, p, t, key, id);
    hide BeginPayment;
  }

  lemma HoldsExpire(s: Store, b: Id)
    requires Inv(s) && b in s.bookings
    ensures s.bookings[b].holdExpiresAt.Some?
  {
  }

  lemma AnotherAttempt(s: Store, p: Id, now: Time, key: Id, id: Id)
    requires p in s.payments && PaymentRow(s.payments[p]) && PaysFor(s, p, Held)
    requires PaymentMatches(s.payments[p], s.bookings[s.payments[p].booking])
    requires After(s.bookings[s.payments[p].booking].holdExpiresAt, now)
    requires id !in s.payments && forall q | q in s.payments :: s.payments[q].key != key
    ensures
      var booking := s.payments[p].booking;
      PaysFor(
        BeginPayment(s, now, s.bookings[booking].user, booking, s.bookings[booking].version, key, id).store,
        p, PaymentPending)
  {
    var b := s.bookings[s.payments[p].booking];
    ConversionIsExact(b.amount.value, s.payments[p].subunits);
    assert CanEnterPayment(b, b.version, now);
    assert PaymentWithKey(s.payments, key).None?;
  }

  // A captured payment nobody has asked back can be paid back from time t on, by some run whose clocks
  // never go back, exactly when its booking is payment pending, confirmed, or held by a hold that has not
  // run out at t.
  lemma CanBePaidBackUnlessOver(s: Store, p: Id, t: Time)
    requires Inv(s) && p in s.payments && s.payments[p].status.Captured?
    requires forall r :: !RefundOf(s.refunds, p, r)
    ensures s.payments[p].booking in s.bookings
    ensures
      var b := s.bookings[s.payments[p].booking];
      CanBePaidBack(s, p, t) <==> !Closed(b.status) && !Stale(b, t)
  {
    PaymentFacts(s, p);
    hide Inv;
    var b := s.bookings[s.payments[p].booking];
    if Closed(b.status) || Stale(b, t) {
      assert LeftBehind(s, p, t);
      hide Run, InOrder;
      forall acts | InOrder(acts, t)
        ensures !IsPaidBack(Run(s, acts), p)
      {
        InOrderIsAfter(acts, t);
        LeftBehindForever(s, acts, p, t);
      }
    } else {
      match b.status
      case Held => PaidBackFromHeld(s, p, t);
      case PaymentPending => PaidBackFromPending(s, p, t);
      case Confirmed => PaidBackFromConfirmed(s, p, t);
    }
  }

  lemma InOrderIsAfter(acts: seq<Action>, t: Time)
    requires InOrder(acts, t)
    ensures forall a | a in acts :: AtOrAfter(a, t)
  {
  }

  /******* It happens *******/

  // The first attempt fails and is captured after all while the booking is held again. When the hold runs
  // out the money is left behind, and once the row expires it is stranded.
  lemma CaptureIsStranded() returns (acts: seq<Action>)
    ensures OrderedUntil(acts, 0, 20)
    ensures LeftBehind(Run(EMPTY, acts), 4, HOLD_SECONDS)
    ensures Stranded(Next(Run(EMPTY, acts), SweepTx(HOLD_SECONDS, {3})), 4)
  {
    FirstAttemptFails();
    FirstRunIsInOrder();
    var a := WebhookTx(20, CAPTURE);
    OrderedOneMore(FIRST_RUN, a, 0, 10, 20);
    ReachableInv(FIRST_RUN);
    acts := FIRST_RUN + [a];
    hide OrderedUntil, Next, Run, Inv;
    RunOneMore(FIRST_RUN, a);
    CapturedWhileHeld();
    SweepingStrands(Run(EMPTY, acts), 4, HOLD_SECONDS);
  }

  const CAPTURE := Delivery(33, 33, true, PaymentEvent(PaymentCaptured, 21, 41, Some(5000), Some(Inr)))

  lemma CapturedWhileHeld()
    requires Inv(OneBooking(Held, 3, FIRST, RECORDED, map[]))
    ensures
      var t := Next(OneBooking(Held, 3, FIRST, RECORDED, map[]), WebhookTx(20, CAPTURE));
      && LeftBehind(t, 4, HOLD_SECONDS)
      && t.payments[4].booking == 3 && Stale(t.bookings[3], HOLD_SECONDS)
  {
    hide ProcessWebhook, Inv;
    CaptureIsExact(OneBooking(Held, 3, FIRST, RECORDED, map[]), 20, CAPTURE, 4);
  }

  lemma SweepingStrands(s: Store, p: Id, t: Time)
    requires Unasked(s, p) && Stale(s.bookings[s.payments[p].booking], t)
    ensures Stranded(Next(s, SweepTx(t, {s.payments[p].booking})), p)
  {
  }
}
