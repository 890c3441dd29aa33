/**
 create_booking_hold at the grain at which it really interleaves: lock the charge
 point, expire its stale holds, look for overlaps, insert and commit. Between these
 steps any other transaction may commit, as long as it writes no locked row.
 Every such run is a run of the ledger, so the lock alone prevents double booking.
 */
module HoldLocking {
  import opened Wrappers
  import opened Ledger
  import opened LedgerInvariant
  import opened LedgerSteps
  import opened LedgerRuns

  datatype Phase = Locked | Cleared | Checked

  // An open transaction; the rows in swept are written but not committed, so they are locked.
  datatype HoldTx = HoldTx(request: HoldRequest, phase: Phase, swept: set<Id>)

  datatype Fine = Fine(db: Store, open: map<Id, HoldTx>)

  datatype Micro =
    | LockPoint(tx: Id, request: HoldRequest)
    | ExpireHolds(tx: Id)
    | CheckOverlap(tx: Id)
    | InsertAndCommit(tx: Id, id: Id)
    | Abort(tx: Id)
    | Other(action: Action)

  predicate PointLocked(f: Fine, point: Id) {
    exists tx | tx in f.open :: f.open[tx].request.point == point
  }

  function StaleAt(s: Store, r: HoldRequest): set<Id> {
    set b | b in s.bookings && s.bookings[b].point == r.point && Stale(s.bookings[b], r.now)
  }

  function Close(f: Fine, tx: Id): Fine {
    f.(open := f.open - {tx})
  }

  // The other transactions: they wait for locked rows, here by not happening.
  ghost predicate RespectsLocks(f: Fine, t: Store) {
    forall tx | tx in f.open ::
      && f.open[tx].request.point in f.db.points
      && f.open[tx].request.point in t.points
      && t.points[f.open[tx].request.point] == f.db.points[f.open[tx].request.point]
      && forall b | b in f.open[tx].swept :: b in f.db.bookings && b in t.bookings && t.bookings[b] == f.db.bookings[b]
  }

  predicate IsHold(a: Action) {
    a.CreateHoldTx? || a.CommitHoldTx?
  }

  ghost function Advance(f: Fine, m: Micro): Fine {
    match m
    case LockPoint(tx, r) =>
      if tx in f.open || r.startsAt <= r.now || PointLocked(f, r.point) || !AcceptsBookings(f.db.points, r.point) then f
      else f.(open := f.open[tx := HoldTx(r, Locked, {})])
    case ExpireHolds(tx) =>
      if tx !in f.open || !f.open[tx].phase.Locked? then f
      else f.(open := f.open[tx := HoldTx(f.open[tx].request, Cleared, StaleAt(f.db, f.open[tx].request))])
    case CheckOverlap(tx) =>
      if tx !in f.open || !f.open[tx].phase.Cleared? then f
      else
        var x := f.open[tx];
        if SlotFree(
             Sweep(f.db, x.request.now, x.swept).bookings, x.request.point, x.request.startsAt, x.request.endsAt)
        then f.(open := f.open[tx := x.(phase := Checked)])
        else Close(f, tx)
    case InsertAndCommit(tx, id) =>
      if tx !in f.open || !f.open[tx].phase.Checked? then f
      else
        var x := f.open[tx];
        // The insert does not look at the other bookings again.
        if x.request.endsAt <= x.request.startsAt || id in f.db.bookings || x.request.point !in f.db.points
        then Close(f, tx)
        else
          var swept := Sweep(f.db, x.request.now, x.swept);
          Close(f, tx).(db := SetBooking(swept, id, NewHold(x.request, f.db.points[x.request.point].fee)))
    case Abort(tx) => Close(f, tx)
    case Other(a) =>
      if IsHold(a) || !RespectsLocks(f, Next(f.db, a)) then f else f.(db := Next(f.db, a))
  }

  // The ledger transaction a micro step commits, if it commits one.
  ghost function Committed(f: Fine, m: Micro): seq<Action> {
    match m
    case InsertAndCommit(tx, id) =>
      if tx in f.open && f.open[tx].phase.Checked? then [CommitHoldTx(f.open[tx].request, f.open[tx].swept, id)] else []
    case Other(a) => if IsHold(a) || !RespectsLocks(f, Next(f.db, a)) then [] else [a]
    case _ => []
  }

  /******* What the locks protect *******/

  ghost predicate TxSound(s: Store, x: HoldTx) {
    && x.request.now < x.request.startsAt
    && AcceptsBookings(s.points, x.request.point)
    && (forall b | b in x.swept ::
          b in s.bookings && s.bookings[b].point == x.request.point && Stale(s.bookings[b], x.request.now))
    && (x.phase.Checked? ==>
          SlotFree(
            SweepTable(s.bookings, x.request.now, x.swept), x.request.point, x.request.startsAt, x.request.endsAt))
  }

  ghost predicate OneTxPerPoint(f: Fine) {
    forall x, y | x in f.open && y in f.open && x != y :: f.open[x].request.point != f.open[y].request.point
  }

  ghost predicate Sound(f: Fine) {
    && Inv(f.db)
    && OneTxPerPoint(f)
    && forall tx | tx in f.open :: TxSound(f.db, f.open[tx])
  }

  /******* Only holds insert bookings *******/

  lemma {:induction false} OthersInsertNoBooking(s: Store, a: Action)
    requires !IsHold(a)
    ensures Next(s, a).bookings.Keys <= s.bookings.Keys
  {
    hide BeginPayment, FinalizeOrder, CompensateFailure, VerifyCheckout, ProcessWebhook;
    hide PrepareCancellation, RecordRefundFailure, FinalizeRefund, ApplyReconciled, StartSession, CompleteSession;
    match a
    case BeginTx(now, user, booking, version, key, id) => PaymentInsertsNone(s, now, user, booking, version, key, id);
    case FinalizeTx(payment, order) => OrderInsertsNone(s, payment, order);
    case CompensateTx(now, payment) => CompensationInsertsNone(s, now, payment);
    case VerifyTx(user, order, providerPayment, signed) => VerifyInsertsNone(s, user, order, providerPayment, signed);
    case WebhookTx(now, delivery) => WebhookInsertsNone(s, now, delivery);
    case CancelTx(now, user, booking, version, pick, id) => CancelInsertsNone(s, now, user, booking, version, pick, id);
    case RefundFailedTx(refund, code) => RefundFailureInsertsNone(s, refund, code);
    case RefundAnsweredTx(now, refund, providerRefund, answer) =>
      RefundAnswerInsertsNone(s, now, refund, providerRefund, answer);
    case ReconcileTx(now, refund, answer) => ReconcileInsertsNone(s, now, refund, answer);
    case StartTx(now, operator, booking, version, meterStart, id) =>
      StartInsertsNone(s, now, operator, booking, version, meterStart, id);
    case CompleteTx(now, operator, session, version, meterEnd) =>
      CompletionInsertsNone(s, now, operator, session, version, meterEnd);
    case _ =>
  }

  lemma PaymentInsertsNone(s: Store, now: Time, user: Id, booking: Id, version: int, key: Id, id: Id)
    ensures BeginPayment(s, now, user, booking, version, key, id).store.bookings.Keys <= s.bookings.Keys
  {
  }

  lemma OrderInsertsNone(s: Store, p: Id, order: Id)
    ensures FinalizeOrder(s, p, order).store.bookings == s.bookings
  {
  }

  lemma CompensationInsertsNone(s: Store, now: Time, p: Id)
    ensures CompensateFailure(s, now, p).store.bookings.Keys <= s.bookings.Keys
  {
  }

  lemma VerifyInsertsNone(s: Store, user: Id, order: Id, providerPayment: Id, signed: bool)
    ensures VerifyCheckout(s, user, order, providerPayment, signed).store.bookings == s.bookings
  {
  }

  lemma CaptureInsertsNone(s: Store, p: Id, y: Payment)
    ensures ApplyCaptured(s, p, y).store.bookings.Keys <= s.bookings.Keys
  {
    hide Moved;
  }

  lemma FailureInsertsNone(s: Store, now: Time, p: Id, y: Payment)
    ensures ApplyFailed(s, now, p, y).store.bookings.Keys <= s.bookings.Keys
  {
    hide Released;
  }

  lemma AcceptedPaymentInsertsNone(s: Store, now: Time, kind: PaymentEventKind, p: Id, y: Payment)
    ensures AcceptPaymentEvent(s, now, kind, p, y).store.bookings.Keys <= s.bookings.Keys
  {
    hide ApplyCaptured, ApplyFailed;
    CaptureInsertsNone(s, p, y);
    FailureInsertsNone(s, now, p, y);
  }

  lemma PaymentEventInsertsNone(s: Store, now: Time, e: Body, p: Id)
    requires e.PaymentEvent? && p in s.payments
    ensures PaymentEventOn(s, now, e, p).store.bookings.Keys <= s.bookings.Keys
  {
    AcceptedPaymentInsertsNone(s, now, e.kind, p, s.payments[p].(providerPaymentId := Some(e.payment)));
    hide AcceptPaymentEvent;
  }

  lemma AcceptedRefundInsertsNone(s: Store, now: Time, kind: RefundEventKind, r: Id, z: Refund)
    ensures AcceptRefundEvent(s, now, kind, r, z).store.bookings == s.bookings
  {
  }

  lemma RefundEventInsertsNone(s: Store, now: Time, e: Body, r: Id)
    requires e.RefundEvent? && r in s.refunds
    ensures RefundEventOn(s, now, e, r).store.bookings == s.bookings
  {
    AcceptedRefundInsertsNone(s, now, e.refundKind, r, s.refunds[r].(providerRefundId := Some(e.refund)));
    hide AcceptRefundEvent;
  }

  lemma RecordingKeepsBookings(s: Store, u: Store, d: Delivery, status: EventStatus)
    ensures RecordEvent(s, u, d, status).bookings == u.bookings
  {
  }

  lemma {:induction false} WebhookInsertsNone(s: Store, now: Time, d: Delivery)
    ensures ProcessWebhook(s, now, d).store.bookings.Keys <= s.bookings.Keys
  {
    hide ApplyEvent, RecordEvent;
    EventInsertsNone(s, now, d.body);
    var u := ApplyEvent(s, now, d.body).store;
    RecordingKeepsBookings(s, u, d, ProcessedEvent);
    RecordingKeepsBookings(s, u, d, IgnoredEvent);
  }

  lemma {:induction false} EventInsertsNone(s: Store, now: Time, e: Body)
    ensures ApplyEvent(s, now, e).store.bookings.Keys <= s.bookings.Keys
  {
    hide PaymentEventOn, RefundEventOn;
    if e.PaymentEvent? {
      var p := PaymentWithOrder(s.payments, e.order);
      if p.Some? {
        PaymentEventInsertsNone(s, now, e, p.value);
      }
    } else if e.RefundEvent? {
      var p := PaymentWithProviderId(s.payments, e.payment);
      if p.Some? && FindRefund(s.refunds, p.value).Some? {
        RefundEventInsertsNone(s, now, e, FindRefund(s.refunds, p.value).value);
      }
    }
  }

  lemma CancelInsertsNone(s: Store, now: Time, user: Id, booking: Id, version: int, pick: Id, id: Id)
    ensures PrepareCancellation(s, now, user, booking, version, pick, id).store.bookings.Keys <= s.bookings.Keys
  {
  }

  lemma RefundFailureInsertsNone(s: Store, r: Id, code: ErrorCode)
    ensures RecordRefundFailure(s, r, code).store.bookings == s.bookings
  {
  }

  lemma RefundAnswerInsertsNone(s: Store, now: Time, r: Id, providerRefund: Id, answer: RefundAnswer)
    ensures FinalizeRefund(s, now, r, providerRefund, answer).store.bookings == s.bookings
  {
  }

  lemma ReconcileInsertsNone(s: Store, now: Time, r: Id, answer: RefundAnswer)
    ensures ApplyReconciled(s, now, r, answer).store.bookings == s.bookings
  {
  }

  lemma StartInsertsNone(
    s: Store, now: Time, operator: Operator, booking: Id, version: int, meterStart: real, id: Id)
    ensures StartSession(s, now, operator, booking, version, meterStart, id).store.bookings.Keys <= s.bookings.Keys
  {
  }

  lemma CompletionInsertsNone(
    s: Store, now: Time, operator: Operator, session: Id, version: int, meterEnd: real)
    ensures CompleteSession(s, now, operator, session, version, meterEnd).store.bookings.Keys <= s.bookings.Keys
  {
  }

  /******* Each micro step keeps the locks sound and commits at most one ledger transaction *******/

  // Nobody can book the locked point, and blocking bookings only ever disappear.
  lemma OtherKeepsTx(f: Fine, t: Store, tx: Id)
    requires tx in f.open && TxSound(f.db, f.open[tx]) && RespectsLocks(f, t)
    requires BookingsEvolve(f.db.bookings, t.bookings)
    requires forall b | b in t.bookings && b !in f.db.bookings :: t.bookings[b].point != f.open[tx].request.point
    ensures TxSound(t, f.open[tx])
  {
    var x := f.open[tx];
    if x.phase.Checked? {
      var before := SweepTable(f.db.bookings, x.request.now, x.swept);
      var after := SweepTable(t.bookings, x.request.now, x.swept);
      forall b | b in after
        ensures !Overlaps(after[b], x.request.point, x.request.startsAt, x.request.endsAt)
      {
        if b in f.db.bookings {
          assert !Overlaps(before[b], x.request.point, x.request.startsAt, x.request.endsAt);
          assert BookingStep(f.db.bookings[b], t.bookings[b]);
        }
      }
    }
  }

  lemma OtherKeepsSound(f: Fine, a: Action)
    requires Sound(f) && !IsHold(a) && RespectsLocks(f, Next(f.db, a))
    ensures Sound(f.(db := Next(f.db, a)))
  {
    hide Inv, TxSound, RespectsLocks, Next;
    var t := Next(f.db, a);
    StepIsGood(f.db, a);
    OthersInsertNoBooking(f.db, a);
    forall tx | tx in f.open
      ensures TxSound(t, f.open[tx])
    {
      OtherKeepsTx(f, t, tx);
    }
  }

  // The row check was made a while ago; the lock kept its answer true until the insert.
  lemma CommitIsLedgerStep(f: Fine, tx: Id, id: Id)
    requires Sound(f) && tx in f.open && f.open[tx].phase.Checked?
    ensures Advance(f, InsertAndCommit(tx, id)).db
         == Next(f.db, CommitHoldTx(f.open[tx].request, f.open[tx].swept, id))
  {
    var x := f.open[tx];
    assert TxSound(f.db, x);
    hide Inv, SweepTable, NewHold, SetBooking, SlotFree;
  }

  // A committed hold writes only rows of its own point.
  lemma CommitWritesOwnPoint(s: Store, r: HoldRequest, swept: set<Id>, id: Id, fee: real, point: Id)
    requires id !in s.bookings && point != r.point
    requires forall b | b in swept :: b in s.bookings && s.bookings[b].point == r.point
    ensures
      var t := SetBooking(Sweep(s, r.now, swept), id, NewHold(r, fee));
      && t.points == s.points
      && (forall b | b in s.bookings && s.bookings[b].point == point ::
            b in t.bookings && t.bookings[b] == s.bookings[b])
      && (forall b | b in t.bookings && b !in s.bookings :: t.bookings[b].point != point)
  {
  }

  lemma CommitKeepsSound(f: Fine, tx: Id, id: Id)
    requires Sound(f) && tx in f.open && f.open[tx].phase.Checked?
    ensures Sound(Advance(f, InsertAndCommit(tx, id)))
  {
    var g := Advance(f, InsertAndCommit(tx, id));
    var x := f.open[tx];
    assert TxSound(f.db, x);
    CommitIsLedgerStep(f, tx, id);
    StepIsGood(f.db, CommitHoldTx(x.request, x.swept, id));
    hide Inv, Next, SetBooking, NewHold, Sweep, AcceptsBookings;
    if g.db != f.db {
      forall y | y in g.open
        ensures TxSound(g.db, g.open[y])
      {
        CommitWritesOwnPoint(
          f.db, x.request, x.swept, id, f.db.points[x.request.point].fee, f.open[y].request.point);
        hide TxSound, BookingsEvolve;
        assert TxSound(f.db, f.open[y]);
        SweptRowsUntouched(f.db, g.db, f.open[y]);
        OtherKeepsTx(Fine(f.db, map[y := f.open[y]]), g.db, y);
      }
    }
  }

  lemma SweptRowsUntouched(s: Store, t: Store, x: HoldTx)
    requires TxSound(s, x) && t.points == s.points
    requires forall b | b in s.bookings && s.bookings[b].point == x.request.point ::
               b in t.bookings && t.bookings[b] == s.bookings[b]
    ensures forall y :: RespectsLocks(Fine(s, map[y := x]), t)
  {
  }

  lemma AdvanceKeepsSound(f: Fine, m: Micro)
    requires Sound(f)
    ensures Sound(Advance(f, m))
  {
    match m
    case Other(a) =>
      if !IsHold(a) && RespectsLocks(f, Next(f.db, a)) {
        OtherKeepsSound(f, a);
      }
    case InsertAndCommit(tx, id) =>
      if tx in f.open && f.open[tx].phase.Checked? {
        CommitKeepsSound(f, tx, id);
      }
    case _ =>
      hide Inv, Next, AcceptsBookings, SlotFree;
  }

  /******* Runs *******/

  ghost function FineRun(f: Fine, steps: seq<Micro>): Fine {
    if steps == [] then f else Advance(FineRun(f, steps[..|steps| - 1]), steps[|steps| - 1])
  }

  // The ledger transactions a fine-grained run committed, in order.
  ghost function Committing(f: Fine, steps: seq<Micro>): seq<Action> {
    if steps == [] then []
    else
      var before := steps[..|steps| - 1];
      Committing(f, before) + Committed(FineRun(f, before), steps[|steps| - 1])
  }

  lemma RunExtends(s: Store, acts: seq<Action>, more: seq<Action>)
    requires |more| <= 1
    ensures Run(s, acts + more) == if more == [] then Run(s, acts) else Next(Run(s, acts), more[0])
  {
    hide Next;
    if more == [] {
      assert acts + more == acts;
    } else {
      assert (acts + more)[..|acts|] == acts;
    }
  }

  lemma AdvanceCommits(f: Fine, m: Micro)
    requires Sound(f)
    ensures |Committed(f, m)| <= 1
    ensures Advance(f, m).db == if Committed(f, m) == [] then f.db else Next(f.db, Committed(f, m)[0])
  {
    hide Sound, Next;
    if m.InsertAndCommit? && m.tx in f.open && f.open[m.tx].phase.Checked? {
      CommitIsLedgerStep(f, m.tx, m.id);
    }
  }

  // Every fine-grained run commits a run of the ledger, so everything proved of the ledger holds.
  lemma {:induction false} FineRunIsLedgerRun(f: Fine, steps: seq<Micro>)
    requires Sound(f)
    ensures Sound(FineRun(f, steps))
    ensures FineRun(f, steps).db == Run(f.db, Committing(f, steps))
  {
    if steps != [] {
      hide Sound, Advance, Committed;
      var before, last := steps[..|steps| - 1], steps[|steps| - 1];
      FineRunIsLedgerRun(f, before);
      AdvanceKeepsSound(FineRun(f, before), last);
      AdvanceCommits(FineRun(f, before), last);
      RunExtends(f.db, Committing(f, before), Committed(FineRun(f, before), last));
    }
  }

  // The charge point lock prevents double booking in every interleaving, without the exclusion constraint.
  lemma {:induction false} NoDoubleBookingUnderInterleaving(steps: seq<Micro>)
    ensures NoDoubleBooking(FineRun(Fine(EMPTY, map[]), steps).db.bookings)
    ensures Inv(FineRun(Fine(EMPTY, map[]), steps).db)
  {
    EmptyStoreInv();
    FineRunIsLedgerRun(Fine(EMPTY, map[]), steps);
  }
}
