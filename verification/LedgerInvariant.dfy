/**
 What every reachable store satisfies, as predicates over the tables they mention,
 and one lemma per kind of write that shows a write of that kind keeps all of them.
 */
module LedgerInvariant {
  import opened Wrappers
  import opened Ledger

  /******* The invariant *******/

  ghost predicate BookingRows(bookings: map<Id, Booking>) {
    forall b | b in bookings ::
      bookings[b].startsAt < bookings[b].endsAt && bookings[b].version >= 1 && bookings[b].holdExpiresAt.Some?
  }

  predicate Clash(x: Booking, y: Booking) {
    && x.point == y.point
    && Blocking(x.status) && Blocking(y.status)
    && x.startsAt < y.endsAt && y.startsAt < x.endsAt
  }

  // What the exclusion constraint prevent_overlapping_bookings demands.
  ghost predicate NoDoubleBooking(bookings: map<Id, Booking>) {
    forall a, b | a in bookings && b in bookings && a != b :: !Clash(bookings[a], bookings[b])
  }

  ghost predicate PaymentRow(y: Payment) {
    && y.amount > 0.0
    && y.subunits as real == y.amount * CURRENCY_SUBUNITS
    && (y.status.Initiated? ==> y.orderId.None?)
    && (y.orderId.None? ==> (y.status.Initiated? || y.status.Failed?) && y.providerPaymentId.None?)
    && (y.status.Captured? || y.status.Refunded? ==> y.providerPaymentId.Some?)
  }

  ghost predicate PaymentRows(payments: map<Id, Payment>) {
    forall p | p in payments :: PaymentRow(payments[p])
  }

  ghost predicate PaymentMatches(y: Payment, b: Booking) {
    y.user == b.user && Some(y.amount) == b.amount && y.currency == b.currency
  }

  ghost predicate PaymentLinks(payments: map<Id, Payment>, bookings: map<Id, Booking>) {
    forall p | p in payments ::
      payments[p].booking in bookings && PaymentMatches(payments[p], bookings[payments[p].booking])
  }

  ghost predicate SharesIdentity(x: Payment, y: Payment) {
    || x.key == y.key
    || (x.orderId.Some? && x.orderId == y.orderId)
    || (x.providerPaymentId.Some? && x.providerPaymentId == y.providerPaymentId)
  }

  ghost predicate DistinctPayments(payments: map<Id, Payment>) {
    forall p, q | p in payments && q in payments && p != q :: !SharesIdentity(payments[p], payments[q])
  }

  // A refund repeats its payment's money, and the two agree on whether it was paid back.
  ghost predicate RefundAgrees(z: Refund, y: Payment) {
    && z.amount == y.amount && z.subunits == y.subunits && z.currency == y.currency
    && (y.status.Captured? || y.status.Refunded?)
    && (z.status.Processed? <==> y.status.Refunded?)
    && (z.status.Requested? ==> z.providerRefundId.None?)
    && (z.status.Pending? || z.status.Processed? ==> z.providerRefundId.Some?)
  }

  ghost predicate RefundLinks(refunds: map<Id, Refund>, payments: map<Id, Payment>) {
    forall r | r in refunds ::
      refunds[r].payment in payments && RefundAgrees(refunds[r], payments[refunds[r].payment])
  }

  ghost predicate RefundsCancelled(
    refunds: map<Id, Refund>, payments: map<Id, Payment>, bookings: map<Id, Booking>)
  {
    forall r | r in refunds && refunds[r].payment in payments ::
      && payments[refunds[r].payment].booking in bookings
      && bookings[payments[refunds[r].payment].booking].status.Cancelled?
  }

  ghost predicate SameBooking(x: Refund, y: Refund, payments: map<Id, Payment>) {
    && x.payment in payments && y.payment in payments
    && payments[x.payment].booking == payments[y.payment].booking
  }

  ghost predicate DistinctRefunds(refunds: map<Id, Refund>, payments: map<Id, Payment>) {
    forall r, q | r in refunds && q in refunds && r != q ::
      && !SameBooking(refunds[r], refunds[q], payments)
      && !(refunds[r].providerRefundId.Some? && refunds[r].providerRefundId == refunds[q].providerRefundId)
  }

  ghost predicate PaidBack(refunds: map<Id, Refund>, p: Id) {
    exists r :: RefundOf(refunds, p, r) && refunds[r].status.Processed?
  }

  ghost predicate RefundedBacked(payments: map<Id, Payment>, refunds: map<Id, Refund>) {
    forall p | p in payments && payments[p].status.Refunded? :: PaidBack(refunds, p)
  }

  predicate PaidStatus(status: BookingStatus) {
    status.Confirmed? || status.Active? || status.Completed?
  }

  ghost predicate HasCaptured(payments: map<Id, Payment>, booking: Id) {
    exists p :: CapturedFor(payments, booking, p)
  }

  ghost predicate PaidBookings(bookings: map<Id, Booking>, payments: map<Id, Payment>) {
    forall b | b in bookings && PaidStatus(bookings[b].status) :: HasCaptured(payments, b)
  }

  ghost predicate HasRefund(refunds: map<Id, Refund>, payments: map<Id, Payment>, booking: Id) {
    exists r :: RefundOfBooking(refunds, payments, booking, r)
  }

  // Where a captured payment that carries no error can be.
  ghost predicate Accounted(s: Store, booking: Id) {
    && booking in s.bookings
    && (|| PaidStatus(s.bookings[booking].status)
        || (s.bookings[booking].status.Cancelled? && HasRefund(s.refunds, s.payments, booking)))
  }

  ghost predicate CapturesAccounted(s: Store) {
    forall p | p in s.payments && s.payments[p].status.Captured? && s.payments[p].error.None? ::
      Accounted(s, s.payments[p].booking)
  }

  ghost predicate SessionRow(x: Session, b: Booking) {
    && x.point == b.point && x.user == b.user
    && (x.status.Charging? ==> b.status.Active? && x.version == 1 && x.meterEnd.None? && x.energy.None?)
    && (x.status.Finished? ==>
          && b.status.Completed? && x.version == 2
          && x.endedAt.Some? && x.endedAt.value >= x.startedAt
          && x.meterEnd.Some? && x.energy == Some(x.meterEnd.value - x.meterStart) && x.energy.value >= 0.0)
    && !x.status.Interrupted?
  }

  ghost predicate SessionRows(sessions: map<Id, Session>, bookings: map<Id, Booking>) {
    forall x | x in sessions ::
      sessions[x].booking in bookings && SessionRow(sessions[x], bookings[sessions[x].booking])
  }

  ghost predicate DistinctSessions(sessions: map<Id, Session>) {
    forall x, y | x in sessions && y in sessions && x != y ::
      && sessions[x].booking != sessions[y].booking
      && !(sessions[x].point == sessions[y].point && sessions[x].status.Charging? && sessions[y].status.Charging?)
  }

  ghost predicate HasSession(sessions: map<Id, Session>, booking: Id) {
    exists x :: x in sessions && sessions[x].booking == booking
  }

  ghost predicate UsedBookings(bookings: map<Id, Booking>, sessions: map<Id, Session>) {
    forall b | b in bookings && (bookings[b].status.Active? || bookings[b].status.Completed?) ::
      HasSession(sessions, b)
  }

  // An order call in progress belongs to an attempt nobody else can have touched.
  ghost predicate AttemptsUntouched(attempts: map<Id, Attempt>, payments: map<Id, Payment>) {
    forall p | p in attempts ::
      && p in payments
      && payments[p].status.Initiated?
      && attempts[p] == Attempt(payments[p].booking, payments[p].subunits, payments[p].currency)
  }

  ghost predicate CallsMatch(calls: map<Id, RefundCall>, refunds: map<Id, Refund>, payments: map<Id, Payment>) {
    forall r | r in calls ::
      && r in refunds && refunds[r].payment == calls[r].payment
      && calls[r].payment in payments
      && payments[calls[r].payment].booking == calls[r].booking
      && payments[calls[r].payment].providerPaymentId == Some(calls[r].providerPaymentId)
      && refunds[r].subunits == calls[r].subunits && refunds[r].currency == calls[r].currency
  }

  ghost predicate Reservations(s: Store) {
    BookingRows(s.bookings) && NoDoubleBooking(s.bookings)
  }

  ghost predicate Payments(s: Store) {
    && PaymentRows(s.payments)
    && PaymentLinks(s.payments, s.bookings)
    && DistinctPayments(s.payments)
    && AttemptsUntouched(s.attempts, s.payments)
  }

  ghost predicate Refunds(s: Store) {
    && RefundLinks(s.refunds, s.payments)
    && RefundsCancelled(s.refunds, s.payments, s.bookings)
    && DistinctRefunds(s.refunds, s.payments)
    && RefundedBacked(s.payments, s.refunds)
    && CallsMatch(s.calls, s.refunds, s.payments)
  }

  ghost predicate Settled(s: Store) {
    PaidBookings(s.bookings, s.payments) && CapturesAccounted(s)
  }

  ghost predicate Sessions(s: Store) {
    && SessionRows(s.sessions, s.bookings)
    && DistinctSessions(s.sessions)
    && UsedBookings(s.bookings, s.sessions)
  }

  ghost predicate Inv(s: Store) {
    Reservations(s) && Payments(s) && Refunds(s) && Settled(s) && Sessions(s)
  }

  /******* How rows change *******/

  // The booking lifecycle: every status change is one of these and adds one to the version.
  predicate AllowedMove(from: BookingStatus, to: BookingStatus) {
    match from
    case Held => to.PaymentPending? || to.Cancelled? || to.Expired?
    case PaymentPending => to.Held? || to.Expired? || to.Confirmed? || to.Cancelled?
    case Confirmed => to.Cancelled? || to.Active?
    case Active => to.Completed?
    case Completed => false
    case Cancelled => false
    case Expired => false
  }

  predicate SameReservation(x: Booking, y: Booking) {
    x == y.(status := x.status, version := x.version, cancelledAt := x.cancelledAt)
  }

  predicate BookingStep(x: Booking, y: Booking) {
    && SameReservation(x, y)
    && (x == y || (AllowedMove(x.status, y.status) && y.version == x.version + 1))
  }

  predicate KeepsId(x: Option<Id>, y: Option<Id>) {
    x.Some? ==> x == y
  }

  function Rank(status: PaymentStatus): int {
    match status
    case Initiated => 0
    case OrderCreated => 1
    case Authorized => 2
    case Failed => 3
    case Captured => 4
    case Refunded => 5
  }

  predicate SameMoney(x: Payment, y: Payment) {
    && x.booking == y.booking && x.user == y.user && x.key == y.key
    && x.amount == y.amount && x.subunits == y.subunits && x.currency == y.currency
  }

  predicate PaymentStep(x: Payment, y: Payment) {
    && SameMoney(x, y)
    && Rank(x.status) <= Rank(y.status)
    && KeepsId(x.orderId, y.orderId) && KeepsId(x.providerPaymentId, y.providerPaymentId)
    && (x.error.Some? ==> y.error.Some?)
  }

  predicate RefundStep(x: Refund, y: Refund) {
    && x.payment == y.payment && x.amount == y.amount && x.subunits == y.subunits && x.currency == y.currency
    && (x.status.Processed? ==> y.status.Processed?)
    && KeepsId(x.providerRefundId, y.providerRefundId)
  }

  predicate SessionStep(x: Session, y: Session) {
    && x.booking == y.booking && x.user == y.user && x.point == y.point
    && x.startedAt == y.startedAt && x.meterStart == y.meterStart
    && (x == y || (x.status.Charging? && y.status.Finished? && y.version == x.version + 1))
  }

  ghost predicate BookingsEvolve(x: map<Id, Booking>, y: map<Id, Booking>) {
    && (forall b | b in x :: b in y && BookingStep(x[b], y[b]))
    && (forall b | b in y && b !in x :: y[b].status.Held? && y[b].version == 1)
  }

  ghost predicate PaymentsEvolve(x: map<Id, Payment>, y: map<Id, Payment>) {
    forall p | p in x :: p in y && PaymentStep(x[p], y[p])
  }

  ghost predicate RefundsEvolve(x: map<Id, Refund>, y: map<Id, Refund>) {
    forall r | r in x :: r in y && RefundStep(x[r], y[r])
  }

  ghost predicate SessionsEvolve(x: map<Id, Session>, y: map<Id, Session>) {
    forall k | k in x :: k in y && SessionStep(x[k], y[k])
  }

  ghost predicate EventsEvolve(x: map<Id, EventRecord>, y: map<Id, EventRecord>) {
    forall e | e in x :: e in y && x[e] == y[e]
  }

  // A provider refund call is only ever opened together with its refund row.
  ghost predicate CallsEvolve(s: Store, t: Store) {
    forall r | r in t.calls && r !in s.calls :: r !in s.refunds && r in t.refunds
  }

  ghost predicate Evolves(s: Store, t: Store) {
    && BookingsEvolve(s.bookings, t.bookings)
    && PaymentsEvolve(s.payments, t.payments)
    && RefundsEvolve(s.refunds, t.refunds)
    && SessionsEvolve(s.sessions, t.sessions)
    && EventsEvolve(s.events, t.events)
    && CallsEvolve(s, t)
  }

  // One transaction leads from s to t.
  ghost predicate Good(s: Store, t: Store) {
    Inv(t) && Evolves(s, t)
  }

  lemma EmptyStoreInv()
    ensures Inv(EMPTY)
  {
  }

  lemma StayingIsGood(s: Store)
    requires Inv(s)
    ensures Good(s, s)
  {
  }

  /******* Parts of the invariant that a write leaves alone *******/

  lemma ReservationsKept(s: Store, t: Store)
    requires Reservations(s)
    requires s.bookings.Keys == t.bookings.Keys && BookingsEvolve(s.bookings, t.bookings)
    ensures Reservations(t)
  {
  }

  lemma PaymentsKept(s: Store, t: Store)
    requires Payments(s)
    requires t.payments == s.payments && t.attempts == s.attempts
    requires BookingsEvolve(s.bookings, t.bookings)
    ensures Payments(t)
  {
  }

  lemma RefundsKept(s: Store, t: Store)
    requires Refunds(s)
    requires t.refunds == s.refunds && t.calls == s.calls
    requires BookingsEvolve(s.bookings, t.bookings) && PaymentsEvolve(s.payments, t.payments)
    requires forall p | p in t.payments && t.payments[p].status.Refunded? ::
               p in s.payments && s.payments[p].status.Refunded?
    ensures Refunds(t)
  {
  }

  ghost predicate SameUse(x: map<Id, Booking>, y: map<Id, Booking>) {
    forall b | b in y && (y[b].status.Active? || y[b].status.Completed?) :: b in x && x[b] == y[b]
  }

  lemma SessionsKept(s: Store, t: Store)
    requires Sessions(s)
    requires t.sessions == s.sessions
    requires BookingsEvolve(s.bookings, t.bookings) && SameUse(s.bookings, t.bookings)
    requires SameUse(t.bookings, s.bookings)
    ensures Sessions(t)
  {
  }

  ghost predicate StillCaptured(x: map<Id, Payment>, y: map<Id, Payment>) {
    forall p | p in x && x[p].status.Captured? :: p in y && y[p].status.Captured? && y[p].booking == x[p].booking
  }

  lemma CapturedKept(x: map<Id, Payment>, y: map<Id, Payment>, booking: Id)
    requires StillCaptured(x, y) && HasCaptured(x, booking)
    ensures HasCaptured(y, booking)
  {
    var p :| CapturedFor(x, booking, p);
    assert CapturedFor(y, booking, p);
  }

  lemma RefundKept(s: Store, t: Store, booking: Id)
    requires RefundsEvolve(s.refunds, t.refunds) && PaymentsEvolve(s.payments, t.payments)
    requires HasRefund(s.refunds, s.payments, booking)
    ensures HasRefund(t.refunds, t.payments, booking)
  {
    var r :| RefundOfBooking(s.refunds, s.payments, booking, r);
    assert RefundOfBooking(t.refunds, t.payments, booking, r);
  }

  // A paid booking only leaves the paid statuses by being cancelled with a refund.
  lemma AccountedKept(s: Store, t: Store, booking: Id)
    requires Evolves(s, t) && Accounted(s, booking)
    requires t.bookings[booking].status.Cancelled? ==>
               s.bookings[booking].status.Cancelled? || HasRefund(t.refunds, t.payments, booking)
    ensures Accounted(t, booking)
  {
    if HasRefund(s.refunds, s.payments, booking) {
      RefundKept(s, t, booking);
    }
  }

  // No payment was captured, lost its capture or lost its error, and paid bookings stay paid.
  lemma SettledKept(s: Store, t: Store)
    requires Settled(s) && Evolves(s, t)
    requires StillCaptured(s.payments, t.payments)
    requires forall p | p in t.payments && t.payments[p].status.Captured? && t.payments[p].error.None? ::
               p in s.payments && s.payments[p].status.Captured? && s.payments[p].error.None?
    requires forall b | b in t.bookings && PaidStatus(t.bookings[b].status) ::
               b in s.bookings && PaidStatus(s.bookings[b].status)
    requires forall b | b in s.bookings && PaidStatus(s.bookings[b].status) :: PaidStatus(t.bookings[b].status)
    ensures Settled(t)
  {
    forall b | b in t.bookings && PaidStatus(t.bookings[b].status)
      ensures HasCaptured(t.payments, b)
    {
      CapturedKept(s.payments, t.payments, b);
    }
    forall p | p in t.payments && t.payments[p].status.Captured? && t.payments[p].error.None?
      ensures Accounted(t, t.payments[p].booking)
    {
      AccountedKept(s, t, s.payments[p].booking);
    }
  }

  /******* Write: bookings leave the unpaid states *******/

  predicate Closes(x: Booking, y: Booking) {
    && BookingStep(x, y)
    && (x == y || ((x.status.Held? || x.status.PaymentPending?) && (y.status.Expired? || y.status.Cancelled?)))
  }

  ghost predicate OnlyCloses(x: map<Id, Booking>, y: map<Id, Booking>) {
    && x.Keys == y.Keys
    && forall b | b in x :: Closes(x[b], y[b])
  }

  lemma ClosingEvolves(s: Store, bookings: map<Id, Booking>)
    requires OnlyCloses(s.bookings, bookings)
    ensures Evolves(s, s.(bookings := bookings))
    ensures SameUse(s.bookings, bookings) && SameUse(bookings, s.bookings)
  {
  }

  lemma ClosingKeepsSettled(s: Store, bookings: map<Id, Booking>)
    requires Settled(s) && OnlyCloses(s.bookings, bookings)
    ensures Settled(s.(bookings := bookings))
  {
  }

  lemma ClosingIsGood(s: Store, bookings: map<Id, Booking>)
    requires Inv(s) && OnlyCloses(s.bookings, bookings)
    ensures Good(s, s.(bookings := bookings))
  {
    hide Reservations, Payments, Refunds, Settled, Sessions;
    var t := s.(bookings := bookings);
    ClosingEvolves(s, bookings);
    ReservationsKept(s, t);
    PaymentsKept(s, t);
    RefundsKept(s, t);
    ClosingKeepsSettled(s, bookings);
    SessionsKept(s, t);
  }

  /******* Write: a new hold in a free slot *******/

  lemma HoldKeepsReservations(s: Store, id: Id, h: Booking)
    requires Reservations(s) && id !in s.bookings
    requires h.startsAt < h.endsAt && h.version >= 1 && h.holdExpiresAt.Some?
    requires SlotFree(s.bookings, h.point, h.startsAt, h.endsAt)
    ensures Reservations(SetBooking(s, id, h))
  {
  }

  lemma HoldEvolves(s: Store, id: Id, h: Booking)
    requires id !in s.bookings && h.status.Held? && h.version == 1
    ensures Evolves(s, SetBooking(s, id, h))
    ensures SameUse(s.bookings, SetBooking(s, id, h).bookings)
    ensures SameUse(SetBooking(s, id, h).bookings, s.bookings)
  {
  }

  lemma HoldKeepsSettled(s: Store, id: Id, h: Booking)
    requires Settled(s) && id !in s.bookings && h.status.Held? && h.version == 1
    ensures Settled(SetBooking(s, id, h))
  {
  }

  lemma HoldingIsGood(s: Store, id: Id, h: Booking)
    requires Inv(s) && id !in s.bookings
    requires h.startsAt < h.endsAt && h.version == 1 && h.status.Held? && h.holdExpiresAt.Some?
    requires SlotFree(s.bookings, h.point, h.startsAt, h.endsAt)
    ensures Good(s, SetBooking(s, id, h))
  {
    hide Reservations, Payments, Refunds, Settled, Sessions;
    var t := SetBooking(s, id, h);
    HoldEvolves(s, id, h);
    HoldKeepsReservations(s, id, h);
    PaymentsKept(s, t);
    RefundsKept(s, t);
    HoldKeepsSettled(s, id, h);
    SessionsKept(s, t);
  }

  /******* Write: a payment attempt starts *******/

  function WithAttempt(s: Store, id: Id, y: Payment): Store
    requires y.booking in s.bookings
  {
    s.(payments := s.payments[id := y],
       bookings := s.bookings[y.booking := Moved(s.bookings[y.booking], PaymentPending)],
       attempts := s.attempts[id := Attempt(y.booking, y.subunits, y.currency)])
  }

  ghost predicate FreshAttempt(s: Store, id: Id, y: Payment) {
    && id !in s.payments
    && y.booking in s.bookings && s.bookings[y.booking].status.Held?
    && PaymentMatches(y, s.bookings[y.booking]) && PaymentRow(y)
    && y.status.Initiated?
    && forall p | p in s.payments :: s.payments[p].key != y.key
  }

  lemma AttemptKeepsPayments(s: Store, id: Id, y: Payment)
    requires Payments(s) && FreshAttempt(s, id, y)
    ensures Payments(WithAttempt(s, id, y))
  {
  }

  lemma AttemptEvolves(s: Store, id: Id, y: Payment)
    requires FreshAttempt(s, id, y)
    ensures Evolves(s, WithAttempt(s, id, y))
    ensures SameUse(s.bookings, WithAttempt(s, id, y).bookings)
    ensures SameUse(WithAttempt(s, id, y).bookings, s.bookings)
  {
  }

  lemma AttemptKeepsSettled(s: Store, id: Id, y: Payment)
    requires Settled(s) && FreshAttempt(s, id, y)
    ensures Settled(WithAttempt(s, id, y))
  {
    AttemptEvolves(s, id, y);
    SettledKept(s, WithAttempt(s, id, y));
  }

  lemma BeginningIsGood(s: Store, id: Id, y: Payment)
    requires Inv(s) && FreshAttempt(s, id, y)
    ensures Good(s, WithAttempt(s, id, y))
  {
    hide Reservations, Payments, Refunds, Settled, Sessions;
    var t := WithAttempt(s, id, y);
    AttemptEvolves(s, id, y);
    ReservationsKept(s, t);
    AttemptKeepsPayments(s, id, y);
    RefundsKept(s, t);
    AttemptKeepsSettled(s, id, y);
    SessionsKept(s, t);
  }

  /******* Write: a payment moves on, and its booking with it *******/

  // What a payment event may do to a payment y and its booking b.
  ghost predicate PaymentMove(y: Payment, b: Booking, y': Payment, b': Booking) {
    && PaymentStep(y, y') && PaymentRow(y')
    && (y'.status.Refunded? <==> y.status.Refunded?)
    && BookingStep(b, b')
    && (b' != b ==> b.status.PaymentPending? && !b'.status.Cancelled?)
    && (b'.status.Confirmed? && b' != b ==> y'.status.Captured?)
    && (y'.status.Captured? && y'.error.None? ==>
          || (y.status.Captured? && y.error.None?)
          || b'.status.Confirmed?)
  }

  ghost predicate IdsFree(payments: map<Id, Payment>, p: Id, y: Payment) {
    forall q | q in payments && q != p ::
      && !(y.orderId.Some? && payments[q].orderId == y.orderId)
      && !(y.providerPaymentId.Some? && payments[q].providerPaymentId == y.providerPaymentId)
  }

  ghost predicate CanMovePayment(s: Store, p: Id, y': Payment, b': Booking) {
    && p in s.payments && p !in s.attempts && s.payments[p].booking in s.bookings
    && PaymentMove(s.payments[p], s.bookings[s.payments[p].booking], y', b')
    && IdsFree(s.payments, p, y')
  }

  function WithPayment(s: Store, p: Id, y: Payment, b: Booking): Store {
    SetBooking(SetPayment(s, p, y), y.booking, b)
  }

  lemma PaymentMoveEvolves(s: Store, p: Id, y': Payment, b': Booking)
    requires CanMovePayment(s, p, y', b')
    ensures Evolves(s, WithPayment(s, p, y', b'))
    ensures SameUse(s.bookings, WithPayment(s, p, y', b').bookings)
    ensures SameUse(WithPayment(s, p, y', b').bookings, s.bookings)
  {
  }

  lemma PaymentMoveKeepsPayments(s: Store, p: Id, y': Payment, b': Booking)
    requires Payments(s) && CanMovePayment(s, p, y', b')
    ensures Payments(WithPayment(s, p, y', b'))
  {
  }

  lemma PaymentMoveKeepsSettled(s: Store, p: Id, y': Payment, b': Booking)
    requires Settled(s) && CanMovePayment(s, p, y', b')
    ensures Settled(WithPayment(s, p, y', b'))
  {
    var t := WithPayment(s, p, y', b');
    PaymentMoveEvolves(s, p, y', b');
    forall b | b in t.bookings && PaidStatus(t.bookings[b].status)
      ensures HasCaptured(t.payments, b)
    {
      if b in s.bookings && PaidStatus(s.bookings[b].status) {
        CapturedKept(s.payments, t.payments, b);
      } else {
        assert CapturedFor(t.payments, b, p);
      }
    }
    forall q | q in t.payments && t.payments[q].status.Captured? && t.payments[q].error.None?
      ensures Accounted(t, t.payments[q].booking)
    {
      if q != p || (s.payments[p].status.Captured? && s.payments[p].error.None?) {
        AccountedKept(s, t, t.payments[q].booking);
      }
    }
  }

  lemma MovingPaymentIsGood(s: Store, p: Id, y': Payment, b': Booking)
    requires Inv(s) && CanMovePayment(s, p, y', b')
    ensures Good(s, WithPayment(s, p, y', b'))
  {
    hide Reservations, Payments, Refunds, Settled, Sessions;
    var t := WithPayment(s, p, y', b');
    PaymentMoveEvolves(s, p, y', b');
    ReservationsKept(s, t);
    PaymentMoveKeepsPayments(s, p, y', b');
    RefundsKept(s, t);
    PaymentMoveKeepsSettled(s, p, y', b');
    SessionsKept(s, t);
  }

  /******* Write: a confirmed booking is cancelled and its refund requested *******/

  function WithRefund(s: Store, b: Id, row: Booking, r: Id, z: Refund, call: RefundCall): Store {
    s.(bookings := s.bookings[b := row], refunds := s.refunds[r := z], calls := s.calls[r := call])
  }

  ghost predicate FreshRefund(s: Store, b: Id, row: Booking, r: Id, z: Refund, call: RefundCall) {
    && r !in s.refunds
    && CapturedFor(s.payments, b, z.payment)
    && s.payments[z.payment].providerPaymentId == Some(call.providerPaymentId)
    && z.status.Requested? && z.providerRefundId.None?
    && RefundAgrees(z, s.payments[z.payment])
    && b in s.bookings && s.bookings[b].status.Confirmed? && row.status.Cancelled?
    && BookingStep(s.bookings[b], row)
    && call == RefundCall(b, z.payment, call.providerPaymentId, z.subunits, z.currency)
  }

  lemma RefundEvolves(s: Store, b: Id, row: Booking, r: Id, z: Refund, call: RefundCall)
    requires FreshRefund(s, b, row, r, z, call)
    ensures Evolves(s, WithRefund(s, b, row, r, z, call))
    ensures SameUse(s.bookings, WithRefund(s, b, row, r, z, call).bookings)
    ensures SameUse(WithRefund(s, b, row, r, z, call).bookings, s.bookings)
  {
  }

  // A refund exists only for a cancelled booking, so a confirmed one has none yet.
  lemma ConfirmedHasNoRefund(s: Store, b: Id)
    requires Refunds(s) && b in s.bookings && !s.bookings[b].status.Cancelled?
    ensures !HasRefund(s.refunds, s.payments, b)
  {
  }

  lemma RefundKeepsRefunds(s: Store, b: Id, row: Booking, r: Id, z: Refund, call: RefundCall)
    requires Refunds(s) && FreshRefund(s, b, row, r, z, call)
    ensures Refunds(WithRefund(s, b, row, r, z, call))
  {
    var t := WithRefund(s, b, row, r, z, call);
    ConfirmedHasNoRefund(s, b);
    forall x, y | x in t.refunds && y in t.refunds && x != y
      ensures !SameBooking(t.refunds[x], t.refunds[y], t.payments)
    {
      if x != r && y != r {
        assert !SameBooking(s.refunds[x], s.refunds[y], s.payments);
      } else {
        var other := if x == r then y else x;
        assert !RefundOfBooking(s.refunds, s.payments, b, other);
      }
    }
    forall p | p in t.payments && t.payments[p].status.Refunded?
      ensures PaidBack(t.refunds, p)
    {
      assert PaidBack(s.refunds, p);
      var q :| RefundOf(s.refunds, p, q) && s.refunds[q].status.Processed?;
      assert RefundOf(t.refunds, p, q);
    }
  }

  lemma RefundKeepsSettled(s: Store, b: Id, row: Booking, r: Id, z: Refund, call: RefundCall)
    requires Settled(s) && FreshRefund(s, b, row, r, z, call)
    ensures Settled(WithRefund(s, b, row, r, z, call))
  {
    var t := WithRefund(s, b, row, r, z, call);
    RefundEvolves(s, b, row, r, z, call);
    assert RefundOfBooking(t.refunds, t.payments, b, r);
    forall q | q in t.payments && t.payments[q].status.Captured? && t.payments[q].error.None?
      ensures Accounted(t, t.payments[q].booking)
    {
      AccountedKept(s, t, t.payments[q].booking);
    }
  }

  lemma OpeningRefundIsGood(s: Store, b: Id, row: Booking, r: Id, z: Refund, call: RefundCall)
    requires Inv(s) && FreshRefund(s, b, row, r, z, call)
    ensures Good(s, WithRefund(s, b, row, r, z, call))
  {
    hide Reservations, Payments, Refunds, Settled, Sessions;
    var t := WithRefund(s, b, row, r, z, call);
    RefundEvolves(s, b, row, r, z, call);
    ReservationsKept(s, t);
    PaymentsKept(s, t);
    RefundKeepsRefunds(s, b, row, r, z, call);
    RefundKeepsSettled(s, b, row, r, z, call);
    SessionsKept(s, t);
  }

  /******* Write: a refund moves on, and its payment with it *******/

  function RefundedPayment(z: Refund, y: Payment): Payment {
    if z.status.Processed? then y.(status := Refunded) else y
  }

  function WithRefundRow(s: Store, r: Id, z: Refund): Store
    requires z.payment in s.payments
  {
    SetPayment(SetRefund(s, r, z), z.payment, RefundedPayment(z, s.payments[z.payment]))
  }

  ghost predicate CanMoveRefund(s: Store, r: Id, z': Refund) {
    && r in s.refunds && z'.payment in s.payments
    && RefundStep(s.refunds[r], z')
    && (z'.status.Requested? ==> z'.providerRefundId.None?)
    && (z'.status.Pending? || z'.status.Processed? ==> z'.providerRefundId.Some?)
    && forall q | q in s.refunds && q != r ::
         !(z'.providerRefundId.Some? && s.refunds[q].providerRefundId == z'.providerRefundId)
  }

  lemma RefundMoveEvolves(s: Store, r: Id, z': Refund)
    requires Refunds(s) && CanMoveRefund(s, r, z')
    ensures Evolves(s, WithRefundRow(s, r, z'))
  {
  }

  lemma RefundMoveKeepsPayments(s: Store, r: Id, z': Refund)
    requires Payments(s) && Refunds(s) && CanMoveRefund(s, r, z')
    ensures Payments(WithRefundRow(s, r, z'))
  {
  }

  lemma OnePaymentOneRefund(s: Store, r: Id, q: Id)
    requires Refunds(s) && r in s.refunds && q in s.refunds && s.refunds[r].payment == s.refunds[q].payment
    ensures r == q
  {
  }

  lemma RefundMoveKeepsRefunds(s: Store, r: Id, z': Refund)
    requires Refunds(s) && CanMoveRefund(s, r, z')
    ensures Refunds(WithRefundRow(s, r, z'))
  {
    var t := WithRefundRow(s, r, z');
    forall q | q in s.refunds && s.refunds[q].payment == z'.payment
      ensures q == r
    {
      OnePaymentOneRefund(s, r, q);
    }
    forall x, y | x in t.refunds && y in t.refunds && x != y
      ensures !SameBooking(t.refunds[x], t.refunds[y], t.payments)
    {
      assert !SameBooking(s.refunds[x], s.refunds[y], s.payments);
    }
    forall p | p in t.payments && t.payments[p].status.Refunded?
      ensures PaidBack(t.refunds, p)
    {
      if p == z'.payment {
        assert RefundOf(t.refunds, p, r);
      } else {
        assert PaidBack(s.refunds, p);
        var q :| RefundOf(s.refunds, p, q) && s.refunds[q].status.Processed?;
        assert RefundOf(t.refunds, p, q);
      }
    }
  }

  // The refunded payment's booking is cancelled, so no paid booking loses its capture.
  lemma RefundMoveKeepsSettled(s: Store, r: Id, z': Refund)
    requires Settled(s) && Refunds(s) && CanMoveRefund(s, r, z')
    ensures Settled(WithRefundRow(s, r, z'))
  {
    var t := WithRefundRow(s, r, z');
    RefundMoveEvolves(s, r, z');
    forall b | b in t.bookings && PaidStatus(t.bookings[b].status)
      ensures HasCaptured(t.payments, b)
    {
      assert HasCaptured(s.payments, b);
      var p :| CapturedFor(s.payments, b, p);
      assert CapturedFor(t.payments, b, p);
    }
    forall q | q in t.payments && t.payments[q].status.Captured? && t.payments[q].error.None?
      ensures Accounted(t, t.payments[q].booking)
    {
      AccountedKept(s, t, t.payments[q].booking);
    }
  }

  lemma MovingRefundIsGood(s: Store, r: Id, z': Refund)
    requires Inv(s) && CanMoveRefund(s, r, z')
    ensures Good(s, WithRefundRow(s, r, z'))
  {
    hide Reservations, Payments, Refunds, Settled, Sessions;
    var t := WithRefundRow(s, r, z');
    RefundMoveEvolves(s, r, z');
    ReservationsKept(s, t);
    RefundMoveKeepsPayments(s, r, z');
    RefundMoveKeepsRefunds(s, r, z');
    RefundMoveKeepsSettled(s, r, z');
    SessionsKept(s, t);
  }

  /******* Write: a charging session starts or ends, and its booking with it *******/

  function WithSession(s: Store, x: Id, row: Session, b: Booking): Store {
    SetBooking(s, row.booking, b).(sessions := s.sessions[x := row])
  }

  ghost predicate CanWriteSession(s: Store, x: Id, row: Session, b: Booking) {
    && row.booking in s.bookings
    && BookingStep(s.bookings[row.booking], b) && SessionRow(row, b)
    && (if x in s.sessions then
          && SessionStep(s.sessions[x], row)
          && s.bookings[row.booking].status.Active? && b.status.Completed?
        else
          && s.bookings[row.booking].status.Confirmed? && b.status.Active?
          && !BookingHasSession(s.sessions, row.booking)
          && !PointBusy(s.sessions, row.point))
  }

  lemma SessionWriteEvolves(s: Store, x: Id, row: Session, b: Booking)
    requires CanWriteSession(s, x, row, b)
    ensures Evolves(s, WithSession(s, x, row, b))
  {
  }

  lemma SessionWriteKeepsSettled(s: Store, x: Id, row: Session, b: Booking)
    requires Settled(s) && CanWriteSession(s, x, row, b)
    ensures Settled(WithSession(s, x, row, b))
  {
  }

  lemma SessionWriteKeepsSessions(s: Store, x: Id, row: Session, b: Booking)
    requires Sessions(s) && CanWriteSession(s, x, row, b)
    ensures Sessions(WithSession(s, x, row, b))
  {
    var t := WithSession(s, x, row, b);
    forall k | k in t.bookings && (t.bookings[k].status.Active? || t.bookings[k].status.Completed?)
      ensures HasSession(t.sessions, k)
    {
      if k == row.booking {
        assert x in t.sessions;
      } else {
        assert HasSession(s.sessions, k);
        var j :| j in s.sessions && s.sessions[j].booking == k;
        assert j in t.sessions && t.sessions[j].booking == k;
      }
    }
  }

  lemma WritingSessionIsGood(s: Store, x: Id, row: Session, b: Booking)
    requires Inv(s) && CanWriteSession(s, x, row, b)
    ensures Good(s, WithSession(s, x, row, b))
  {
    hide Reservations, Payments, Refunds, Settled, Sessions;
    var t := WithSession(s, x, row, b);
    SessionWriteEvolves(s, x, row, b);
    ReservationsKept(s, t);
    PaymentsKept(s, t);
    RefundsKept(s, t);
    SessionWriteKeepsSettled(s, x, row, b);
    SessionWriteKeepsSessions(s, x, row, b);
  }
}
