/**
 The shared tables of the booking backend and the transactions that change them.

 A Store is the committed content of the tables plus the provider calls that are
 still in progress. Each function below is one committed transaction: it takes the
 store, its own clock reading and everything the outside world chose (fresh ids,
 provider answers, which row a query without ORDER BY returned), and gives the new
 store and the reply. A rolled back transaction gives the store back unchanged.
 */
module Ledger {
  import opened Wrappers

  // UUIDs, provider identifiers and digests are only ever compared, so a number stands for each.
  type Id = int
  // Seconds.
  type Time = int

  const HOLD_SECONDS: int := 600
  const EARLY_START_SECONDS: int := 900
  const CURRENCY_SUBUNITS: real := 100.0

  datatype Currency = Inr | Foreign(code: Id)

  datatype BookingStatus = Held | PaymentPending | Confirmed | Active | Completed | Cancelled | Expired

  datatype Booking = Booking(
    user: Id, point: Id, startsAt: Time, endsAt: Time, holdExpiresAt: Option<Time>,
    status: BookingStatus, amount: Option<real>, currency: Currency, version: int,
    cancelledAt: Option<Time>)

  datatype PaymentStatus = Initiated | OrderCreated | Authorized | Failed | Captured | Refunded

  datatype ErrorCode =
    | ProviderAmountMismatch | ProviderPaymentIdMismatch | CapturedAfterBookingClosed
    | BookingStateChanged | ProviderOrderFailed
    | ProviderRefundAmountMismatch | ProviderRefundIdMismatch | ProviderRefundFailed
    | ProviderNotConfigured

  datatype Payment = Payment(
    booking: Id, user: Id, status: PaymentStatus, amount: real, subunits: int, currency: Currency,
    key: Id, orderId: Option<Id>, providerPaymentId: Option<Id>, error: Option<ErrorCode>)

  datatype RefundStatus = Requested | Pending | Processed | Rejected

  datatype Refund = Refund(
    payment: Id, status: RefundStatus, amount: real, subunits: int, currency: Currency,
    providerRefundId: Option<Id>, error: Option<ErrorCode>, processedAt: Option<Time>, createdAt: Time)

  datatype SessionStatus = Charging | Finished | Interrupted

  datatype Session = Session(
    booking: Id, user: Id, point: Id, status: SessionStatus, startedAt: Time, endedAt: Option<Time>,
    meterStart: real, meterEnd: Option<real>, energy: Option<real>, version: int)

  datatype ChargePoint = ChargePoint(
    owner: Id, stationActive: bool, bookable: bool, available: bool, fee: real)

  datatype EventStatus = ProcessedEvent | IgnoredEvent
  datatype EventRecord = EventRecord(digest: Id, status: EventStatus)

  // PaymentAttemptSnapshot: a provider order call that has not been answered yet.
  datatype Attempt = Attempt(booking: Id, subunits: int, currency: Currency)
  // RefundRequestSnapshot: a provider refund call that has not been answered yet.
  datatype RefundCall = RefundCall(
    booking: Id, payment: Id, providerPaymentId: Id, subunits: int, currency: Currency)

  datatype Store = Store(
    points: map<Id, ChargePoint>,
    bookings: map<Id, Booking>,
    payments: map<Id, Payment>,
    refunds: map<Id, Refund>,
    sessions: map<Id, Session>,
    events: map<Id, EventRecord>,
    attempts: map<Id, Attempt>,
    calls: map<Id, RefundCall>)

  const EMPTY := Store(map[], map[], map[], map[], map[], map[], map[], map[])

  datatype Reply =
    | Done | Conflict | Unavailable | TimeError | Forbidden | MeterError
    | AuthenticationError | PayloadError | VerificationError | ServerError | NotInFlight
    | ExistingCheckout(payment: Id) | Started(payment: Id)
    | RefundStarted(refund: Id) | ExistingRefund(refund: Id)
    | Duplicate | WebhookProcessed | WebhookIgnored
    | Unchanged | Reconciled(status: RefundAnswer)
    | Rows(rows: map<Id, Booking>)

  datatype Effect = Effect(store: Store, reply: Reply)

  /******* Bookings: holds and their expiry *******/

  // timestamp_is_after: an absent timestamp is never after anything.
  predicate After(t: Option<Time>, now: Time) {
    t.Some? && t.value > now
  }

  // The WHERE clause of every expiry update; SQL's NULL <= now does not hold.
  predicate Stale(b: Booking, now: Time) {
    b.status.Held? && b.holdExpiresAt.Some? && b.holdExpiresAt.value <= now
  }

  function Moved(b: Booking, status: BookingStatus): Booking {
    b.(status := status, version := b.version + 1)
  }

  function SweptRow(b: Booking, now: Time): Booking {
    if Stale(b, now) then Moved(b, Expired) else b
  }

  function SweepTable(bookings: map<Id, Booking>, now: Time, ids: set<Id>): map<Id, Booking> {
    map b | b in bookings :: if b in ids then SweptRow(bookings[b], now) else bookings[b]
  }

  // Expire those of the given bookings that are stale.
  function Sweep(s: Store, now: Time, ids: set<Id>): Store {
    s.(bookings := SweepTable(s.bookings, now, ids))
  }

  function BookingsOfUser(bookings: map<Id, Booking>, user: Id): set<Id> {
    set b | b in bookings && bookings[b].user == user
  }

  function BookingsAtPoint(bookings: map<Id, Booking>, point: Id): set<Id> {
    set b | b in bookings && bookings[b].point == point
  }

  predicate Blocking(status: BookingStatus) {
    status.Held? || status.PaymentPending? || status.Confirmed? || status.Active?
  }

  predicate Overlaps(b: Booking, point: Id, startsAt: Time, endsAt: Time) {
    b.point == point && Blocking(b.status) && b.startsAt < endsAt && b.endsAt > startsAt
  }

  predicate SlotFree(bookings: map<Id, Booking>, point: Id, startsAt: Time, endsAt: Time) {
    forall b | b in bookings :: !Overlaps(bookings[b], point, startsAt, endsAt)
  }

  predicate AcceptsBookings(points: map<Id, ChargePoint>, point: Id) {
    && point in points
    && points[point].bookable
    && points[point].available
    && points[point].stationActive
  }

  datatype HoldRequest = HoldRequest(now: Time, user: Id, point: Id, startsAt: Time, endsAt: Time)

  function NewHold(r: HoldRequest, fee: real): Booking {
    Booking(r.user, r.point, r.startsAt, r.endsAt, Some(r.now + HOLD_SECONDS), Held, Some(fee), Inr, 1, None)
  }

  // A hold whose transaction expired the bookings in swept before it looked for overlaps.
  function CommitHold(s: Store, r: HoldRequest, swept: set<Id>, id: Id): Effect {
    if r.startsAt <= r.now then Effect(s, TimeError)
    else if !AcceptsBookings(s.points, r.point) then Effect(s, Unavailable)
    else
      var t := Sweep(s, r.now, swept);
      if !SlotFree(t.bookings, r.point, r.startsAt, r.endsAt) then Effect(s, Unavailable)
      // Check constraint positive_duration and the primary key.
      else if r.endsAt <= r.startsAt || id in s.bookings then Effect(s, Unavailable)
      else Effect(SetBooking(t, id, NewHold(r, s.points[r.point].fee)), Done)
  }

  // create_booking_hold: expires every stale hold of the charge point first.
  function CreateHold(s: Store, r: HoldRequest, id: Id): Effect {
    CommitHold(s, r, BookingsAtPoint(s.bookings, r.point), id)
  }

  function RowsOfUser(bookings: map<Id, Booking>, user: Id): map<Id, Booking> {
    map b | b in bookings && bookings[b].user == user :: bookings[b]
  }

  // find_user_bookings and get_user_booking: expire the user's stale holds, then read.
  function ListBookings(s: Store, now: Time, user: Id): Effect {
    var swept := Sweep(s, now, BookingsOfUser(s.bookings, user));
    Effect(swept, Rows(RowsOfUser(swept.bookings, user)))
  }

  /******* Payments *******/

  ghost predicate HasKey(payments: map<Id, Payment>, key: Id, p: Id) {
    p in payments && payments[p].key == key
  }

  ghost predicate HasOrder(payments: map<Id, Payment>, order: Id, p: Id) {
    p in payments && payments[p].orderId == Some(order)
  }

  ghost predicate HasProviderPayment(payments: map<Id, Payment>, providerPayment: Id, p: Id) {
    p in payments && payments[p].providerPaymentId == Some(providerPayment)
  }

  // The queries by a unique column, each over the table it reads.
  ghost function PaymentWithKey(payments: map<Id, Payment>, key: Id): (p: Option<Id>)
    ensures if p.Some? then HasKey(payments, key, p.value) else forall q :: !HasKey(payments, key, q)
  {
    if exists q :: HasKey(payments, key, q) then var q :| HasKey(payments, key, q); Some(q) else None
  }

  ghost function PaymentWithOrder(payments: map<Id, Payment>, order: Id): (p: Option<Id>)
    ensures if p.Some? then HasOrder(payments, order, p.value) else forall q :: !HasOrder(payments, order, q)
  {
    if exists q :: HasOrder(payments, order, q) then var q :| HasOrder(payments, order, q); Some(q) else None
  }

  ghost function PaymentWithProviderId(payments: map<Id, Payment>, providerPayment: Id): (p: Option<Id>)
    ensures if p.Some? then HasProviderPayment(payments, providerPayment, p.value)
            else forall q :: !HasProviderPayment(payments, providerPayment, q)
  {
    if exists q :: HasProviderPayment(payments, providerPayment, q)
    then var q :| HasProviderPayment(payments, providerPayment, q); Some(q) else None
  }

  // Unique constraints: some row other than p already holds the value.
  predicate OrderTaken(payments: map<Id, Payment>, order: Id, p: Id) {
    exists q | q in payments :: q != p && payments[q].orderId == Some(order)
  }

  predicate ProviderPaymentTaken(payments: map<Id, Payment>, providerPayment: Id, p: Id) {
    exists q | q in payments :: q != p && payments[q].providerPaymentId == Some(providerPayment)
  }

  predicate CanEnterPayment(b: Booking, version: int, now: Time) {
    && b.status.Held?
    && b.version == version
    && After(b.holdExpiresAt, now)
    && b.amount.Some?
    && b.amount.value > 0.0
  }

  // _to_currency_subunits: None stands for the conflict it raises.
  function ToSubunits(amount: real): Option<int> {
    var subunits := amount * CURRENCY_SUBUNITS;
    if subunits == subunits.Floor as real then Some(subunits.Floor) else None
  }

  function SetPayment(s: Store, p: Id, y: Payment): Store {
    s.(payments := s.payments[p := y])
  }

  function SetBooking(s: Store, b: Id, row: Booking): Store {
    s.(bookings := s.bookings[b := row])
  }

  function SetSession(s: Store, x: Id, row: Session): Store {
    s.(sessions := s.sessions[x := row])
  }

  // _existing_checkout
  function ExistingOrder(y: Payment, p: Id, user: Id, booking: Id): Reply {
    if y.user != user || y.booking != booking || !y.status.OrderCreated? then Conflict else ExistingCheckout(p)
  }

  function NewPayment(b: Booking, booking: Id, subunits: int, key: Id): Payment
    requires b.amount.Some?
  {
    Payment(booking, b.user, Initiated, b.amount.value, subunits, b.currency, key, None, None, None)
  }

  // _begin_payment_attempt
  function BeginAttempt(s: Store, now: Time, user: Id, booking: Id, version: int, key: Id, id: Id): Effect {
    if booking !in s.bookings || s.bookings[booking].user != user then Effect(s, Conflict)
    else
      var b := s.bookings[booking];
      if !CanEnterPayment(b, version, now) || ToSubunits(b.amount.value).None? || id in s.payments
      then Effect(s, Conflict)
      else
        var y := NewPayment(b, booking, ToSubunits(b.amount.value).value, key);
        Effect(
          s.(payments := s.payments[id := y],
             bookings := s.bookings[booking := Moved(b, PaymentPending)],
             attempts := s.attempts[id := Attempt(booking, y.subunits, y.currency)]),
          Started(id))
  }

  // create_payment_order up to the provider call.
  ghost function BeginPayment(
    s: Store, now: Time, user: Id, booking: Id, version: int, key: Id, id: Id): Effect
  {
    match PaymentWithKey(s.payments, key)
    case Some(p) => Effect(s, ExistingOrder(s.payments[p], p, user, booking))
    case None => BeginAttempt(s, now, user, booking, version, key, id)
  }

  // _finalize_provider_order. A missing row is an AttributeError: rolled back, reported as a server error.
  function FinalizeOrder(s: Store, p: Id, order: Id): Effect {
    if p !in s.attempts then Effect(s, NotInFlight)
    else
      var b := s.attempts[p].booking;
      var rest := s.(attempts := s.attempts - {p});
      if p !in s.payments || b !in s.bookings || OrderTaken(s.payments, order, p)
      then Effect(rest, ServerError)
      else
        var y := s.payments[p].(orderId := Some(order));
        if !y.status.Initiated? || !s.bookings[b].status.PaymentPending?
        then Effect(SetPayment(rest, p, y.(status := Failed, error := Some(BookingStateChanged))), Conflict)
        else Effect(SetPayment(rest, p, y.(status := OrderCreated)), Done)
  }

  // A booking whose payment attempt ended goes back to its hold, if the hold still stands.
  function Released(b: Booking, now: Time): Booking {
    if !b.status.PaymentPending? then b
    else if After(b.holdExpiresAt, now) then Moved(b, Held)
    else Moved(b, Expired)
  }

  // _compensate_provider_failure
  function CompensateFailure(s: Store, now: Time, p: Id): Effect {
    if p !in s.attempts then Effect(s, NotInFlight)
    else
      var b := s.attempts[p].booking;
      var rest := s.(attempts := s.attempts - {p});
      if p !in s.payments || b !in s.bookings then Effect(rest, ServerError)
      else
        var y := s.payments[p];
        var y' := if y.status.Initiated? then y.(status := Failed, error := Some(ProviderOrderFailed)) else y;
        Effect(SetBooking(SetPayment(rest, p, y'), b, Released(s.bookings[b], now)), Done)
  }

  // verify_checkout_payment; signed says whether the checkout signature verifies.
  ghost function VerifyCheckout(s: Store, user: Id, order: Id, providerPayment: Id, signed: bool): Effect {
    if PaymentWithOrder(s.payments, order).None? then Effect(s, VerificationError)
    else
      var p := PaymentWithOrder(s.payments, order).value;
      var y := s.payments[p];
      if y.user != user || !signed then Effect(s, VerificationError)
      else if y.providerPaymentId.Some? && y.providerPaymentId.value != providerPayment
      then Effect(s, VerificationError)
      else if y.providerPaymentId.Some? && (y.status.Authorized? || y.status.Captured?) then Effect(s, Done)
      else if !y.status.OrderCreated? || ProviderPaymentTaken(s.payments, providerPayment, p)
      then Effect(s, VerificationError)
      else Effect(SetPayment(s, p, y.(providerPaymentId := Some(providerPayment), status := Authorized)), Done)
  }

  /******* Webhooks *******/

  datatype PaymentEventKind = PaymentAuthorized | PaymentCaptured | PaymentFailed
  datatype RefundEventKind = RefundProcessed | RefundFailed

  datatype Body =
    | NotJson
    | UnsupportedEvent
    | BadEntity
    | PaymentEvent(kind: PaymentEventKind, order: Id, payment: Id, amount: Option<int>, currency: Option<Currency>)
    | RefundEvent(refundKind: RefundEventKind, refund: Id, payment: Id, amount: Option<int>, currency: Option<Currency>)

  // signed: an event id is present and the signature over the raw body verifies.
  datatype Delivery = Delivery(event: Id, digest: Id, signed: bool, body: Body)

  // _apply_captured_payment; y already carries the provider payment id.
  function ApplyCaptured(s: Store, p: Id, y: Payment): Effect {
    if y.status.Refunded? then Effect(SetPayment(s, p, y), WebhookProcessed)
    else if y.booking !in s.bookings then Effect(s, ServerError)
    else
      var b := s.bookings[y.booking];
      var paid := y.(status := Captured);
      if b.status.PaymentPending?
      then Effect(SetBooking(SetPayment(s, p, paid), y.booking, Moved(b, Confirmed)), WebhookProcessed)
      else if b.status.Confirmed? then Effect(SetPayment(s, p, paid), WebhookProcessed)
      else Effect(SetPayment(s, p, paid.(error := Some(CapturedAfterBookingClosed))), WebhookProcessed)
  }

  // _apply_failed_payment
  function ApplyFailed(s: Store, now: Time, p: Id, y: Payment): Effect {
    if y.status.Captured? || y.status.Refunded? then Effect(SetPayment(s, p, y), WebhookProcessed)
    else if y.booking !in s.bookings then Effect(s, ServerError)
    else
      Effect(
        SetBooking(SetPayment(s, p, y.(status := Failed)), y.booking, Released(s.bookings[y.booking], now)),
        WebhookProcessed)
  }

  // _apply_payment_event once the event is believed; y already carries the provider payment id.
  function AcceptPaymentEvent(s: Store, now: Time, kind: PaymentEventKind, p: Id, y: Payment): Effect {
    match kind
    case PaymentAuthorized =>
      Effect(SetPayment(s, p, if y.status.OrderCreated? then y.(status := Authorized) else y), WebhookProcessed)
    case PaymentCaptured => ApplyCaptured(s, p, y)
    case PaymentFailed => ApplyFailed(s, now, p, y)
  }

  // _apply_payment_event once the row of its order is found.
  function PaymentEventOn(s: Store, now: Time, e: Body, p: Id): Effect
    requires e.PaymentEvent? && p in s.payments
  {
    var y := s.payments[p];
    if e.amount != Some(y.subunits) || e.currency != Some(y.currency)
    then Effect(SetPayment(s, p, y.(error := Some(ProviderAmountMismatch))), WebhookIgnored)
    else if y.providerPaymentId.Some? && y.providerPaymentId.value != e.payment
    then Effect(SetPayment(s, p, y.(error := Some(ProviderPaymentIdMismatch))), WebhookIgnored)
    else if ProviderPaymentTaken(s.payments, e.payment, p) then Effect(s, ServerError)
    else AcceptPaymentEvent(s, now, e.kind, p, y.(providerPaymentId := Some(e.payment)))
  }

  // _apply_payment_event
  ghost function ApplyPaymentEvent(s: Store, now: Time, e: Body): Effect
    requires e.PaymentEvent?
  {
    match PaymentWithOrder(s.payments, e.order)
    case None => Effect(s, WebhookIgnored)
    case Some(p) => PaymentEventOn(s, now, e, p)
  }

  ghost predicate RefundOf(refunds: map<Id, Refund>, p: Id, r: Id) {
    r in refunds && refunds[r].payment == p
  }

  ghost function FindRefund(refunds: map<Id, Refund>, p: Id): (r: Option<Id>)
    ensures if r.Some? then RefundOf(refunds, p, r.value) else forall q :: !RefundOf(refunds, p, q)
  {
    if exists q :: RefundOf(refunds, p, q) then var q :| RefundOf(refunds, p, q); Some(q) else None
  }

  predicate ProviderRefundTaken(refunds: map<Id, Refund>, providerRefund: Id, r: Id) {
    exists q | q in refunds :: q != r && refunds[q].providerRefundId == Some(providerRefund)
  }

  function SetRefund(s: Store, r: Id, z: Refund): Store {
    s.(refunds := s.refunds[r := z])
  }

  // _apply_refund_event once the event is believed; z already carries the provider refund id.
  function AcceptRefundEvent(s: Store, now: Time, kind: RefundEventKind, r: Id, z: Refund): Effect {
    if kind.RefundProcessed? then
      if z.payment !in s.payments then Effect(s, ServerError)
      else
        Effect(
          SetPayment(
            SetRefund(s, r, z.(status := Processed, processedAt := Some(now))),
            z.payment, s.payments[z.payment].(status := Refunded)),
          WebhookProcessed)
    else if z.status.Processed? then Effect(SetRefund(s, r, z), WebhookProcessed)
    else Effect(SetRefund(s, r, z.(status := Rejected, error := Some(ProviderRefundFailed))), WebhookProcessed)
  }

  // _apply_refund_event once the refund of its payment is found.
  function RefundEventOn(s: Store, now: Time, e: Body, r: Id): Effect
    requires e.RefundEvent? && r in s.refunds
  {
    var z := s.refunds[r];
    if e.amount != Some(z.subunits) || e.currency != Some(z.currency)
    then Effect(SetRefund(s, r, z.(error := Some(ProviderRefundAmountMismatch))), WebhookIgnored)
    else if z.providerRefundId.Some? && z.providerRefundId.value != e.refund
    then Effect(SetRefund(s, r, z.(error := Some(ProviderRefundIdMismatch))), WebhookIgnored)
    else if ProviderRefundTaken(s.refunds, e.refund, r) then Effect(s, ServerError)
    else AcceptRefundEvent(s, now, e.refundKind, r, z.(providerRefundId := Some(e.refund)))
  }

  // _apply_refund_event
  ghost function ApplyRefundEvent(s: Store, now: Time, e: Body): Effect
    requires e.RefundEvent?
  {
    match PaymentWithProviderId(s.payments, e.payment)
    case None => Effect(s, WebhookIgnored)
    case Some(p) =>
      match FindRefund(s.refunds, p)
      case None => Effect(s, WebhookIgnored)
      case Some(r) => RefundEventOn(s, now, e, r)
  }

  ghost function ApplyEvent(s: Store, now: Time, e: Body): Effect {
    match e
    case NotJson => Effect(s, PayloadError)
    case UnsupportedEvent => Effect(s, WebhookIgnored)
    case BadEntity => Effect(s, PayloadError)
    case PaymentEvent(_, _, _, _, _) => ApplyPaymentEvent(s, now, e)
    case RefundEvent(_, _, _, _, _) => ApplyRefundEvent(s, now, e)
  }

  // Applying an event leaves the event table alone; s has the table it found.
  function RecordEvent(s: Store, applied: Store, d: Delivery, status: EventStatus): Store {
    applied.(events := s.events[d.event := EventRecord(d.digest, status)])
  }

  // process_razorpay_webhook
  ghost function ProcessWebhook(s: Store, now: Time, d: Delivery): Effect {
    if !d.signed then Effect(s, AuthenticationError)
    else if d.body.NotJson? then Effect(s, PayloadError)
    else if d.event in s.events then
      Effect(s, if s.events[d.event].digest == d.digest then Duplicate else AuthenticationError)
    else
      var applied := ApplyEvent(s, now, d.body);
      if applied.reply.WebhookProcessed? then Effect(RecordEvent(s, applied.store, d, ProcessedEvent), WebhookProcessed)
      else if applied.reply.WebhookIgnored? then Effect(RecordEvent(s, applied.store, d, IgnoredEvent), WebhookIgnored)
      else Effect(s, applied.reply)
  }

  /******* Cancellation and refunds *******/

  ghost predicate RefundOfBooking(
    refunds: map<Id, Refund>, payments: map<Id, Payment>, booking: Id, r: Id)
  {
    && r in refunds
    && refunds[r].payment in payments
    && payments[refunds[r].payment].booking == booking
  }

  ghost function FindBookingRefund(
    refunds: map<Id, Refund>, payments: map<Id, Payment>, booking: Id): (r: Option<Id>)
    ensures if r.Some? then RefundOfBooking(refunds, payments, booking, r.value)
            else forall q :: !RefundOfBooking(refunds, payments, booking, q)
  {
    if exists q :: RefundOfBooking(refunds, payments, booking, q)
    then var q :| RefundOfBooking(refunds, payments, booking, q); Some(q) else None
  }

  predicate CapturedFor(payments: map<Id, Payment>, booking: Id, p: Id) {
    p in payments && payments[p].booking == booking && payments[p].status.Captured?
  }

  function CancelledRow(b: Booking, now: Time): Booking {
    Moved(b, Cancelled).(cancelledAt := Some(now))
  }

  // Cancel a paid booking and open the refund id for its captured payment.
  function OpenRefund(s: Store, now: Time, booking: Id, pick: Id, id: Id): Store
    requires booking in s.bookings && pick in s.payments && s.payments[pick].providerPaymentId.Some?
  {
    var y := s.payments[pick];
    var z := Refund(pick, Requested, y.amount, y.subunits, y.currency, None, None, None, now);
    var call := RefundCall(booking, pick, y.providerPaymentId.value, y.subunits, y.currency);
    s.(bookings := s.bookings[booking := CancelledRow(s.bookings[booking], now)],
       refunds := s.refunds[id := z],
       calls := s.calls[id := call])
  }

  // _prepare_cancellation; pick is the captured payment the query returned, if there is one.
  ghost function PrepareCancellation(
    s: Store, now: Time, user: Id, booking: Id, version: int, pick: Id, id: Id): Effect
  {
    if booking !in s.bookings || s.bookings[booking].user != user then Effect(s, Conflict)
    else
      var b := s.bookings[booking];
      if b.status.Cancelled? then
        match FindBookingRefund(s.refunds, s.payments, booking)
        case Some(r) => Effect(s, ExistingRefund(r))
        case None => Effect(s, Conflict)
      else if b.version != version then Effect(s, Conflict)
      else if b.status.Held? || b.status.PaymentPending? then
        if b.status.Held? && !After(b.holdExpiresAt, now) then Effect(s, Conflict)
        else Effect(SetBooking(s, booking, CancelledRow(b, now)), Done)
      else if !b.status.Confirmed? then Effect(s, Conflict)
      else if !CapturedFor(s.payments, booking, pick) || s.payments[pick].providerPaymentId.None?
      then Effect(s, Conflict)
      // Primary key and unique payment_id of the refunds table.
      else if id in s.refunds || FindRefund(s.refunds, pick).Some? then Effect(s, Conflict)
      else Effect(OpenRefund(s, now, booking, pick, id), RefundStarted(id))
  }

  // _record_refund_failure
  function RecordRefundFailure(s: Store, r: Id, code: ErrorCode): Effect {
    if r !in s.calls then Effect(s, NotInFlight)
    else
      var rest := s.(calls := s.calls - {r});
      if r !in s.refunds then Effect(rest, ServerError)
      else if s.refunds[r].status.Requested?
      then Effect(SetRefund(rest, r, s.refunds[r].(status := Rejected, error := Some(code))), Done)
      else Effect(rest, Done)
  }

  datatype RefundAnswer = AnswerProcessed | AnswerPending | AnswerFailed

  // _finalize_refund
  function FinalizeRefund(s: Store, now: Time, r: Id, providerRefund: Id, answer: RefundAnswer): Effect {
    if r !in s.calls then Effect(s, NotInFlight)
    else
      var p := s.calls[r].payment;
      var rest := s.(calls := s.calls - {r});
      if r !in s.refunds then Effect(rest, ServerError)
      else if !s.refunds[r].status.Requested? then Effect(rest, Done)
      else if ProviderRefundTaken(s.refunds, providerRefund, r) then Effect(rest, Conflict)
      else
        var z := s.refunds[r].(providerRefundId := Some(providerRefund));
        match answer
        case AnswerProcessed =>
          if p !in s.payments then Effect(rest, ServerError)
          else
            Effect(
              SetPayment(
                SetRefund(rest, r, z.(status := Processed, processedAt := Some(now))),
                p, s.payments[p].(status := Refunded)),
              Done)
        case AnswerPending => Effect(SetRefund(rest, r, z.(status := Pending)), Done)
        case AnswerFailed =>
          Effect(SetRefund(rest, r, z.(status := Rejected, error := Some(ProviderRefundFailed))), Done)
  }

  // _apply_reconciled_refund
  function ApplyReconciled(s: Store, now: Time, r: Id, answer: RefundAnswer): Effect {
    if r !in s.refunds || !s.refunds[r].status.Pending? then Effect(s, Unchanged)
    else
      var z := s.refunds[r];
      match answer
      case AnswerProcessed =>
        if z.payment !in s.payments then Effect(s, ServerError)
        else
          Effect(
            SetPayment(
              SetRefund(s, r, z.(status := Processed, processedAt := Some(now), error := None)),
              z.payment, s.payments[z.payment].(status := Refunded)),
            Reconciled(answer))
      case AnswerPending => Effect(s, Reconciled(answer))
      case AnswerFailed =>
        Effect(SetRefund(s, r, z.(status := Rejected, error := Some(ProviderRefundFailed))), Reconciled(answer))
  }

  /******* Charging sessions *******/

  datatype Operator = Operator(id: Id, systemAdmin: bool)

  predicate InsideStartWindow(b: Booking, now: Time) {
    b.startsAt - EARLY_START_SECONDS <= now < b.endsAt
  }

  predicate Controls(o: Operator, points: map<Id, ChargePoint>, point: Id) {
    point in points && (o.systemAdmin || points[point].owner == o.id)
  }

  predicate PointBusy(sessions: map<Id, Session>, point: Id) {
    exists x | x in sessions :: sessions[x].point == point && sessions[x].status.Charging?
  }

  predicate BookingHasSession(sessions: map<Id, Session>, booking: Id) {
    exists x | x in sessions :: sessions[x].booking == booking
  }

  // start_charging_session
  function StartSession(
    s: Store, now: Time, operator: Operator, booking: Id, version: int, meterStart: real, id: Id): Effect
  {
    if booking !in s.bookings || !s.bookings[booking].status.Confirmed? || s.bookings[booking].version != version
    then Effect(s, Conflict)
    else
      var b := s.bookings[booking];
      if !InsideStartWindow(b, now) then Effect(s, TimeError)
      else if !Controls(operator, s.points, b.point) then Effect(s, Forbidden)
      else if PointBusy(s.sessions, b.point) then Effect(s, Conflict)
      // Check constraint on the meter, primary key, unique booking_id.
      else if meterStart < 0.0 || id in s.sessions || BookingHasSession(s.sessions, booking) then Effect(s, Conflict)
      else
        var x := Session(booking, b.user, b.point, Charging, now, None, meterStart, None, None, 1);
        Effect(SetSession(SetBooking(s, booking, Moved(b, Active)), id, x), Done)
  }

  // complete_charging_session
  function CompleteSession(
    s: Store, now: Time, operator: Operator, session: Id, version: int, meterEnd: real): Effect
  {
    if session !in s.sessions || !s.sessions[session].status.Charging? || s.sessions[session].version != version
    then Effect(s, Conflict)
    else
      var x := s.sessions[session];
      if meterEnd < x.meterStart then Effect(s, MeterError)
      else if x.booking !in s.bookings then Effect(s, ServerError)
      else if !s.bookings[x.booking].status.Active? then Effect(s, Conflict)
      else if !Controls(operator, s.points, x.point) then Effect(s, Forbidden)
      // Check constraint valid_end_time.
      else if now < x.startedAt then Effect(s, ServerError)
      else
        var x' := x.(status := Finished, endedAt := Some(now), meterEnd := Some(meterEnd),
                     energy := Some(meterEnd - x.meterStart), version := x.version + 1);
        Effect(
          SetSession(SetBooking(s, x.booking, Moved(s.bookings[x.booking], Completed)), session, x'),
          Done)
  }
}
