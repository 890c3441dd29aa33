/**
 The service functions as they are written: they load rows, test them, assign fields
 and commit or roll back. Each method is proved to do exactly the transaction of the
 ledger that bears its name, and to keep the invariant.
 */
module Database {
  import opened Wrappers
  import opened Ledger
  import opened LedgerInvariant
  import opened LedgerSteps
  import opened LedgerRuns
  import opened HoldExpiry
  import opened Reconciliation
  import opened Listings

  // RazorpayRefund
  datatype ProviderRefund = ProviderRefund(id: Id, status: RefundAnswer)

  function Matching(bookings: map<Id, Booking>, user: Id, status: Option<BookingStatus>): set<Id> {
    set b | b in bookings && bookings[b].user == user && (status.None? || status.value == bookings[b].status)
  }

  // ORDER BY starts_at DESC, id.
  function ByLatestStart(bookings: map<Id, Booking>): map<Id, int> {
    map b | b in bookings :: -bookings[b].startsAt
  }

  class Database {
    var points: map<Id, ChargePoint>
    var bookings: map<Id, Booking>
    var payments: map<Id, Payment>
    var refunds: map<Id, Refund>
    var sessions: map<Id, Session>
    var events: map<Id, EventRecord>
    // Provider calls whose answers are still to come.
    var attempts: map<Id, Attempt>
    var calls: map<Id, RefundCall>

    function State(): Store
      reads this
    {
      Store(points, bookings, payments, refunds, sessions, events, attempts, calls)
    }

    ghost predicate Valid()
      reads this
    {
      Reachable(State())
    }

    constructor ()
      ensures Valid() && State() == EMPTY
    {
      points, bookings, payments, refunds := map[], map[], map[], map[];
      sessions, events, attempts, calls := map[], map[], map[], map[];
      new;
      EmptyIsReachable();
    }

    // While a saga waits for the provider it holds no lock. Its callers know no more than this contract,
    // so what they promise holds for every run in between.
    method OtherTransactions() returns (ghost acts: seq<Action>)
      requires Valid()
      modifies this
      ensures Valid()
      ensures State() == Run(old(State()), acts)
    {
      acts := [];
    }

    /******* bookings/service.py *******/

    // UPDATE bookings SET status = expired, version = version + 1 WHERE id IN ids AND stale.
    method ExpireHolds(now: Time, ids: set<Id>)
      modifies this`bookings
      ensures State() == Sweep(old(State()), now, ids)
    {
      var rows := bookings;
      bookings := map b | b in rows ::
        if b in ids && Stale(rows[b], now)
        then rows[b].(status := Expired, version := rows[b].version + 1)
        else rows[b];
      assert forall b | b in rows :: bookings[b] == SweepTable(rows, now, ids)[b];
      assert bookings == SweepTable(rows, now, ids);
    }

    method CreateBookingHold(r: HoldRequest, id: Id) returns (reply: Reply)
      requires Valid()
      modifies this
      ensures Valid()
      ensures State() == CreateHold(old(State()), r, id).store
      ensures reply == CreateHold(old(State()), r, id).reply
    {
      HoldingReaches(State(), r, id);
      if r.startsAt <= r.now {
        return TimeError;
      }
      if !(r.point in points
           && points[r.point].bookable && points[r.point].available && points[r.point].stationActive) {
        return Unavailable;
      }
      reply := HoldLockedPoint(r, id);
    }

    // What happens while the charge point is locked; a rolled back insert takes the expiry back too.
    method HoldLockedPoint(r: HoldRequest, id: Id) returns (reply: Reply)
      requires r.now < r.startsAt && AcceptsBookings(points, r.point)
      modifies this`bookings
      ensures Effect(State(), reply) == CreateHold(old(State()), r, id)
    {
      var saved := bookings;
      ExpireHolds(r.now, set b | b in bookings && bookings[b].point == r.point);
      if !SlotFree(bookings, r.point, r.startsAt, r.endsAt) {
        bookings := saved;
        return Unavailable;
      }
      if r.endsAt <= r.startsAt || id in saved {
        bookings := saved;
        return Unavailable;
      }
      var hold := Booking(
        r.user, r.point, r.startsAt, r.endsAt, Some(r.now + HOLD_SECONDS),
        Held, Some(points[r.point].fee), Inr, 1, None);
      bookings := bookings[id := hold];
      reply := Done;
    }

    // The page is cut from the listing of the matching rows, latest start first.
    method FindUserBookings(now: Time, user: Id, status: Option<BookingStatus>, page: nat, perPage: nat)
      returns (items: seq<Id>, total: nat, ghost listing: seq<Id>)
      requires Valid() && page >= 1 && perPage >= 1
      modifies this`bookings
      ensures Valid()
      ensures State() == ListBookings(old(State()), now, user).store
      ensures IsListing(ByLatestStart(bookings), Matching(bookings, user, status), listing)
      ensures items == Page(listing, page, perPage) && total == |listing|
      // Nothing listed as held has run out.
      ensures forall i | 0 <= i < |listing| :: !Stale(bookings[listing[i]], now)
    {
      ListingReaches(State(), now, user);
      ExpireHolds(now, set b | b in bookings && bookings[b].user == user);
      var rows := Listed(ByLatestStart(bookings), Matching(bookings, user, status));
      items, total, listing := Page(rows, page, perPage), |rows|, rows;
      ghost var swept := SweepTable(old(bookings), now, BookingsOfUser(old(bookings), user));
      assert bookings == swept;
      forall i | 0 <= i < |rows|
        ensures !Stale(bookings[rows[i]], now)
      {
        assert rows[i] in Matching(swept, user, status);
        MatchIsNotStale(old(bookings), now, user, status, rows[i]);
      }
    }

    // get_user_booking
    method GetUserBooking(now: Time, user: Id, booking: Id) returns (row: Option<Booking>)
      requires Valid()
      modifies this`bookings
      ensures Valid()
      ensures State() == ListBookings(old(State()), now, user).store
      ensures row == if booking in bookings && bookings[booking].user == user then Some(bookings[booking]) else None
    {
      ListingReaches(State(), now, user);
      ExpireHolds(now, set b | b in bookings && bookings[b].user == user);
      row := if booking in bookings && bookings[booking].user == user then Some(bookings[booking]) else None;
    }

    /******* maintenance/service.py *******/

    // rows is what the ordered, limited query returned; rows other transactions hold are skipped.
    method ExpireStaleBookingHolds(now: Time, batchSize: nat, rows: set<Id>) returns (expired: nat)
      requires Valid()
      requires rows <= StaleIds(bookings, now) && |rows| <= batchSize
      modifies this`bookings
      ensures Valid()
      ensures State() == Sweep(old(State()), now, rows)
      ensures expired == |StaleIds(old(bookings), now)| - |StaleIds(bookings, now)|
      // With no row locked elsewhere the job takes the first min(batch size, stale) holds.
      ensures IsBatch(old(bookings), now, batchSize, rows) ==>
                expired ==
                  if batchSize <= |StaleIds(old(bookings), now)| then batchSize else |StaleIds(old(bookings), now)|
    {
      ghost var stale := StaleIds(bookings, now);
      StepIsReachable(State(), SweepTx(now, rows));
      BatchLeavesRest(bookings, now, rows);
      assert stale == rows + (stale - rows);
      if rows == {} {
        NothingSwept(State(), now, rows);
        return 0;
      }
      ExpireHolds(now, rows);
      expired := |rows|;
    }

    /******* payments/service.py *******/

    // create_payment_order up to the provider call.
    method StartPaymentOrder(now: Time, user: Id, booking: Id, version: int, key: Id, id: Id) returns (reply: Reply)
      requires Valid()
      modifies this
      ensures Valid()
      ensures State() == BeginPayment(old(State()), now, user, booking, version, key, id).store
      ensures reply == BeginPayment(old(State()), now, user, booking, version, key, id).reply
    {
      BeginningReaches(State(), now, user, booking, version, key, id);
      OneKey(State(), key);
      if p :| p in payments && payments[p].key == key {
        assert HasKey(payments, key, p);
        var existing := payments[p];
        if existing.user != user || existing.booking != booking || existing.status != OrderCreated {
          return Conflict;
        }
        return ExistingCheckout(p);
      }
      reply := BeginPaymentAttempt(now, user, booking, version, key, id);
    }

    // The whole saga. order is the provider's order, None a provider failure; anything may have committed
    // before the answer came.
    method CreatePaymentOrder(
      now: Time, user: Id, booking: Id, version: int, key: Id, id: Id, order: Option<Id>, later: Time)
      returns (reply: Reply, ghost between: seq<Action>)
      requires Valid()
      modifies this
      ensures Valid()
      ensures
        var begun := BeginPayment(old(State()), now, user, booking, version, key, id);
        Effect(State(), reply) ==
          if !begun.reply.Started? then begun
          else if order.Some? then FinalizeOrder(Run(begun.store, between), id, order.value)
          else CompensateFailure(Run(begun.store, between), later, id)
    {
      reply := StartPaymentOrder(now, user, booking, version, key, id);
      between := [];
      if !reply.Started? {
        return;
      }
      between := OtherTransactions();
      if order.Some? {
        reply := FinalizeProviderOrder(id, order.value);
      } else {
        reply := CompensateProviderFailure(later, id);
      }
    }

    method BeginPaymentAttempt(now: Time, user: Id, booking: Id, version: int, key: Id, id: Id) returns (reply: Reply)
      modifies this
      ensures State() == BeginAttempt(old(State()), now, user, booking, version, key, id).store
      ensures reply == BeginAttempt(old(State()), now, user, booking, version, key, id).reply
    {
      if booking !in bookings || bookings[booking].user != user || !CanEnterPayment(bookings[booking], version, now) {
        return Conflict;
      }
      var row := bookings[booking];
      var subunits := row.amount.value * CURRENCY_SUBUNITS;
      if subunits != subunits.Floor as real || id in payments {
        return Conflict;
      }
      var payment := Payment(
        booking, user, Initiated, row.amount.value, subunits.Floor, row.currency, key, None, None, None);
      row := row.(status := PaymentPending, version := row.version + 1);
      bookings := bookings[booking := row];
      payments := payments[id := payment];
      attempts := attempts[id := Attempt(booking, payment.subunits, payment.currency)];
      reply := Started(id);
    }

    method FinalizeProviderOrder(p: Id, order: Id) returns (reply: Reply)
      requires Valid()
      modifies this
      ensures Valid()
      ensures State() == FinalizeOrder(old(State()), p, order).store
      ensures reply == FinalizeOrder(old(State()), p, order).reply
    {
      OrderingReaches(State(), p, order);
      if p !in attempts {
        return NotInFlight;
      }
      var booking := attempts[p].booking;
      attempts := attempts - {p};
      if p !in payments || booking !in bookings || OrderTaken(payments, order, p) {
        return ServerError;
      }
      var payment := payments[p].(orderId := Some(order));
      if !payment.status.Initiated? || !bookings[booking].status.PaymentPending? {
        payment := payment.(status := Failed, error := Some(BookingStateChanged));
        reply := Conflict;
      } else {
        payment := payment.(status := OrderCreated);
        reply := Done;
      }
      payments := payments[p := payment];
    }

    // The booking of an attempt that came to nothing.
    method ReleaseBooking(now: Time, booking: Id)
      requires booking in bookings
      modifies this`bookings
      ensures bookings == old(bookings)[booking := Released(old(bookings)[booking], now)]
    {
      var row := bookings[booking];
      if row.status.PaymentPending? {
        row := row.(status := if After(row.holdExpiresAt, now) then Held else Expired, version := row.version + 1);
      }
      bookings := bookings[booking := row];
    }

    method CompensateProviderFailure(now: Time, p: Id) returns (reply: Reply)
      requires Valid()
      modifies this
      ensures Valid()
      ensures State() == CompensateFailure(old(State()), now, p).store
      ensures reply == CompensateFailure(old(State()), now, p).reply
    {
      CompensatingReaches(State(), now, p);
      reply := RecordOrderFailure(now, p);
    }

    method RecordOrderFailure(now: Time, p: Id) returns (reply: Reply)
      modifies this`attempts, this`payments, this`bookings
      ensures Effect(State(), reply) == CompensateFailure(old(State()), now, p)
    {
      if p !in attempts {
        return NotInFlight;
      }
      var booking := attempts[p].booking;
      attempts := attempts - {p};
      if p !in payments || booking !in bookings {
        return ServerError;
      }
      if payments[p].status.Initiated? {
        payments := payments[p := payments[p].(status := Failed, error := Some(ProviderOrderFailed))];
      } else {
        payments := payments[p := payments[p]];
      }
      ReleaseBooking(now, booking);
      reply := Done;
    }

    method VerifyCheckoutPayment(user: Id, order: Id, providerPayment: Id, signed: bool) returns (reply: Reply)
      requires Valid()
      modifies this
      ensures Valid()
      ensures State() == VerifyCheckout(old(State()), user, order, providerPayment, signed).store
      ensures reply == VerifyCheckout(old(State()), user, order, providerPayment, signed).reply
    {
      VerifyingReaches(State(), user, order, providerPayment, signed);
      OneOrder(State(), order);
      if p :| p in payments && payments[p].orderId == Some(order) && payments[p].user == user {
        assert HasOrder(payments, order, p);
        var payment := payments[p];
        if !signed {
          return VerificationError;
        }
        if payment.providerPaymentId.Some? {
          if payment.providerPaymentId.value != providerPayment {
            return VerificationError;
          }
          if payment.status.Authorized? || payment.status.Captured? {
            return Done;
          }
        }
        if !payment.status.OrderCreated? || ProviderPaymentTaken(payments, providerPayment, p) {
          return VerificationError;
        }
        payments := payments[p := payment.(providerPaymentId := Some(providerPayment), status := Authorized)];
        return Done;
      }
      assert forall p | HasOrder(payments, order, p) :: payments[p].user != user;
      reply := VerificationError;
    }

    /******* payments/webhooks.py *******/

    method ProcessRazorpayWebhook(now: Time, d: Delivery) returns (reply: Reply)
      requires Valid()
      modifies this
      ensures Valid()
      ensures State() == ProcessWebhook(old(State()), now, d).store
      ensures reply == ProcessWebhook(old(State()), now, d).reply
    {
      DeliveringReaches(State(), now, d);
      if !d.signed {
        return AuthenticationError;
      }
      if d.body.NotJson? {
        return PayloadError;
      }
      if d.event in events {
        if events[d.event].digest != d.digest {
          return AuthenticationError;
        }
        return Duplicate;
      }
      reply := ApplyWebhookBody(now, d.body);
      if reply.WebhookProcessed? {
        events := events[d.event := EventRecord(d.digest, ProcessedEvent)];
      } else if reply.WebhookIgnored? {
        events := events[d.event := EventRecord(d.digest, IgnoredEvent)];
      }
    }

    method ApplyWebhookBody(now: Time, e: Body) returns (reply: Reply)
      requires Valid()
      modifies this`bookings, this`payments, this`refunds
      ensures State() == ApplyEvent(old(State()), now, e).store
      ensures reply == ApplyEvent(old(State()), now, e).reply
    {
      match e {
        case PaymentEvent(_, _, _, _, _) => reply := ApplyPaymentWebhook(now, e);
        case RefundEvent(_, _, _, _, _) => reply := ApplyRefundWebhook(now, e);
        case UnsupportedEvent => reply := WebhookIgnored;
        case _ => reply := PayloadError;
      }
    }

    // _apply_payment_event
    method ApplyPaymentWebhook(now: Time, e: Body) returns (reply: Reply)
      requires Valid() && e.PaymentEvent?
      modifies this`bookings, this`payments
      ensures State() == ApplyPaymentEvent(old(State()), now, e).store
      ensures reply == ApplyPaymentEvent(old(State()), now, e).reply
    {
      OneOrder(State(), e.order);
      if p :| p in payments && payments[p].orderId == Some(e.order) {
        assert HasOrder(payments, e.order, p);
        reply := ApplyToPayment(now, e, p);
        return;
      }
      assert forall p :: !HasOrder(payments, e.order, p);
      reply := WebhookIgnored;
    }

    method ApplyToPayment(now: Time, e: Body, p: Id) returns (reply: Reply)
      requires e.PaymentEvent? && p in payments
      modifies this`bookings, this`payments
      ensures State() == PaymentEventOn(old(State()), now, e, p).store
      ensures reply == PaymentEventOn(old(State()), now, e, p).reply
    {
      var payment := payments[p];
      if e.amount != Some(payment.subunits) || e.currency != Some(payment.currency) {
        payments := payments[p := payment.(error := Some(ProviderAmountMismatch))];
        return WebhookIgnored;
      }
      if payment.providerPaymentId.Some? && payment.providerPaymentId.value != e.payment {
        payments := payments[p := payment.(error := Some(ProviderPaymentIdMismatch))];
        return WebhookIgnored;
      }
      if ProviderPaymentTaken(payments, e.payment, p) {
        return ServerError;
      }
      payment := payment.(providerPaymentId := Some(e.payment));
      match e.kind {
        case PaymentAuthorized =>
          if payment.status.OrderCreated? {
            payment := payment.(status := Authorized);
          }
          payments := payments[p := payment];
          reply := WebhookProcessed;
        case PaymentCaptured => reply := ApplyCapturedPayment(p, payment);
        case PaymentFailed => reply := ApplyFailedPayment(now, p, payment);
      }
    }

    method ApplyCapturedPayment(p: Id, y: Payment) returns (reply: Reply)
      modifies this`bookings, this`payments
      ensures State() == ApplyCaptured(old(State()), p, y).store
      ensures reply == ApplyCaptured(old(State()), p, y).reply
    {
      var payment := y;
      if !payment.status.Refunded? {
        if payment.booking !in bookings {
          return ServerError;
        }
        payment := payment.(status := Captured);
        var row := bookings[payment.booking];
        if row.status.PaymentPending? {
          bookings := bookings[payment.booking := row.(status := Confirmed, version := row.version + 1)];
        } else if !row.status.Confirmed? {
          payment := payment.(error := Some(CapturedAfterBookingClosed));
        }
      }
      payments := payments[p := payment];
      reply := WebhookProcessed;
    }

    method ApplyFailedPayment(now: Time, p: Id, y: Payment) returns (reply: Reply)
      modifies this`bookings, this`payments
      ensures State() == ApplyFailed(old(State()), now, p, y).store
      ensures reply == ApplyFailed(old(State()), now, p, y).reply
    {
      if y.status.Captured? || y.status.Refunded? {
        payments := payments[p := y];
        return WebhookProcessed;
      }
      if y.booking !in bookings {
        return ServerError;
      }
      payments := payments[p := y.(status := Failed)];
      ReleaseBooking(now, y.booking);
      reply := WebhookProcessed;
    }

    // _apply_refund_event
    method ApplyRefundWebhook(now: Time, e: Body) returns (reply: Reply)
      requires Valid() && e.RefundEvent?
      modifies this`payments, this`refunds
      ensures State() == ApplyRefundEvent(old(State()), now, e).store
      ensures reply == ApplyRefundEvent(old(State()), now, e).reply
    {
      OneProviderPayment(State(), e.payment);
      if p :| p in payments && payments[p].providerPaymentId == Some(e.payment) {
        assert HasProviderPayment(payments, e.payment, p);
        OneRefund(State(), p);
        if r :| r in refunds && refunds[r].payment == p {
          assert RefundOf(refunds, p, r);
          reply := ApplyToRefund(now, e, r);
          return;
        }
        assert forall r :: !RefundOf(refunds, p, r);
        return WebhookIgnored;
      }
      assert forall p :: !HasProviderPayment(payments, e.payment, p);
      reply := WebhookIgnored;
    }

    method ApplyToRefund(now: Time, e: Body, r: Id) returns (reply: Reply)
      requires e.RefundEvent? && r in refunds
      modifies this`payments, this`refunds
      ensures State() == RefundEventOn(old(State()), now, e, r).store
      ensures reply == RefundEventOn(old(State()), now, e, r).reply
    {
      var refund := refunds[r];
      if e.amount != Some(refund.subunits) || e.currency != Some(refund.currency) {
        refunds := refunds[r := refund.(error := Some(ProviderRefundAmountMismatch))];
        return WebhookIgnored;
      }
      if refund.providerRefundId.Some? && refund.providerRefundId.value != e.refund {
        refunds := refunds[r := refund.(error := Some(ProviderRefundIdMismatch))];
        return WebhookIgnored;
      }
      if ProviderRefundTaken(refunds, e.refund, r) {
        return ServerError;
      }
      refund := refund.(providerRefundId := Some(e.refund));
      if e.refundKind.RefundProcessed? {
        if refund.payment !in payments {
          return ServerError;
        }
        refund := refund.(status := Processed, processedAt := Some(now));
        payments := payments[refund.payment := payments[refund.payment].(status := Refunded)];
      } else if !refund.status.Processed? {
        refund := refund.(status := Rejected, error := Some(ProviderRefundFailed));
      }
      refunds := refunds[r := refund];
      reply := WebhookProcessed;
    }

    /******* bookings/cancellation.py *******/

    // The whole saga. answer is the provider's, None a provider failure; without credentials it is not asked.
    method CancelBookingWithRefund(
      now: Time, user: Id, booking: Id, version: int, id: Id,
      configured: bool, answer: Option<ProviderRefund>, later: Time)
      returns (reply: Reply, ghost pick: Id, ghost between: seq<Action>)
      requires Valid()
      modifies this
      ensures Valid()
      ensures
        var prepared := Ledger.PrepareCancellation(old(State()), now, user, booking, version, pick, id);
        Effect(State(), reply) ==
          if !prepared.reply.RefundStarted? then prepared
          else if !configured then Ledger.RecordRefundFailure(prepared.store, id, ProviderNotConfigured)
          else
            var s := Run(prepared.store, between);
            if answer.None? then Ledger.RecordRefundFailure(s, id, ProviderRefundFailed)
            else Ledger.FinalizeRefund(s, later, id, answer.value.id, answer.value.status)
    {
      between := [];
      reply, pick := PrepareCancellation(now, user, booking, version, id);
      if !reply.RefundStarted? {
        return;
      }
      if !configured {
        reply := RecordRefundFailure(id, ProviderNotConfigured);
        return;
      }
      between := OtherTransactions();
      if answer.None? {
        reply := RecordRefundFailure(id, ProviderRefundFailed);
      } else {
        reply := FinalizeRefund(later, id, answer.value.id, answer.value.status);
      }
    }

    // The query for the captured payment has no order; pick is the row it returned.
    method PrepareCancellation(now: Time, user: Id, booking: Id, version: int, id: Id)
      returns (reply: Reply, ghost pick: Id)
      requires Valid()
      modifies this
      ensures Valid()
      ensures State() == Ledger.PrepareCancellation(old(State()), now, user, booking, version, pick, id).store
      ensures reply == Ledger.PrepareCancellation(old(State()), now, user, booking, version, pick, id).reply
    {
      var captured := CapturedPayment(booking);
      pick := if captured.Some? then captured.value else 0;
      CancellingReaches(State(), now, user, booking, version, pick, id);
      if booking !in bookings || bookings[booking].user != user {
        return Conflict, pick;
      }
      if bookings[booking].status.Cancelled? {
        reply := ExistingCancellation(booking);
        return;
      }
      if bookings[booking].version != version {
        return Conflict, pick;
      }
      reply := CancelOpenBooking(now, booking, captured, id);
    }

    // The captured payment of a booking, if there is one.
    method CapturedPayment(booking: Id) returns (captured: Option<Id>)
      ensures if captured.Some? then CapturedFor(payments, booking, captured.value)
              else forall p :: !CapturedFor(payments, booking, p)
    {
      if p :| p in payments && payments[p].booking == booking && payments[p].status.Captured? {
        return Some(p);
      }
      captured := None;
    }

    method ExistingCancellation(booking: Id) returns (reply: Reply)
      requires Valid()
      ensures reply == match FindBookingRefund(refunds, payments, booking)
                       case Some(r) => ExistingRefund(r)
                       case None => Conflict
    {
      OneBookingRefund(State(), booking);
      if r :| r in refunds && refunds[r].payment in payments && payments[refunds[r].payment].booking == booking {
        assert RefundOfBooking(refunds, payments, booking, r);
        return ExistingRefund(r);
      }
      assert forall r :: !RefundOfBooking(refunds, payments, booking, r);
      reply := Conflict;
    }

    // A booking that is not cancelled yet, at the version the user saw.
    method CancelOpenBooking(now: Time, booking: Id, captured: Option<Id>, id: Id) returns (reply: Reply)
      requires booking in bookings && !bookings[booking].status.Cancelled?
      requires if captured.Some? then CapturedFor(payments, booking, captured.value)
               else forall p :: !CapturedFor(payments, booking, p)
      modifies this`bookings, this`refunds, this`calls
      ensures
        var row := old(bookings[booking]);
        var pick := if captured.Some? then captured.value else 0;
        Effect(State(), reply)
        == Ledger.PrepareCancellation(old(State()), now, row.user, booking, row.version, pick, id)
    {
      var row := bookings[booking];
      if row.status.Held? || row.status.PaymentPending? {
        if row.status.Held? && !After(row.holdExpiresAt, now) {
          return Conflict;
        }
        bookings := bookings[booking := row.(
          status := Cancelled, cancelledAt := Some(now), version := row.version + 1)];
        return Done;
      }
      if !row.status.Confirmed? || captured.None? || payments[captured.value].providerPaymentId.None? {
        return Conflict;
      }
      if id in refunds {
        return Conflict;
      }
      if r :| r in refunds && refunds[r].payment == captured.value {
        assert RefundOf(refunds, captured.value, r);
        return Conflict;
      }
      assert forall r :: !RefundOf(refunds, captured.value, r);
      RequestRefund(now, booking, captured.value, id);
      reply := RefundStarted(id);
    }

    method RequestRefund(now: Time, booking: Id, p: Id, id: Id)
      requires booking in bookings && p in payments && payments[p].providerPaymentId.Some?
      modifies this`bookings, this`refunds, this`calls
      ensures State() == OpenRefund(old(State()), now, booking, p, id)
    {
      var row, payment := bookings[booking], payments[p];
      bookings := bookings[booking := row.(status := Cancelled, cancelledAt := Some(now), version := row.version + 1)];
      refunds := refunds[id := Refund(
        p, Requested, payment.amount, payment.subunits, payment.currency, None, None, None, now)];
      calls := calls[id := RefundCall(
        booking, p, payment.providerPaymentId.value, payment.subunits, payment.currency)];
    }

    method RecordRefundFailure(r: Id, code: ErrorCode) returns (reply: Reply)
      requires Valid()
      modifies this
      ensures Valid()
      ensures State() == Ledger.RecordRefundFailure(old(State()), r, code).store
      ensures reply == Ledger.RecordRefundFailure(old(State()), r, code).reply
    {
      FailingReaches(State(), r, code);
      if r !in calls {
        return NotInFlight;
      }
      calls := calls - {r};
      if r !in refunds {
        return ServerError;
      }
      if refunds[r].status.Requested? {
        refunds := refunds[r := refunds[r].(status := Rejected, error := Some(code))];
      }
      reply := Done;
    }

    method FinalizeRefund(now: Time, r: Id, providerRefund: Id, answer: RefundAnswer) returns (reply: Reply)
      requires Valid()
      modifies this
      ensures Valid()
      ensures State() == Ledger.FinalizeRefund(old(State()), now, r, providerRefund, answer).store
      ensures reply == Ledger.FinalizeRefund(old(State()), now, r, providerRefund, answer).reply
    {
      AnsweringReaches(State(), now, r, providerRefund, answer);
      if r !in calls {
        return NotInFlight;
      }
      var p := calls[r].payment;
      calls := calls - {r};
      if r !in refunds {
        return ServerError;
      }
      if !refunds[r].status.Requested? {
        return Done;
      }
      if ProviderRefundTaken(refunds, providerRefund, r) {
        return Conflict;
      }
      var refund := refunds[r].(providerRefundId := Some(providerRefund));
      match answer {
        case AnswerProcessed =>
          if p !in payments {
            return ServerError;
          }
          refund := refund.(status := Processed, processedAt := Some(now));
          payments := payments[p := payments[p].(status := Refunded)];
        case AnswerPending =>
          refund := refund.(status := Pending);
        case AnswerFailed =>
          refund := refund.(status := Rejected, error := Some(ProviderRefundFailed));
      }
      refunds := refunds[r := refund];
      reply := Done;
    }

    method ApplyReconciledRefund(now: Time, r: Id, answer: RefundAnswer) returns (reply: Reply)
      requires Valid()
      modifies this
      ensures Valid()
      ensures State() == ApplyReconciled(old(State()), now, r, answer).store
      ensures reply == ApplyReconciled(old(State()), now, r, answer).reply
    {
      ReconcilingReaches(State(), now, r, answer);
      reply := SettlePending(now, r, answer);
    }

    method SettlePending(now: Time, r: Id, answer: RefundAnswer) returns (reply: Reply)
      modifies this`payments, this`refunds
      ensures Effect(State(), reply) == ApplyReconciled(old(State()), now, r, answer)
    {
      if r !in refunds || !refunds[r].status.Pending? {
        return Unchanged;
      }
      var refund := refunds[r];
      match answer {
        case AnswerProcessed =>
          if refund.payment !in payments {
            return ServerError;
          }
          refunds := refunds[r := refund.(status := Processed, processedAt := Some(now), error := None)];
          payments := payments[refund.payment := payments[refund.payment].(status := Refunded)];
        case AnswerPending =>
        case AnswerFailed =>
          refunds := refunds[r := refund.(status := Rejected, error := Some(ProviderRefundFailed))];
      }
      reply := Reconciled(answer);
    }

    // _pending_refund_snapshots: the oldest pending refunds, as many as the batch allows.
    method PendingRefundSnapshots(batchSize: nat) returns (rows: seq<Id>)
      requires Valid()
      ensures IsPage(ByCreation(refunds), PendingIds(refunds), 1, batchSize, rows)
    {
      PendingHaveIds(State());
      var pending := Listed(
        ByCreation(refunds),
        set r | r in refunds && refunds[r].status.Pending? && refunds[r].providerRefundId.Some?
             && refunds[r].payment in payments && payments[refunds[r].payment].providerPaymentId.Some?);
      rows := Page(pending, 1, batchSize);
    }

    // answers is what the provider says of the refunds it answers for, and when. rounds adds to each
    // snapshot what committed while it was asked.
    method ReconcilePendingRefunds(batchSize: nat, answers: map<Id, Answer>)
      returns (counts: Counts, ghost rounds: seq<Round>, ghost listing: seq<Id>)
      requires Valid()
      modifies this
      ensures Valid()
      ensures IsListing(ByCreation(old(refunds)), PendingIds(old(refunds)), listing)
      ensures RoundsAsk(rounds, Page(listing, 1, batchSize), answers)
      ensures PendingBatch(old(State()), rounds)
      ensures Job(State(), counts) == JobAfter(old(State()), rounds)
      ensures |PaidOutIds(refunds)| >= |PaidOutIds(old(refunds))| + counts.processed
    {
      var rows := PendingRefundSnapshots(batchSize);
      listing :| IsListing(ByCreation(refunds), PendingIds(refunds), listing) && rows == Page(listing, 1, batchSize);
      counts, rounds := ReconcileSnapshots(rows, answers);
      SnapshotsArePending(old(State()), listing, batchSize, rounds, answers);
      CountsAreHonest(old(State()), rounds);
    }

    method ReconcileSnapshots(rows: seq<Id>, answers: map<Id, Answer>)
      returns (counts: Counts, ghost rounds: seq<Round>)
      requires Valid()
      modifies this
      ensures Valid()
      ensures RoundsAsk(rounds, rows, answers)
      ensures Job(State(), counts) == JobAfter(old(State()), rounds)
    {
      counts, rounds := Counts(0, 0, 0, 0), [];
      for i := 0 to |rows|
        invariant Valid()
        invariant RoundsAsk(rounds, rows[..i], answers)
        invariant Job(State(), counts) == JobAfter(old(State()), rounds)
      {
        ghost var x;
        counts, x := ReconcileSnapshot(rows[i], answers, counts);
        JobNext(old(State()), rounds, x);
        rounds := rounds + [x];
      }
      assert rows[..|rows|] == rows;
    }

    // One round of the loop.
    method ReconcileSnapshot(r: Id, answers: map<Id, Answer>, before: Counts)
      returns (counts: Counts, ghost x: Round)
      requires Valid()
      modifies this
      ensures Valid()
      ensures RoundAsks(x, r, answers)
      ensures Job(State(), counts) == RoundOn(Job(old(State()), before), x)
    {
      ghost var between := OtherTransactions();
      if r !in answers {
        x := Round(r, None, between, 0);
        counts := CountRound(before, None);
      } else {
        x := Round(r, Some(answers[r].status), between, answers[r].at);
        var reply := ApplyReconciledRefund(answers[r].at, r, answers[r].status);
        counts := CountRound(before, Some(reply));
      }
    }

    method CountRound(before: Counts, reply: Option<Reply>) returns (counts: Counts)
      ensures counts == Counted(before, reply)
    {
      counts := before.(checked := before.checked + 1);
      if reply.None? {
        counts := counts.(errors := counts.errors + 1);
      } else if reply.value == Reconciled(AnswerProcessed) {
        counts := counts.(processed := counts.processed + 1);
      } else if reply.value == Reconciled(AnswerFailed) {
        counts := counts.(failed := counts.failed + 1);
      }
    }

    /******* charging_sessions/service.py *******/

    method StartChargingSession(
      now: Time, operator: Operator, booking: Id, version: int, meterStart: real, id: Id) returns (reply: Reply)
      requires Valid()
      modifies this
      ensures Valid()
      ensures State() == StartSession(old(State()), now, operator, booking, version, meterStart, id).store
      ensures reply == StartSession(old(State()), now, operator, booking, version, meterStart, id).reply
    {
      StartingReaches(State(), now, operator, booking, version, meterStart, id);
      reply := OpenSession(now, operator, booking, version, meterStart, id);
    }

    method OpenSession(
      now: Time, operator: Operator, booking: Id, version: int, meterStart: real, id: Id) returns (reply: Reply)
      modifies this`sessions, this`bookings
      ensures Effect(State(), reply) == StartSession(old(State()), now, operator, booking, version, meterStart, id)
    {
      if booking !in bookings || !bookings[booking].status.Confirmed? || bookings[booking].version != version {
        return Conflict;
      }
      var row := bookings[booking];
      if !(row.startsAt - EARLY_START_SECONDS <= now < row.endsAt) {
        return TimeError;
      }
      if !Controls(operator, points, row.point) {
        return Forbidden;
      }
      if PointBusy(sessions, row.point) {
        return Conflict;
      }
      if meterStart < 0.0 || id in sessions || BookingHasSession(sessions, booking) {
        return Conflict;
      }
      bookings := bookings[booking := row.(status := Active, version := row.version + 1)];
      sessions := sessions[id := Session(booking, row.user, row.point, Charging, now, None, meterStart, None, None, 1)];
      reply := Done;
    }

    method CompleteChargingSession(
      now: Time, operator: Operator, session: Id, version: int, meterEnd: real) returns (reply: Reply)
      requires Valid()
      modifies this
      ensures Valid()
      ensures State() == CompleteSession(old(State()), now, operator, session, version, meterEnd).store
      ensures reply == CompleteSession(old(State()), now, operator, session, version, meterEnd).reply
    {
      CompletingReaches(State(), now, operator, session, version, meterEnd);
      reply := FinishSession(now, operator, session, version, meterEnd);
    }

    method FinishSession(
      now: Time, operator: Operator, session: Id, version: int, meterEnd: real) returns (reply: Reply)
      modifies this`sessions, this`bookings
      ensures Effect(State(), reply) == CompleteSession(old(State()), now, operator, session, version, meterEnd)
    {
      if session !in sessions || !sessions[session].status.Charging? || sessions[session].version != version {
        return Conflict;
      }
      var row := sessions[session];
      if meterEnd < row.meterStart {
        return MeterError;
      }
      if row.booking !in bookings {
        return ServerError;
      }
      var booking := bookings[row.booking];
      if !booking.status.Active? {
        return Conflict;
      }
      if !Controls(operator, points, row.point) {
        return Forbidden;
      }
      if now < row.startedAt {
        return ServerError;
      }
      sessions := sessions[session := row.(
        status := Finished, endedAt := Some(now), meterEnd := Some(meterEnd),
        energy := Some(meterEnd - row.meterStart), version := row.version + 1)];
      bookings := bookings[row.booking := booking.(status := Completed, version := booking.version + 1)];
      reply := Done;
    }
  }

  lemma CancellingReaches(s: Store, now: Time, user: Id, booking: Id, version: int, pick: Id, id: Id)
    requires Reachable(s)
    ensures Reachable(PrepareCancellation(s, now, user, booking, version, pick, id).store)
  {
    hide Reachable, PrepareCancellation;
    StepIsReachable(s, CancelTx(now, user, booking, version, pick, id));
  }

  lemma ReconcilingReaches(s: Store, now: Time, r: Id, answer: RefundAnswer)
    requires Reachable(s)
    ensures Reachable(ApplyReconciled(s, now, r, answer).store)
  {
    hide Reachable, ApplyReconciled;
    StepIsReachable(s, ReconcileTx(now, r, answer));
  }

  // One more transaction leads from a reachable store to a reachable one.
  lemma StartingReaches(s: Store, now: Time, operator: Operator, booking: Id, version: int, meterStart: real, id: Id)
    requires Reachable(s)
    ensures Reachable(StartSession(s, now, operator, booking, version, meterStart, id).store)
  {
    hide Reachable, StartSession;
    StepIsReachable(s, StartTx(now, operator, booking, version, meterStart, id));
  }

  lemma CompensatingReaches(s: Store, now: Time, p: Id)
    requires Reachable(s)
    ensures Reachable(CompensateFailure(s, now, p).store)
  {
    hide Reachable, CompensateFailure;
    StepIsReachable(s, CompensateTx(now, p));
  }

  lemma CompletingReaches(s: Store, now: Time, operator: Operator, session: Id, version: int, meterEnd: real)
    requires Reachable(s)
    ensures Reachable(CompleteSession(s, now, operator, session, version, meterEnd).store)
  {
    hide Reachable, CompleteSession;
    StepIsReachable(s, CompleteTx(now, operator, session, version, meterEnd));
  }

  lemma AnsweringReaches(s: Store, now: Time, r: Id, providerRefund: Id, answer: RefundAnswer)
    requires Reachable(s)
    ensures Reachable(FinalizeRefund(s, now, r, providerRefund, answer).store)
  {
    hide Reachable, FinalizeRefund;
    StepIsReachable(s, RefundAnsweredTx(now, r, providerRefund, answer));
  }

  lemma HoldingReaches(s: Store, r: HoldRequest, id: Id)
    requires Reachable(s)
    ensures Reachable(CreateHold(s, r, id).store)
  {
    hide Reachable, CreateHold;
    StepIsReachable(s, CreateHoldTx(r, id));
  }

  lemma DeliveringReaches(s: Store, now: Time, d: Delivery)
    requires Reachable(s)
    ensures Reachable(ProcessWebhook(s, now, d).store)
  {
    hide Reachable, ProcessWebhook;
    StepIsReachable(s, WebhookTx(now, d));
  }

  lemma OrderingReaches(s: Store, p: Id, order: Id)
    requires Reachable(s)
    ensures Reachable(FinalizeOrder(s, p, order).store)
  {
    hide Reachable, FinalizeOrder;
    StepIsReachable(s, FinalizeTx(p, order));
  }

  lemma VerifyingReaches(s: Store, user: Id, order: Id, providerPayment: Id, signed: bool)
    requires Reachable(s)
    ensures Reachable(VerifyCheckout(s, user, order, providerPayment, signed).store)
  {
    hide Reachable, VerifyCheckout;
    StepIsReachable(s, VerifyTx(user, order, providerPayment, signed));
  }

  lemma BeginningReaches(s: Store, now: Time, user: Id, booking: Id, version: int, key: Id, id: Id)
    requires Reachable(s)
    ensures Reachable(BeginPayment(s, now, user, booking, version, key, id).store)
  {
    hide Reachable, BeginPayment;
    StepIsReachable(s, BeginTx(now, user, booking, version, key, id));
  }

  lemma FailingReaches(s: Store, r: Id, code: ErrorCode)
    requires Reachable(s)
    ensures Reachable(RecordRefundFailure(s, r, code).store)
  {
    hide Reachable, RecordRefundFailure;
    StepIsReachable(s, RefundFailedTx(r, code));
  }

  lemma ListingReaches(s: Store, now: Time, user: Id)
    requires Reachable(s)
    ensures Reachable(ListBookings(s, now, user).store)
  {
    hide Reachable, ListBookings;
    StepIsReachable(s, ListTx(now, user));
  }

  lemma OneKey(s: Store, key: Id)
    requires Reachable(s)
    ensures forall p, q | HasKey(s.payments, key, p) && HasKey(s.payments, key, q) :: p == q
  {
    ReachableHasInv(s);
    KeyIsUnique(s, key);
  }

  lemma OneOrder(s: Store, order: Id)
    requires Reachable(s)
    ensures forall p, q | HasOrder(s.payments, order, p) && HasOrder(s.payments, order, q) :: p == q
  {
    ReachableHasInv(s);
    OrderIsUnique(s, order);
  }

  lemma OneProviderPayment(s: Store, providerPayment: Id)
    requires Reachable(s)
    ensures forall p, q | HasProviderPayment(s.payments, providerPayment, p)
                       && HasProviderPayment(s.payments, providerPayment, q) :: p == q
  {
    ReachableHasInv(s);
    ProviderPaymentIsUnique(s, providerPayment);
  }

  lemma OneRefund(s: Store, p: Id)
    requires Reachable(s)
    ensures forall r, q | RefundOf(s.refunds, p, r) && RefundOf(s.refunds, p, q) :: r == q
  {
    ReachableHasInv(s);
    RefundIsUnique(s, p);
  }

  lemma OneBookingRefund(s: Store, booking: Id)
    requires Reachable(s)
    ensures forall r, q | RefundOfBooking(s.refunds, s.payments, booking, r)
                       && RefundOfBooking(s.refunds, s.payments, booking, q) :: r == q
  {
    ReachableHasInv(s);
    hide Inv;
    forall r, q | RefundOfBooking(s.refunds, s.payments, booking, r)
               && RefundOfBooking(s.refunds, s.payments, booking, q)
      ensures r == q
    {
      OneRefundPerBooking(s, booking, r, q);
    }
  }

  // The listing holds exactly the user's rows of the asked status, each once, and an earlier one starts
  // no earlier than a later one; rows that start together are in the order of their ids.
  lemma ListingIsExact(bookings: map<Id, Booking>, user: Id, status: Option<BookingStatus>, listing: seq<Id>)
    requires IsListing(ByLatestStart(bookings), Matching(bookings, user, status), listing)
    ensures forall b :: b in listing <==>
              && b in bookings && bookings[b].user == user
              && (status == None || status == Some(bookings[b].status))
    ensures forall i, j | 0 <= i < j < |listing| ::
              || bookings[listing[i]].startsAt > bookings[listing[j]].startsAt
              || (bookings[listing[i]].startsAt == bookings[listing[j]].startsAt && listing[i] < listing[j])
  {
    forall i, j | 0 <= i < j < |listing|
      ensures bookings[listing[i]].startsAt > bookings[listing[j]].startsAt
           || (bookings[listing[i]].startsAt == bookings[listing[j]].startsAt && listing[i] < listing[j])
    {
      assert Precedes(ByLatestStart(bookings), listing[i], listing[j]);
    }
  }

  lemma MatchIsNotStale(x: map<Id, Booking>, now: Time, user: Id, status: Option<BookingStatus>, b: Id)
    requires b in Matching(SweepTable(x, now, BookingsOfUser(x, user)), user, status)
    ensures !Stale(SweepTable(x, now, BookingsOfUser(x, user))[b], now)
  {
  }

  lemma NothingSwept(s: Store, now: Time, rows: set<Id>)
    requires rows == {}
    ensures Sweep(s, now, rows) == s
  {
  }
}
