# ChargeMate: a verified model of its ledger, cache and login state machines

ChargeMate's backend is a set of small transactions over shared tables. Payment-provider calls run
*between* transactions, signed webhooks and background jobs race with both, and Redis counters and
caches race with readers. This project models those transactions in Dafny and proves what holds over
every run of them.

| modules | what they model |
|---|---|
| `Ledger`, `LedgerInvariant`, `LedgerSteps`, `LedgerRuns` | bookings, payments, refunds, charging sessions, webhook events and unanswered provider calls as one store; sixteen kinds of transaction; the invariant; theorems over every run |
| `Requests`, `Answers` | exactly when each request is granted, event believed and answer taken, what it writes and what it answers, in the fields of the rows and with every constant written out |
| `Provenance` | where money comes from: every captured payment and every confirmed booking is explained by a signed event of the run |
| `LedgerFacts`, `Journeys`, `Money`, `RefundConvergence`, `LateEvents` | what the invariant means for the guards in the code, what one transaction undoes or completes of another, conservation of money, the four-writer refund race, late and repeated payment events |
| `HoldExpiry`, `HoldLife`, `HoldLocking` | lazy against eager expiry and the batched job; what a hold keeps out and when it is as good as gone; hold creation at the grain at which it really interleaves |
| `Database`, `Reconciliation` | the service functions as they are written, each proved to perform exactly its ledger transaction or saga; what the reconciliation job's counts mean |
| `SearchCache` | the versioned station-search cache under any interleaving of readers and writers |
| `AuthSessions`, `Lockout`, `RateLimit` | refresh-token families, the login lockout, the fixed-window limiter |
| `Listings`, `Sets`, `Wrappers` | ordered and paged queries; finite sets of identifiers; absent values |

## How to read it

A ledger transaction is a total function from a store, its own clock reading and everything the outside
world decided to a new store and a reply. A transaction that rolls back gives its store back. Both provider
sagas are split: a begun payment and an opened refund leave an in-flight record behind, anything may run
before the answer, and the answer may never come. A run is any sequence of transactions, with any clocks;
only the lockout and the rate bounds need time not to run backwards.

`LedgerInvariant.Inv` is a conjunction of five groups: reservations (rows well formed, no two blocking
bookings of a point overlap), payments, refunds, settlement (paid bookings have a captured payment, no
captured payment without an error is unaccounted for) and sessions. `Good(s, t)` says that `t` satisfies it
and that every row only evolved as its life cycle allows. `LedgerSteps.StepIsGood` proves it of every
transaction; everything about runs follows from that.

The methods of `Database.Database` load rows, test, assign and roll back in the order of the Python code.
Their `Valid()` says that the tables are those of some run of the ledger, so whatever is proved of runs
holds between any two calls. The two sagas and the reconciliation job call `OtherTransactions` wherever the
code waits for the provider; its contract allows any run of the ledger. The methods of the `StationCache`, `AuthService`, `Account` and `RateLimiter`
classes relate to their state machines in the same way.

## Assumptions

- Identifiers, digests, provider ids and currencies are numbers that are only compared. Fresh UUIDs are
  unused ones; a collision is a rolled-back step. SHA-256, HMAC, JWT decoding and password hashing are opaque
  and injective; whether a signature verifies is an input.
- Unique, check and foreign-key constraints are guards that roll the step back and leave the reply the code
  gives for it. A missing row that the code dereferences anyway is the rolled-back reply `ServerError`.
- Each transaction is atomic. For most this is what their row locks provide. It is an assumption for
  `revoke_all_auth_sessions` and `authenticate_user`, which take no row lock, and for two updates of many
  sessions that lock only the rows they find: the family update inside `rotate_auth_session` and the session
  update in `change_user_password` do not see the replacement row that a concurrent rotation is inserting.
  `DeadFamilyIsUseless`, `RefreshRotatesOrKills`, `LogoutAllKillsFamilies` and `PasswordChangeKillsFamilies`
  rest on it.
- `Decimal` amounts and meter readings are exact reals; integers are unbounded.
- Where a query has no ORDER BY, or a webhook body or provider answer is not determined by the store, the
  result is an input of the step, so every theorem holds whichever it is.
- Redis answers, and does not lose the search version counter. What a lost counter does is proved
  (`LosingTheCounterServesStalePages`).
- A rate counter still answers in the millisecond of its expiry and is gone after it; `TTL` answers the remaining
  time rounded to the nearest second.

## Where the code and its comments differ, or a guard does less than it seems

- The status test on the payment in `_finalize_provider_order` and the one on the booking in
  `complete_charging_session` never decide (`FinalizeOnlyTestsTheBooking`, `CompletionOnlyTestsTheSession`).
- A repeated `payment.failed` event of a dead attempt can release a booking that waits for a newer attempt:
  `DeadAttemptReleasesNewerOne` is a run in which it does, and `FailureReleasesWhateverPends` says of every
  failure event exactly when it releases the booking.
- Logging out a session that was already replaced does not end its family (`LogoutKillsFamily` says exactly
  when logging out does). The logout route refuses a replaced session, so such a session reaches the revocation
  only if a rotation commits between the route's check and the revocation: `AuthenticatedLogoutKillsFamily` is
  the case without that race, `LateLogoutSpares` says exactly when the family survives it, and
  `LogoutLosesTheRace` is a run in which it does.
- A capture that arrives when its booking no longer waits is kept and marked (`CaptureIsExact`). If the
  booking is active, completed, cancelled or expired, no run ever pays it back (`StrandedForever`); nor does any
  run from the moment a held booking's hold has run out (`LeftBehindForever`). In every other case some run from
  then on ends with the payment refunded (`CanBePaidBackUnlessOver`). `CaptureIsStranded` is a run that reaches
  both.
- The `Retry-After` header can be up to half a second short, and is a millisecond short when a whole number of
  seconds remains. `RetryAsToldIsAdmitted` says exactly when a retry at the told time is admitted,
  `RetryAsToldCanFail` gives three requests for which it is not.

## Model

| member | source | states |
|---|---|---|
| LedgerSteps.StepIsGood | src/chargemate/payments/webhooks.py:183-230 | every one of the sixteen transactions, from any store that satisfies the invariant, leads to one that does, and every booking, payment, refund, session and event row only evolves as its life cycle allows |
| LedgerRuns.ReachableInv | src/chargemate/bookings/cancellation.py:100-162 | the invariant holds after every run from the empty store |
| LedgerSteps.CommitHoldIsGood | src/chargemate/bookings/service.py:63-92 | a committed hold keeps bookings of a point disjoint, whichever stale holds its transaction expired first |
| LedgerSteps.BeginPaymentIsGood | src/chargemate/payments/service.py:173-207 | beginning a payment keeps the invariant: the attempt is initiated, has no order yet and asks for exactly the booking's amount |
| LedgerSteps.FinalizeOrderIsGood | src/chargemate/payments/service.py:227-253 | the order's answer keeps the invariant although anything ran since the attempt began |
| LedgerSteps.CompensateFailureIsGood | src/chargemate/payments/service.py:256-278 | so does recording the provider's failure |
| LedgerSteps.VerifyCheckoutIsGood | src/chargemate/payments/service.py:123-166 | checkout verification keeps the invariant, in particular that captured payments carry their provider id and ids stay unique |
| LedgerSteps.WebhookIsGood | src/chargemate/payments/webhooks.py:48-115 | every delivery, of any body, keeps the invariant |
| LedgerSteps.CaptureIsGood | src/chargemate/payments/webhooks.py:198-211 | a capture keeps paid bookings backed and captures accounted for |
| LedgerSteps.FailureIsGood | src/chargemate/payments/webhooks.py:214-230 | a failure event never takes money away or touches a paid booking |
| LedgerSteps.RefundEventIsGood | src/chargemate/payments/webhooks.py:233-283 | refund events keep refund and payment in agreement |
| LedgerSteps.PrepareCancellationIsGood | src/chargemate/bookings/cancellation.py:85-173 | cancellation keeps the invariant: one refund per booking, in full |
| LedgerSteps.RecordRefundFailureIsGood | src/chargemate/bookings/cancellation.py:185-207 | recording a refund failure keeps the invariant whatever happened to the refund meanwhile |
| LedgerSteps.FinalizeRefundIsGood | src/chargemate/bookings/cancellation.py:210-254 | so does the provider's refund answer |
| LedgerSteps.ReconcileIsGood | src/chargemate/maintenance/service.py:132-162 | so does a reconciled refund |
| LedgerSteps.StartSessionIsGood | src/chargemate/charging_sessions/service.py:71-131 | starting a session keeps at most one charging session per point and one session per booking |
| LedgerSteps.CompleteSessionIsGood | src/chargemate/charging_sessions/service.py:141-193 | completing one couples session and booking and records non-negative energy |
| LedgerRuns.EqualVersionEqualStatus | src/chargemate/payments/service.py:297-309 | two observations of a booking with equal version saw the same row, although bookings cycle between held and payment pending |
| LedgerRuns.VersionCountsChanges | src/chargemate/payments/webhooks.py:207-230 | a booking's version grows by exactly the number of its status changes |
| LedgerRuns.VersionUsedOnce | src/chargemate/bookings/cancellation.py:117-118 | of any number of begin, cancel and start requests carrying one version of a booking, at most one has an effect |
| LedgerRuns.PaymentClimbs | src/chargemate/payments/webhooks.py:183-217 | payment status only climbs initiated, order created, authorized, failed, captured, refunded; money and learnt ids never change |
| LedgerRuns.PaidBackIsFinal | src/chargemate/bookings/cancellation.py:225-235 | a refunded payment and a processed refund never change status again |
| LedgerRuns.OneRefundCall | src/chargemate/bookings/cancellation.py:60-82 | a booking asks the provider for a refund at most once in any run |
| LedgerRuns.RedeliveryChangesNothing | src/chargemate/payments/webhooks.py:118-128 | a known event id changes nothing, and with another body it is refused |
| LedgerRuns.CommitRecordsEvent | src/chargemate/payments/webhooks.py:82-107 | an event that takes effect was unknown before and is recorded with its body's digest in the same transaction |
| LedgerRuns.EventCommitsOnce | src/chargemate/payments/webhooks.py:76-107 | an event id takes effect at most once in any run |
| LedgerRuns.RedeliveriesDoNotMatter | src/chargemate/payments/webhooks.py:76-128 | deleting every redelivery from a run, with anything in between, leaves the final store as it was |
| Requests.HoldIsGrantedExactly | src/chargemate/bookings/service.py:55-103 | a hold is granted exactly for a future interval of a bookable, available point of an active station that only run-out holds meet; it writes one held row with the fee, ten minutes and version 1, and expires exactly those holds; a refusal changes nothing |
| Requests.ExpiryIsExact | src/chargemate/bookings/service.py:222-249 | an expiry update expires exactly the given holds that ran out, one version later |
| Requests.ListingShowsOwnBookings | src/chargemate/bookings/service.py:123-170 | a listing expires exactly the user's run-out holds and shows exactly the user's rows |
| Requests.BeginIsGrantedExactly | src/chargemate/payments/service.py:73-219 | a payment begins exactly for the owner's standing hold at its version, with a new key and a positive fee of whole subunits; a refusal changes nothing |
| Requests.OrderAnswerIsExact | src/chargemate/payments/service.py:222-253 | the order's answer closes the call; it creates the order exactly for a booking that still waits, fails the payment otherwise, and writes nothing when another payment has the order |
| Requests.OrderFailureIsExact | src/chargemate/payments/service.py:256-278 | a provider failure fails the payment and gives exactly a pending booking back to its hold, or expires it |
| Requests.CheckoutIsVerifiedExactly | src/chargemate/payments/service.py:113-166 | a checkout is verified exactly with a valid signature for a payment of the user's own with this order that was verified before, or waits and no other payment has the id; only that payment is written, and anything else changes nothing |
| Requests.CancellationIsGrantedExactly | src/chargemate/bookings/cancellation.py:85-173 | exactly which cancellations are done at once, which open a refund, which find one and which are refused, and every row they write |
| Requests.StrangersChangeNothing | src/chargemate/payments/service.py:175-184 | another user's begin or cancel is refused and changes nothing |
| Requests.StartIsGrantedExactly | src/chargemate/charging_sessions/service.py:65-131 | a session starts exactly for a confirmed booking at its version, from 15 minutes before its start until its end, by an operator in control of the point, while nobody charges there; when the time and the operator are refused; what it writes |
| Requests.CompletionIsGrantedExactly | src/chargemate/charging_sessions/service.py:134-193 | a session completes exactly at its version while it charges, with a meter not below its start, by an operator in control; which refusal is given; what it writes |
| Answers.DeliveriesAreAnsweredExactly | src/chargemate/payments/webhooks.py:56-115 | forged, unreadable and known deliveries change nothing and get their answer; an event that takes effect is new, signed and recorded with its digest and outcome |
| Answers.UnknownOrderIsIgnored | src/chargemate/payments/webhooks.py:162-169 | a payment event about an unknown order is only recorded |
| Answers.DoubtfulPaymentEventIsExact | src/chargemate/payments/webhooks.py:171-183 | other money and another payment id are noted with their own error, an id in use fails the delivery, and nothing else changes |
| Answers.AuthorizationIsExact | src/chargemate/payments/webhooks.py:183-187 | a genuine authorization binds the payment id and raises exactly a payment that has only its order |
| Answers.CaptureIsExact | src/chargemate/payments/webhooks.py:188-211 | a genuine capture takes the money unless it went back, confirms exactly a pending booking, and marks exactly a payment whose booking is neither pending nor confirmed |
| Answers.FailureIsExact | src/chargemate/payments/webhooks.py:192-230 | a genuine failure fails the payment unless it holds or held money, and gives exactly a pending booking back to its hold, or expires it |
| Answers.UnknownRefundIsIgnored | src/chargemate/payments/webhooks.py:243-259 | a refund event about no refund is only recorded |
| Answers.DoubtfulRefundEventIsExact | src/chargemate/payments/webhooks.py:260-274 | other money and another refund id are noted with their own error and move no status; an id in use fails the delivery |
| Answers.RefundProcessedIsExact | src/chargemate/payments/webhooks.py:274-279 | a genuine refund.processed processes the refund whatever its status was, and refunds its payment |
| Answers.RefundFailedIsExact | src/chargemate/payments/webhooks.py:280-283 | a genuine refund.failed leaves a processed refund processed and rejects any other with the error; no payment and no booking changes |
| Answers.RefundAnswerIsExact | src/chargemate/bookings/cancellation.py:210-254 | the provider's answer closes the call and settles exactly a requested refund under an unused id: pending, failed with the error, or processed with its payment refunded |
| Answers.RefundFailureIsExact | src/chargemate/bookings/cancellation.py:185-207 | recording a failure closes the call and rejects exactly a requested refund, with the code |
| Answers.ReconciliationIsExact | src/chargemate/maintenance/service.py:132-162 | reconciliation settles exactly a pending refund, and clears its error when the money went back |
| Provenance.RaisingIsVouchedFor | src/chargemate/payments/service.py:123-155 | a step that raises a payment to authorized is its owner's signed checkout or a signed event for its order, id and money; one that raises it to captured is such an event |
| Provenance.OnlyCapturedGoesBack | src/chargemate/payments/webhooks.py:275-278 | a step that refunds a payment finds it captured or refunded |
| Provenance.MoneyIsExplained | src/chargemate/payments/webhooks.py:152-211 | in every reachable store each captured or refunded payment was captured by a signed event of the run for its order, id and money, and each authorized one was vouched for |
| Provenance.NoBookingWithoutMoney | src/chargemate/payments/webhooks.py:198-209 | a booking that is confirmed, in use or used has a payment of exactly a hundred times its fee whose signed captured event is in the run |
| LedgerFacts.OneBookingAtATime | src/chargemate/bookings/service.py:252-267 | in every reachable store at most one blocking booking occupies a charge point at any instant |
| LedgerFacts.ExclusionConstraintNeverFires | migrations/versions/c2b1ba3c8886_create_bookings_table.py:50-62 | after any hold transaction the exclusion constraint's condition holds, so it never decides |
| LedgerFacts.PaidBookingHasCapture | src/chargemate/bookings/cancellation.py:128-137 | each confirmed, active or completed booking has a captured payment, and each captured payment has a provider payment id |
| LedgerFacts.CancellingConfirmedRefundsInFull | src/chargemate/bookings/cancellation.py:125-162 | cancelling a confirmed booking at its version always opens exactly one requested refund of the whole amount, for whichever captured payment was found |
| LedgerFacts.RefundAndPaymentAgree | src/chargemate/payments/webhooks.py:275-282 | a payment is refunded exactly when its refund is processed; a payment with a refund is captured or refunded |
| LedgerFacts.NoCaptureIsSilentlyLost | src/chargemate/payments/webhooks.py:198-211 | a captured payment without an error code belongs to a paid booking, or to a cancelled one that got a refund |
| LedgerFacts.FinalizeOnlyTestsTheBooking | src/chargemate/payments/service.py:234-246 | an answered attempt is still initiated, so only the booking's status decides the branch |
| LedgerFacts.OnePaymentPerKey | src/chargemate/payments/service.py:73-77 | a request that repeats an idempotency key changes nothing and is answered from the existing payment |
| LedgerFacts.SessionMatchesBooking | src/chargemate/charging_sessions/service.py:106-114 | a booking is active exactly when it has a charging session, completed exactly when it has a finished one, and never has two |
| LedgerFacts.CompletionOnlyTestsTheSession | src/chargemate/charging_sessions/service.py:148-164 | completion conflicts exactly when the session's own test fails, and start meter plus energy is end meter |
| LedgerFacts.OneChargingSessionPerPoint | src/chargemate/charging_sessions/service.py:89-97 | two sessions never charge at one point at once |
| RefundConvergence.RefundConverges | src/chargemate/payments/webhooks.py:233-283 | if all authentic answers name the same provider refund, one refund.processed event anywhere in any run ends with the refund processed and the payment refunded |
| RefundConvergence.OpeningIsTracked | src/chargemate/bookings/cancellation.py:139-162 | cancelling opens a refund that can still take whatever id the provider gives it |
| RefundConvergence.CancelledBookingIsPaidBack | src/chargemate/bookings/cancellation.py:50-82 | convergence counted from the cancellation itself |
| RefundConvergence.RunTracks | src/chargemate/bookings/cancellation.py:185-254 | through any run the refund keeps its payment and can hold no other provider id |
| RefundConvergence.SettlingPaysOut | src/chargemate/payments/webhooks.py:274-283 | the event pays the refund out whatever status the refund had |
| HoldLife.HoldBlocks | src/chargemate/bookings/service.py:69-75 | after any run in which the hold's row still blocks and is not stale, every request for an overlapping slot is turned down and changes nothing |
| HoldLife.UnnamedOnlyExpires | src/chargemate/bookings/service.py:222-249 | in any run that neither pays for nor cancels a held booking, it is held or expired |
| HoldLife.ExpiredHoldIsForgotten | src/chargemate/bookings/service.py:222-234 | after any such run, a request from the hold's expiry on is answered as if the hold did not exist |
| Journeys.CompensationUndoesBegin | src/chargemate/payments/service.py:256-278 | compensating a begun payment restores the booking two versions later, or expires it if the hold ran out, and changes no other row |
| Journeys.CheckoutConfirms | src/chargemate/payments/webhooks.py:198-209 | begin, order answer and capture confirm the booking two versions later with one captured payment of its amount |
| Journeys.MismatchMovesNothing | src/chargemate/payments/webhooks.py:171-174 | an event with another amount or currency changes no status anywhere |
| LateEvents.FailureReleasesWhateverPends | src/chargemate/payments/webhooks.py:152-230 | of all failure events that name a payment's order, exactly the believed ones release its booking, while it is payment pending and the payment holds no money; they fail the payment and touch no other |
| LateEvents.DeadAttemptReleasesNewerOne | src/chargemate/payments/webhooks.py:214-230 | a run from the empty store after which an event about a failed attempt releases the booking while a newer attempt's order is open |
| LateEvents.OpeningNeedsConfirmed | src/chargemate/bookings/cancellation.py:125-162 | every transaction that opens a refund cancels a confirmed booking, and opens it for that booking's captured payment |
| LateEvents.StrandedForever | src/chargemate/bookings/cancellation.py:106-137 | a captured payment without a refund whose booking is active, completed, cancelled or expired stays so through every run |
| LateEvents.LeftBehindForever | src/chargemate/payments/service.py:297-309 | so does one whose booking is held, through every run from the moment the hold has run out |
| LateEvents.CanBePaidBackUnlessOver | src/chargemate/bookings/cancellation.py:85-173 | from any time t on, some run with clocks that never go back ends with the payment refunded exactly when its booking is payment pending, confirmed, or held by a hold that has not run out at t |
| LateEvents.CaptureIsStranded | src/chargemate/payments/webhooks.py:198-211 | a run from the empty store whose captured payment is left behind when the hold runs out and stranded once the row expires |
| Journeys.CancellationPaysBack | src/chargemate/bookings/cancellation.py:225-242 | cancelling and a processed answer refund exactly the picked payment, in full, and close the call |
| Journeys.SessionReturnsThePoint | src/chargemate/charging_sessions/service.py:141-184 | start then complete frees the point, completes the booking two versions later and records end minus start |
| Money.ConversionIsExact | src/chargemate/payments/service.py:312-316 | the conversion succeeds exactly when the amount has a whole number of subunits, and then gives that number |
| Money.AmountsAgree | src/chargemate/payments/service.py:186-197 | every payment is a hundred times its booking's fee snapshot and every refund equals its payment |
| Money.AmountsAreFinal | src/chargemate/bookings/service.py:81-90 | no later transaction, fee edits included, changes an amount once written |
| Money.RefundsTotalTheirPayments | src/chargemate/bookings/cancellation.py:139-148 | any set of refunds totals what their payments total |
| Money.PaidBackInTotal | src/chargemate/payments/webhooks.py:275-278 | in every reachable store the processed refunds total exactly the refunded payments |
| Money.BookingRefundedOnce | src/chargemate/bookings/cancellation.py:139-148 | all refunds of a booking are one refund of exactly its fee |
| HoldExpiry.StepIgnoresSweep | src/chargemate/bookings/service.py:69-75 | sweeping any holds before any transaction that is not earlier changes neither its reply nor, up to the sweep, its store |
| HoldExpiry.LazyAndEagerExpiryAgree | src/chargemate/maintenance/service.py:33-71 | the same over whole runs: sweeping before the run or after it gives one store |
| HoldExpiry.LazyAndEagerRepliesAgree | src/chargemate/bookings/service.py:123-127 | and no request of the run gets another reply |
| HoldExpiry.FullySweptStoresAgree | src/chargemate/bookings/service.py:222-249 | the fully swept end stores are equal |
| HoldExpiry.BatchExists | src/chargemate/maintenance/service.py:37-49 | for every size there is a batch: the earliest holds by expiry and id, min(size, stale) of them |
| HoldExpiry.BatchIsUnique | src/chargemate/maintenance/service.py:44-45 | the ordered, limited query determines the batch |
| HoldExpiry.BatchIsEarliestFirst | src/chargemate/maintenance/service.py:37-46 | the batch holds run-out holds only, and leaves out none that ran out before one it takes |
| HoldExpiry.DrainIsBulkExpiry | src/chargemate/maintenance/service.py:33-71 | repeating the batched job until nothing is stale terminates with the store of one bulk update |
| HoldLocking.FineRunIsLedgerRun | src/chargemate/bookings/service.py:63-92 | lock, expire, check and insert as separate steps, interleaved with every other transaction, always commit a run of the ledger |
| HoldLocking.NoDoubleBookingUnderInterleaving | migrations/versions/c2b1ba3c8886_create_bookings_table.py:50-62 | in every such interleaving blocking bookings of a point stay disjoint without help from the exclusion constraint |
| HoldLocking.CommitIsLedgerStep | src/chargemate/bookings/service.py:70-92 | the insert commits what a fresh check of the table would have allowed: the lock kept the old check true |
| HoldLocking.OtherKeepsTx | src/chargemate/bookings/service.py:106-120 | no other transaction can invalidate what a hold in progress has checked |
| Database.Database.constructor | migrations/versions/c2b1ba3c8886_create_bookings_table.py:19-43 | empty tables are a valid state |
| Database.Database.ExpireHolds | src/chargemate/bookings/service.py:222-249 | the bulk update expires exactly the stale rows among the given ones |
| Database.Database.CreateBookingHold | src/chargemate/bookings/service.py:55-103 | performs exactly the hold transaction; every refusal restores the table |
| Database.Database.FindUserBookings | src/chargemate/bookings/service.py:123-152 | expires the user's stale holds, then returns the asked page of the matching rows, latest start first, and their number; nothing listed as held has run out |
| Database.Database.GetUserBooking | src/chargemate/bookings/service.py:155-170 | expires the user's stale holds, then returns the booking if it is the user's |
| Database.ListingIsExact | src/chargemate/bookings/service.py:129-143 | the listing holds exactly the user's rows of the asked status, latest start first, then by id |
| Listings.ListingIsUnique | src/chargemate/bookings/service.py:143-143 | the order is total, so a listing query has one answer |
| Listings.PagesAreTheListing | src/chargemate/bookings/service.py:144-145 | the pages one after the other are the listing: no row twice, none skipped |
| Database.Database.ExpireStaleBookingHolds | src/chargemate/maintenance/service.py:33-71 | expires the rows the locked query returned; the count is how many fewer are stale, min(batch, stale) when no row is locked |
| Database.Database.CreatePaymentOrder | src/chargemate/payments/service.py:62-110 | begins the attempt and, after whatever ran meanwhile, finalizes its order or compensates; without a new attempt nothing else happens |
| Database.Database.FinalizeProviderOrder | src/chargemate/payments/service.py:222-253 | performs exactly the finalize transaction |
| Database.Database.CompensateProviderFailure | src/chargemate/payments/service.py:256-278 | performs exactly the compensation |
| Database.Database.VerifyCheckoutPayment | src/chargemate/payments/service.py:113-166 | performs exactly the verification |
| Database.Database.ProcessRazorpayWebhook | src/chargemate/payments/webhooks.py:48-115 | performs exactly the webhook transaction: authenticate, deduplicate, apply, record |
| Database.Database.ApplyPaymentWebhook | src/chargemate/payments/webhooks.py:152-195 | applies a payment event to the payment of its order |
| Database.Database.ApplyRefundWebhook | src/chargemate/payments/webhooks.py:233-283 | applies a refund event to the refund of its payment |
| Database.Database.CancelBookingWithRefund | src/chargemate/bookings/cancellation.py:50-82 | cancels and, if a refund was opened, records the missing credentials at once, or after whatever ran meanwhile the provider's failure or answer |
| Database.Database.PrepareCancellation | src/chargemate/bookings/cancellation.py:85-173 | performs exactly the cancellation, for the captured payment the query returned |
| Database.Database.ExistingCancellation | src/chargemate/bookings/cancellation.py:176-182 | finds the booking's refund if there is one |
| Database.Database.RecordRefundFailure | src/chargemate/bookings/cancellation.py:185-207 | performs exactly the failure record |
| Database.Database.FinalizeRefund | src/chargemate/bookings/cancellation.py:210-254 | performs exactly the provider's answer |
| Database.Database.ApplyReconciledRefund | src/chargemate/maintenance/service.py:132-162 | performs exactly one reconciliation |
| Reconciliation.ReconciledRow | src/chargemate/maintenance/service.py:140-157 | reconciling a pending refund always succeeds, gives it its answer's status and touches no other refund |
| Reconciliation.CountsAreHonest | src/chargemate/maintenance/service.py:84-103 | whatever commits between the rounds, the job counts every snapshot at most once and at least as many refunds are newly processed as it reports |
| Reconciliation.UndisturbedJobIsExact | src/chargemate/maintenance/service.py:84-103 | with nothing in between every refund of the batch gets its answer's status, no other changes, and the counts are exact |
| Database.Database.PendingRefundSnapshots | src/chargemate/maintenance/service.py:106-129 | the oldest pending refunds, as many as the batch allows |
| Reconciliation.BatchIsOldestFirst | src/chargemate/maintenance/service.py:106-118 | the batch holds pending refunds only, oldest first, and leaves out none older than one it has |
| Reconciliation.PendingHaveIds | src/chargemate/maintenance/service.py:110-114 | the query's two tests for provider ids never exclude a pending refund |
| Database.Database.ReconcilePendingRefunds | src/chargemate/maintenance/service.py:74-103 | performs the rounds for those snapshots in order, each after whatever ran while the provider was asked; the counts are those of the rounds |
| Database.Database.StartChargingSession | src/chargemate/charging_sessions/service.py:65-131 | performs exactly the start transaction |
| Database.Database.CompleteChargingSession | src/chargemate/charging_sessions/service.py:134-193 | performs exactly the completion |
| SearchCache.KeysAreDistinct | src/chargemate/stations/cache.py:78-85 | one cache key per query and version, and none is the version counter's key |
| SearchCache.RunIsCoherent | src/chargemate/stations/cache.py:16-75 | in every interleaving each entry and each page in a reader's hands answers its query on a catalogue its version promises |
| SearchCache.AnswersContainAnnouncedUpdates | src/chargemate/stations/routes.py:83-107 | an answer is the query on a catalogue at least as new as every update whose invalidation finished before the reader read the version |
| SearchCache.AnswersAreExactWhenQuiet | src/chargemate/stations/service.py:147-162 | when that update is still the newest, the answer is the query on the current catalogue |
| SearchCache.LateStoreIsNeverServedToOthers | src/chargemate/stations/cache.py:40-54 | a slow reader's late store is seen by no reader of another version |
| SearchCache.StoredPageIsServed | src/chargemate/stations/cache.py:24-31 | a stored page answers every later lookup of its query and version until it is lost |
| SearchCache.LosingTheCounterServesStalePages | src/chargemate/stations/cache.py:26-26 | if the counter is lost, a run with no update pending serves a page that is not the query |
| SearchCache.StationCache.GetCachedStationSearch | src/chargemate/stations/cache.py:16-37 | the key of the current version, and the entry under it |
| SearchCache.StationCache.StoreStationSearch | src/chargemate/stations/cache.py:40-54 | stores under the key it was given, or does nothing when disabled |
| SearchCache.StationCache.InvalidateStationSearches | src/chargemate/stations/cache.py:63-70 | advances the counter, or does nothing when disabled |
| SearchCache.StationCache.ListChargingStations | src/chargemate/stations/routes.py:75-107 | one client at a time always gets the query on the catalogue, cached or not, and leaves it cached |
| SearchCache.StationCache.CommitAndInvalidate | src/chargemate/stations/service.py:82-93 | after commit and advance, whatever is served is the query on the new catalogue |
| AuthSessions.ReachableInv | src/chargemate/auth/service.py:152-305 | after every run each family's sessions form one chain along replaced_by_id, tokens are distinct and replaced sessions are revoked |
| AuthSessions.LiveSessionIsLast | src/chargemate/auth/service.py:195-207 | a session that still works is the end of its family's chain |
| AuthSessions.OneLiveSession | src/chargemate/auth/service.py:195-207 | a family has at most one live session |
| AuthSessions.ReplacementsAreInjective | src/chargemate/models/auth_session.py:53-57 | no two sessions are replaced by the same one |
| AuthSessions.RefreshRotatesOrKills | src/chargemate/auth/service.py:169-223 | presenting a known token rotates it, or kills its family, exactly when it was revoked, expired or its user is disabled |
| AuthSessions.TokenRotatesOnce | src/chargemate/auth/service.py:183-207 | a refresh token rotates at most once in any run; presenting it again kills its family |
| AuthSessions.DeadFamilyIsUseless | src/chargemate/auth/decorators.py:41-51 | after any run, no token of a dead family refreshes and none of its sessions authenticates |
| AuthSessions.LoginIsExact | src/chargemate/auth/service.py:152-166 | a login opens one session of a family of its own, for thirty days |
| AuthSessions.RotationIsExact | src/chargemate/auth/service.py:169-223 | exactly when a rotation succeeds, the successor it opens for thirty days, and which sessions a refusal revokes |
| AuthSessions.RevocationsAreExact | src/chargemate/auth/service.py:226-305 | exactly which sessions logging out, logging out everywhere and changing the password revoke |
| AuthSessions.LiveUnlessEnded | src/chargemate/auth/service.py:169-305 | a session stays live through exactly the steps that do not present a token of its family, log it or its user out, or change the password |
| AuthSessions.SessionWorksExactly | src/chargemate/auth/decorators.py:41-51 | a session opened at time t authenticates at now, after any run, exactly when now is less than thirty days after t, its owner asks, the owner is active, and no step since has ended it |
| AuthSessions.LogoutKillsFamily | src/chargemate/auth/service.py:226-245 | logging a session out kills its family exactly when the session was live or the family already dead |
| AuthSessions.AuthenticatedLogoutKillsFamily | src/chargemate/auth/routes.py:139-146 | logging out a session that authenticates kills its family |
| AuthSessions.LateLogoutSpares | src/chargemate/auth/routes.py:139-146 | after any run since the check, the family survives the logout exactly when the session is no longer live and another one of the family is |
| AuthSessions.LogoutLosesTheRace | src/chargemate/auth/service.py:226-245 | a run from the empty store in which the session authenticates, a rotation commits, and logging out leaves the family alive |
| AuthSessions.LogoutAllKillsFamilies | src/chargemate/auth/service.py:248-264 | logging out everywhere kills every family of the user |
| AuthSessions.PasswordChangeKillsFamilies | src/chargemate/auth/service.py:267-305 | a password change succeeds exactly for the right, different password, and kills every family of the user; otherwise nothing changes |
| AuthSessions.AuthService.CreateAuthSession | src/chargemate/auth/service.py:152-166 | opens a new family with one live session |
| AuthSessions.AuthService.RotateAuthSession | src/chargemate/auth/service.py:169-223 | performs exactly the rotation |
| AuthSessions.AuthService.RevokeTokenFamily | src/chargemate/auth/service.py:337-346 | revokes exactly the live sessions of the family |
| AuthSessions.AuthService.RevokeAuthSession | src/chargemate/auth/service.py:226-245 | tells whether the session was live and the user's; if so its family is dead |
| AuthSessions.AuthService.RevokeAllAuthSessions | src/chargemate/auth/service.py:248-264 | the count is the number of the user's live sessions |
| AuthSessions.AuthService.ChangeUserPassword | src/chargemate/auth/service.py:267-305 | performs exactly the password change |
| AuthSessions.AuthService.AccessTokenAccepted | src/chargemate/auth/decorators.py:41-51 | accepts exactly live, unexpired sessions of active users, and only the end of a chain |
| Lockout.HistoryKeepsInv | src/chargemate/auth/service.py:320-327 | after any history a lock is set exactly when the counter is at its maximum |
| Lockout.FailuresAreBounded | src/chargemate/auth/service.py:107-149 | any stretch without a success that spans T seconds contains at most 5 * (T / 900 + 1) counted failures |
| Lockout.BoundIsReached | src/chargemate/config.py:22-23 | for every T some attempts reach that bound |
| Lockout.AttemptIsExact | src/chargemate/auth/service.py:129-144 | an inactive or locked account is refused unchanged; otherwise exactly the right password succeeds and clears the row, and the fifth wrong one locks for 15 minutes |
| Lockout.LockedMeansRefused | src/chargemate/auth/service.py:308-317 | while the lock holds every attempt is refused and changes nothing, the right password included |
| Lockout.Account.Authenticate | src/chargemate/auth/service.py:107-149 | performs exactly one attempt |
| Lockout.Account.RecordFailedLogin | src/chargemate/auth/service.py:320-327 | counts, and locks at the limit |
| RateLimit.AdmittedIsBounded | src/chargemate/security/rate_limit.py:37-63 | with P one millisecond more than the window W, an interval of T milliseconds admits at most limit * (T / P + 1), plus limit - 1 if P does not divide T, hence at most limit * (T / W rounded up + 1) requests of a client |
| RateLimit.BoundIsReached | src/chargemate/security/rate_limit.py:13-20 | for every T, window and positive limit some arrivals reach the first bound |
| RateLimit.RejectedUntilTold | src/chargemate/security/rate_limit.py:57-74 | a client over the limit stays rejected until its counter expires |
| RateLimit.AdmittedAfterExpiry | src/chargemate/security/rate_limit.py:57-74 | the next request of a rejected client is admitted exactly after its counter's expiry |
| RateLimit.RetryAsToldIsAdmitted | src/chargemate/security/rate_limit.py:57-74 | a retry exactly when the header said is admitted exactly when the remaining time was rounded up |
| RateLimit.RetryAsToldCanFail | src/chargemate/security/rate_limit.py:13-20 | three rejected requests whose header is too small: 2 seconds with 2.4 or 2 left, 0 with 0.4 left |
| RateLimit.RateLimiter.Eval | src/chargemate/security/rate_limit.py:13-20 | the script's count, and its time to live rounded to seconds |
| RateLimit.RateLimiter.Check | src/chargemate/security/rate_limit.py:33-74 | admits exactly counts within the limit, and reports what remains and when to retry; a rejected client is told a positive time exactly when half a second or more remains |

## Left out

- Flask routing and serialisation, Pydantic field checks, CLI and RQ wiring, health checks and headers: input, output or one-branch validation.
- The frontend.
- The Razorpay and Open Charge Map clients: their answers are inputs of the steps, already shaped by the clients' own payload checks. The clients' payload checks are not part of this model.
- Missing provider credentials before a payment begins and a missing webhook secret: one branch before any state is read. A missing refund credential is the recorded failure with its own error code.
- `find_public_stations`: an arbitrary function of a committed catalogue and a query; distances and pagination are inside it.
- The bodies of `create_station`, `update_station` and `update_charge_point`: for the ledger any edit of the charge points, for the cache any commit followed by an advance. Their version checks would be one more optimistic-locking guard.
- The cache of external stations, which has no version and serves a page until it expires.
- Redis failures: the limiter then admits everything, the cache is bypassed, and a failed advance leaves its update unannounced (it stays in `writers`).
- Cache entries' time to live: an entry may be lost at any step, so expiry is one of the behaviours covered.
- `cancel_user_booking`: no route uses it, and it cancels a confirmed booking without a refund. It is not a transaction of the ledger.
- Isolation below row locks, the ORM's identity map and the aliasing of loaded rows: a method reads a row, changes a copy and writes it back to the table.
- `amount_subunits` as a 32-bit column and the precision of `Numeric` columns.
- Created-at columns other than the refunds', updated-at columns, receipts, names and other fields no decision reads.
- `find_user_charging_sessions`, `find_operator_charging_operations` and `get_user_charging_session`: plain reads.
- `register_user`, except that users come to exist: one uniqueness check.
- Deadlocks: a step that would wait for a locked row happens later; that it happens at all is not claimed.
- Rows of the interrupted session status: nothing in the code writes it.
- Stepwise hold creation is left out of the lazy-against-eager expiry theorems, because the set it expires is fixed when it runs; `HoldLocking` covers it.
- RefundConvergence.RefundConverges: needs every authentic answer about the refund to carry the one provider refund id; with differing ids the code records a mismatch, and the money may stay captured.
- SearchCache.StationCache.ListChargingStations: the method is for one client at a time; interleavings are the subject of `RunIsCoherent` and the lemmas after it.
