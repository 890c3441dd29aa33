/** Amounts never drift between bookings, payments and refunds. */
module Money {
  import opened Wrappers
  import opened Ledger
  import opened LedgerInvariant
  import opened LedgerSteps
  import opened LedgerRuns
  import opened Sets

  predicate IsSubunits(n: int, amount: real) {
    n as real == amount * 100.0
  }

  // The conversion succeeds exactly when the amount has a whole number of subunits, and is exact.
  lemma ConversionIsExact(amount: real, n: int)
    ensures ToSubunits(amount).Some? <==> exists k :: IsSubunits(k, amount)
    ensures ToSubunits(amount) == Some(n) <==> IsSubunits(n, amount)
  {
    var k := (amount * CURRENCY_SUBUNITS).Floor;
    assert IsSubunits(k, amount) <==> ToSubunits(amount).Some?;
    forall m | IsSubunits(m, amount)
      ensures m == k
    {
    }
  }

  // Every payment asks for exactly a hundred times the fee its booking recorded, and every refund
  // gives exactly its payment back.
  lemma AmountsAgree(s: Store)
    requires Inv(s)
    ensures forall p | p in s.payments ::
              && s.payments[p].booking in s.bookings
              && s.bookings[s.payments[p].booking].amount.Some?
              && s.payments[p].subunits as real == s.bookings[s.payments[p].booking].amount.value * 100.0
              && s.payments[p].currency == s.bookings[s.payments[p].booking].currency
    ensures forall r | r in s.refunds ::
              && s.refunds[r].payment in s.payments
              && s.refunds[r].subunits == s.payments[s.refunds[r].payment].subunits
              && s.refunds[r].amount == s.payments[s.refunds[r].payment].amount
              && s.refunds[r].currency == s.payments[s.refunds[r].payment].currency
  {
  }

  // No later event of any run, fee edits included, changes an amount once it is written.
  lemma AmountsAreFinal(s: Store, acts: seq<Action>, i: nat, j: nat)
    requires Inv(s) && i <= j <= |acts|
    ensures forall b | b in At(s, acts, i).bookings ::
              b in At(s, acts, j).bookings && At(s, acts, j).bookings[b].amount == At(s, acts, i).bookings[b].amount
    ensures forall p | p in At(s, acts, i).payments ::
              p in At(s, acts, j).payments && At(s, acts, j).payments[p].subunits == At(s, acts, i).payments[p].subunits
    ensures forall r | r in At(s, acts, i).refunds ::
              r in At(s, acts, j).refunds && At(s, acts, j).refunds[r].subunits == At(s, acts, i).refunds[r].subunits
  {
    RunIsLater(s, acts, i, j);
  }

  /******* Totals *******/

  ghost function RefundTotal(refunds: map<Id, Refund>, ids: set<Id>): int
    requires ids <= refunds.Keys
  {
    if ids == {} then 0
    else
      var r := Pick(ids);
      refunds[r].subunits + RefundTotal(refunds, ids - {r})
  }

  ghost function PaymentTotal(payments: map<Id, Payment>, ids: set<Id>): int
    requires ids <= payments.Keys
  {
    if ids == {} then 0
    else
      var p := Pick(ids);
      payments[p].subunits + PaymentTotal(payments, ids - {p})
  }

  lemma {:induction false} PaymentTotalWithout(payments: map<Id, Payment>, ids: set<Id>, p: Id)
    requires ids <= payments.Keys && p in ids
    ensures PaymentTotal(payments, ids) == payments[p].subunits + PaymentTotal(payments, ids - {p})
  {
    var q := Pick(ids);
    if q != p {
      PaymentTotalWithout(payments, ids - {q}, p);
      PaymentTotalWithout(payments, ids - {p}, q);
      assert ids - {q} - {p} == ids - {p} - {q};
    }
  }

  function ProcessedRefunds(s: Store): set<Id> {
    set r | r in s.refunds && s.refunds[r].status.Processed?
  }

  function RefundedPayments(s: Store): set<Id> {
    set p | p in s.payments && s.payments[p].status.Refunded?
  }

  function PaymentsOf(refunds: map<Id, Refund>, ids: set<Id>): set<Id>
    requires ids <= refunds.Keys
  {
    set r | r in ids :: refunds[r].payment
  }

  lemma PaymentsOfWithout(s: Store, ids: set<Id>, r: Id)
    requires Inv(s) && ids <= s.refunds.Keys && r in ids
    ensures PaymentsOf(s.refunds, ids - {r}) == PaymentsOf(s.refunds, ids) - {s.refunds[r].payment}
  {
  }

  lemma {:induction false} RefundsTotalTheirPayments(s: Store, ids: set<Id>)
    requires Inv(s) && ids <= s.refunds.Keys
    ensures PaymentsOf(s.refunds, ids) <= s.payments.Keys
    ensures RefundTotal(s.refunds, ids) == PaymentTotal(s.payments, PaymentsOf(s.refunds, ids))
  {
    hide Inv;
    AmountsAgree(s);
    var all := PaymentsOf(s.refunds, ids);
    assert all <= s.payments.Keys;
    if ids != {} {
      var r := Pick(ids);
      RefundsTotalTheirPayments(s, ids - {r});
      PaymentsOfWithout(s, ids, r);
      PaymentTotalWithout(s.payments, all, s.refunds[r].payment);
    }
  }

  // What was paid back in total is what the refunded payments took in total.
  lemma {:induction false} PaidBackInTotal(acts: seq<Action>)
    ensures
      var s := Run(EMPTY, acts);
      RefundTotal(s.refunds, ProcessedRefunds(s)) == PaymentTotal(s.payments, RefundedPayments(s))
  {
    ReachableInv(acts);
    var s := Run(EMPTY, acts);
    RefundsTotalTheirPayments(s, ProcessedRefunds(s));
    ProcessedPayRefunded(s);
  }

  lemma ProcessedPayRefunded(s: Store)
    requires Inv(s)
    ensures PaymentsOf(s.refunds, ProcessedRefunds(s)) == RefundedPayments(s)
  {
    forall p | p in s.payments && s.payments[p].status.Refunded?
      ensures p in PaymentsOf(s.refunds, ProcessedRefunds(s))
    {
      assert PaidBack(s.refunds, p);
      var r :| RefundOf(s.refunds, p, r) && s.refunds[r].status.Processed?;
      assert r in ProcessedRefunds(s);
    }
    forall p | p in PaymentsOf(s.refunds, ProcessedRefunds(s))
      ensures p in RefundedPayments(s)
    {
      assert RefundLinks(s.refunds, s.payments);
    }
  }

  // A booking never gets more back than its fee: all its refunds are one refund of exactly the fee.
  lemma BookingRefundedOnce(s: Store, b: Id, r: Id, q: Id)
    requires Inv(s)
    requires RefundOfBooking(s.refunds, s.payments, b, r) && RefundOfBooking(s.refunds, s.payments, b, q)
    ensures r == q
    ensures b in s.bookings && Some(s.refunds[r].amount) == s.bookings[b].amount
  {
  }
}
