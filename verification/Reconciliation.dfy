/**
 The reconciliation job: it asks the provider about a batch of pending refunds, one after the
 other and without holding locks, and reports what it changed.
 */
module Reconciliation {
  import opened Wrappers
  import opened Ledger
  import opened LedgerInvariant
  import opened LedgerSteps
  import opened LedgerRuns
  import opened Sets
  import opened Listings

  datatype Counts = Counts(checked: nat, processed: nat, failed: nat, errors: nat)

  // One refund of the batch, what the provider said of it (None: no answer), and what committed while
  // it was asked.
  datatype Round = Round(refund: Id, answer: Option<RefundAnswer>, between: seq<Action>, now: Time)

  datatype Job = Job(store: Store, counts: Counts)

  const NOTHING := Counts(0, 0, 0, 0)

  function Counted(c: Counts, reply: Option<Reply>): Counts {
    Counts(
      c.checked + 1,
      c.processed + (if reply == Some(Reconciled(AnswerProcessed)) then 1 else 0),
      c.failed + (if reply == Some(Reconciled(AnswerFailed)) then 1 else 0),
      c.errors + (if reply.None? then 1 else 0))
  }

  ghost function RoundOn(j: Job, x: Round): Job {
    var s := Run(j.store, x.between);
    match x.answer
    case None => Job(s, Counted(j.counts, None))
    case Some(answer) =>
      var e := ApplyReconciled(s, x.now, x.refund, answer);
      Job(e.store, Counted(j.counts, Some(e.reply)))
  }

  // The job after the given rounds.
  ghost function JobAfter(s: Store, rounds: seq<Round>): Job {
    if rounds == [] then Job(s, NOTHING)
    else RoundOn(JobAfter(s, rounds[..|rounds| - 1]), rounds[|rounds| - 1])
  }

  lemma JobNext(s: Store, rounds: seq<Round>, x: Round)
    ensures JobAfter(s, rounds + [x]) == RoundOn(JobAfter(s, rounds), x)
  {
    hide RoundOn;
    assert (rounds + [x])[..|rounds|] == rounds;
  }

  /******* What the counts mean *******/

  function PaidOutIds(refunds: map<Id, Refund>): set<Id> {
    set r | r in refunds && refunds[r].status.Processed?
  }

  lemma OneMorePaidOut(x: map<Id, Refund>, y: map<Id, Refund>, r: Id)
    requires x.Keys == y.Keys && r in x && !x[r].status.Processed? && y[r].status.Processed?
    requires forall q | q in x && q != r :: x[q].status == y[q].status
    ensures |PaidOutIds(y)| == |PaidOutIds(x)| + 1
  {
    forall q | q in PaidOutIds(y) ensures q in PaidOutIds(x) + {r} {}
    forall q | q in PaidOutIds(x) + {r} ensures q in PaidOutIds(y) {}
    assert PaidOutIds(y) == PaidOutIds(x) + {r};
  }

  lemma SamePaidOut(x: map<Id, Refund>, y: map<Id, Refund>)
    requires x.Keys == y.Keys
    requires forall q | q in x :: x[q].status.Processed? <==> y[q].status.Processed?
    ensures |PaidOutIds(y)| == |PaidOutIds(x)|
  {
    forall q | q in PaidOutIds(y) ensures q in PaidOutIds(x) {}
    forall q | q in PaidOutIds(x) ensures q in PaidOutIds(y) {}
    assert PaidOutIds(y) == PaidOutIds(x);
  }

  // The status of a pending refund after its answer.
  function Outcome(answer: Option<RefundAnswer>): RefundStatus {
    match answer
    case None => Pending
    case Some(AnswerPending) => Pending
    case Some(AnswerProcessed) => Processed
    case Some(AnswerFailed) => Rejected
  }

  // Reconciling a pending refund always succeeds, and touches no other refund.
  lemma ReconciledRow(s: Store, now: Time, r: Id, answer: RefundAnswer)
    requires Reachable(s) && r in s.refunds && s.refunds[r].status.Pending?
    ensures
      var e := ApplyReconciled(s, now, r, answer);
      && e.reply == Reconciled(answer)
      && e.store.refunds.Keys == s.refunds.Keys
      && e.store.refunds[r].status == Outcome(Some(answer))
      && (forall q | q in s.refunds && q != r :: e.store.refunds[q] == s.refunds[q])
      && |PaidOutIds(e.store.refunds)| == |PaidOutIds(s.refunds)| + if answer.AnswerProcessed? then 1 else 0
  {
    hide Inv, Reachable, ApplyReconciled, PaidOutIds;
    ReachableHasInv(s);
    RefundFacts(s, r);
    ReconciliationWrites(s, now, r, answer);
    var t := ApplyReconciled(s, now, r, answer).store;
    if answer.AnswerProcessed? {
      OneMorePaidOut(s.refunds, t.refunds, r);
    } else {
      SamePaidOut(s.refunds, t.refunds);
    }
  }

  lemma ReconciliationWrites(s: Store, now: Time, r: Id, answer: RefundAnswer)
    requires r in s.refunds && s.refunds[r].status.Pending? && s.refunds[r].payment in s.payments
    ensures
      var e := ApplyReconciled(s, now, r, answer);
      && e.reply == Reconciled(answer)
      && r in e.store.refunds && e.store.refunds == s.refunds[r := e.store.refunds[r]]
      && e.store.refunds[r].status == Outcome(Some(answer))
  {
  }

  lemma RunPaysOut(s: Store, acts: seq<Action>)
    requires Inv(s)
    ensures |PaidOutIds(Run(s, acts).refunds)| >= |PaidOutIds(s.refunds)|
  {
    hide Inv;
    RunIsLater(s, acts, 0, |acts|);
    AtEnds(s, acts);
    hide Run;
    Contained(PaidOutIds(s.refunds), PaidOutIds(Run(s, acts).refunds));
    CardinalityBound(PaidOutIds(s.refunds), PaidOutIds(Run(s, acts).refunds));
  }

  lemma {:induction false} RunStaysReachable(s: Store, acts: seq<Action>)
    requires Reachable(s)
    ensures Reachable(Run(s, acts))
  {
    if acts != [] {
      hide Reachable, Next;
      RunStaysReachable(s, acts[..|acts| - 1]);
      StepIsReachable(Run(s, acts[..|acts| - 1]), acts[|acts| - 1]);
    }
  }

  lemma RoundIsHonest(j: Job, x: Round)
    requires Reachable(j.store)
    ensures
      var k := RoundOn(j, x);
      && Reachable(k.store)
      && k.counts.checked == j.counts.checked + 1
      && k.counts.errors == j.counts.errors + (if x.answer.None? then 1 else 0)
      && k.counts.processed + k.counts.failed + k.counts.errors
         <= j.counts.processed + j.counts.failed + j.counts.errors + 1
      && |PaidOutIds(k.store.refunds)| - k.counts.processed >= |PaidOutIds(j.store.refunds)| - j.counts.processed
  {
    ReachableHasInv(j.store);
    RunPaysOut(j.store, x.between);
    RunStaysReachable(j.store, x.between);
    if x.answer.Some? {
      AnswerIsHonest(Run(j.store, x.between), x.now, x.refund, x.answer.value);
    }
    hide Inv, Reachable, Run, ApplyReconciled, PaidOutIds;
  }

  lemma AnswerIsHonest(s: Store, now: Time, r: Id, answer: RefundAnswer)
    requires Reachable(s)
    ensures
      var e := ApplyReconciled(s, now, r, answer);
      && Reachable(e.store)
      && |PaidOutIds(e.store.refunds)|
         == |PaidOutIds(s.refunds)| + if e.reply == Reconciled(AnswerProcessed) then 1 else 0
  {
    StepIsReachable(s, ReconcileTx(now, r, answer));
    if r in s.refunds && s.refunds[r].status.Pending? {
      ReconciledRow(s, now, r, answer);
      hide ApplyReconciled;
    }
    hide Reachable, PaidOutIds;
  }

  // Whatever commits between the rounds, the job pays out at least as many refunds as it reports, and
  // accounts for every snapshot at most once.
  lemma {:induction false} CountsAreHonest(s: Store, rounds: seq<Round>)
    requires Reachable(s)
    ensures
      var j := JobAfter(s, rounds);
      && Reachable(j.store)
      && j.counts.checked == |rounds|
      && j.counts.errors == NoAnswers(rounds)
      && j.counts.processed + j.counts.failed + j.counts.errors <= |rounds|
      && |PaidOutIds(j.store.refunds)| >= |PaidOutIds(s.refunds)| + j.counts.processed
  {
    hide Reachable, RoundOn, PaidOutIds;
    if rounds != [] {
      CountsAreHonest(s, rounds[..|rounds| - 1]);
      RoundIsHonest(JobAfter(s, rounds[..|rounds| - 1]), rounds[|rounds| - 1]);
    }
  }

  function NoAnswers(rounds: seq<Round>): nat {
    if rounds == [] then 0
    else NoAnswers(rounds[..|rounds| - 1]) + if rounds[|rounds| - 1].answer.None? then 1 else 0
  }

  /******* The batch *******/

  // What the provider says of a refund, and when.
  datatype Answer = Answer(status: RefundAnswer, at: Time)

  function PendingIds(refunds: map<Id, Refund>): set<Id> {
    set r | r in refunds && refunds[r].status.Pending?
  }

  // ORDER BY created_at, id.
  function ByCreation(refunds: map<Id, Refund>): map<Id, int> {
    map r | r in refunds :: refunds[r].createdAt
  }

  predicate RoundAsks(x: Round, r: Id, answers: map<Id, Answer>) {
    && x.refund == r
    && (if r in answers then x.answer == Some(answers[r].status) && x.now == answers[r].at else x.answer == None)
  }

  // One round for each row, in order.
  ghost predicate RoundsAsk(rounds: seq<Round>, rows: seq<Id>, answers: map<Id, Answer>) {
    |rounds| == |rows| && forall i | 0 <= i < |rows| :: RoundAsks(rounds[i], rows[i], answers)
  }

  // The two tests for provider ids in the query never exclude a pending refund.
  lemma PendingHaveIds(s: Store)
    requires Reachable(s)
    ensures forall r | r in s.refunds && s.refunds[r].status.Pending? ::
              && s.refunds[r].providerRefundId.Some?
              && s.refunds[r].payment in s.payments && s.payments[s.refunds[r].payment].providerPaymentId.Some?
  {
    ReachableHasInv(s);
    hide Reachable;
    forall r | r in s.refunds && s.refunds[r].status.Pending?
      ensures s.refunds[r].providerRefundId.Some?
      ensures s.refunds[r].payment in s.payments && s.payments[s.refunds[r].payment].providerPaymentId.Some?
    {
      RefundFacts(s, r);
      PaymentFacts(s, s.refunds[r].payment);
    }
  }

  // The batch holds pending refunds only, oldest first, and leaves none out that is older than one it has;
  // it is as large as the batch size allows.
  lemma BatchIsOldestFirst(s: Store, batchSize: nat, rows: seq<Id>)
    requires IsPage(ByCreation(s.refunds), PendingIds(s.refunds), 1, batchSize, rows)
    ensures |rows| <= batchSize
    ensures forall i | 0 <= i < |rows| :: rows[i] in s.refunds && s.refunds[rows[i]].status == Pending
    ensures forall i, j | 0 <= i < j < |rows| ::
              || s.refunds[rows[i]].createdAt < s.refunds[rows[j]].createdAt
              || (s.refunds[rows[i]].createdAt == s.refunds[rows[j]].createdAt && rows[i] < rows[j])
    ensures forall r | r in s.refunds && s.refunds[r].status == Pending && r !in rows ::
              |rows| == batchSize && forall i | 0 <= i < |rows| ::
                || s.refunds[rows[i]].createdAt < s.refunds[r].createdAt
                || (s.refunds[rows[i]].createdAt == s.refunds[r].createdAt && rows[i] < r)
  {
    var key := ByCreation(s.refunds);
    var listing :| IsListing(key, PendingIds(s.refunds), listing) && rows == Page(listing, 1, batchSize);
    forall i | 0 <= i < |rows|
      ensures rows[i] == listing[i] && listing[i] in PendingIds(s.refunds)
    {
    }
    forall i, j | 0 <= i < j < |rows|
      ensures Precedes(key, rows[i], rows[j])
    {
      assert Precedes(key, listing[i], listing[j]);
    }
    forall r | r in s.refunds && s.refunds[r].status == Pending && r !in rows
      ensures |rows| == batchSize && forall i | 0 <= i < |rows| :: Precedes(key, rows[i], r)
    {
      assert r in PendingIds(s.refunds);
      var k :| 0 <= k < |listing| && listing[k] == r;
      forall i | 0 <= i < |rows|
        ensures Precedes(key, rows[i], r)
      {
        assert Precedes(key, listing[i], listing[k]);
      }
    }
  }

  lemma SnapshotsArePending(
    s: Store, listing: seq<Id>, batchSize: nat, rounds: seq<Round>, answers: map<Id, Answer>)
    requires IsListing(ByCreation(s.refunds), PendingIds(s.refunds), listing)
    requires RoundsAsk(rounds, Page(listing, 1, batchSize), answers)
    ensures PendingBatch(s, rounds)
  {
    var rows := Page(listing, 1, batchSize);
    forall i | 0 <= i < |rounds|
      ensures rounds[i].refund == listing[i] && rounds[i].refund in PendingIds(s.refunds)
    {
      assert RoundAsks(rounds[i], rows[i], answers);
    }
    forall i, j | 0 <= i < j < |rounds|
      ensures rounds[i].refund != rounds[j].refund
    {
      assert Precedes(ByCreation(s.refunds), listing[i], listing[j]);
    }
  }

  // The batch: different refunds, each pending.
  ghost predicate PendingBatch(s: Store, rounds: seq<Round>) {
    && (forall i | 0 <= i < |rounds| ::
          rounds[i].refund in s.refunds && s.refunds[rounds[i].refund].status.Pending?)
    && (forall i, j | 0 <= i < j < |rounds| :: rounds[i].refund != rounds[j].refund)
  }

  predicate Undisturbed(rounds: seq<Round>) {
    forall i | 0 <= i < |rounds| :: rounds[i].between == []
  }

  predicate InBatch(rounds: seq<Round>, r: Id) {
    exists i | 0 <= i < |rounds| :: rounds[i].refund == r
  }

  // With nothing in between, every refund of the batch gets its answer, no other refund changes, and the
  // counts are exact.
  lemma {:induction false} UndisturbedJobIsExact(s: Store, rounds: seq<Round>)
    requires Reachable(s) && PendingBatch(s, rounds) && Undisturbed(rounds)
    ensures
      var j := JobAfter(s, rounds);
      && Reachable(j.store)
      && j.store.refunds.Keys == s.refunds.Keys
      && (forall i | 0 <= i < |rounds| :: j.store.refunds[rounds[i].refund].status == Outcome(rounds[i].answer))
      && (forall r | r in s.refunds && !InBatch(rounds, r) :: j.store.refunds[r] == s.refunds[r])
      && |PaidOutIds(j.store.refunds)| == |PaidOutIds(s.refunds)| + j.counts.processed
      && j.counts.processed + j.counts.failed + j.counts.errors + Undecided(rounds) == |rounds|
  {
    hide Reachable, RoundOn, PaidOutIds;
    if rounds != [] {
      var before, last := rounds[..|rounds| - 1], rounds[|rounds| - 1];
      UndisturbedJobIsExact(s, before);
      NotYetInBatch(rounds);
      UndisturbedRound(JobAfter(s, before), last);
      hide InBatch;
      forall r | r in s.refunds && !InBatch(rounds, r)
        ensures JobAfter(s, rounds).store.refunds[r] == s.refunds[r]
      {
        assert !InBatch(before, r) && r != last.refund;
      }
    }
  }

  lemma NotYetInBatch(rounds: seq<Round>)
    requires rounds != [] && forall i, j | 0 <= i < j < |rounds| :: rounds[i].refund != rounds[j].refund
    ensures
      var before, last := rounds[..|rounds| - 1], rounds[|rounds| - 1];
      && !InBatch(before, last.refund) && InBatch(rounds, last.refund)
      && forall r | InBatch(before, r) :: InBatch(rounds, r)
  {
    assert rounds[|rounds| - 1].refund == rounds[|rounds| - 1].refund;
  }

  // Answers that leave their refund pending.
  function Undecided(rounds: seq<Round>): nat {
    if rounds == [] then 0
    else Undecided(rounds[..|rounds| - 1]) + if rounds[|rounds| - 1].answer == Some(AnswerPending) then 1 else 0
  }

  lemma UndisturbedRound(j: Job, x: Round)
    requires Reachable(j.store) && x.between == []
    requires x.refund in j.store.refunds && j.store.refunds[x.refund].status.Pending?
    ensures
      var k := RoundOn(j, x);
      && Reachable(k.store)
      && k.store.refunds.Keys == j.store.refunds.Keys
      && k.store.refunds[x.refund].status == Outcome(x.answer)
      && (forall r | r in j.store.refunds && r != x.refund :: k.store.refunds[r] == j.store.refunds[r])
      && |PaidOutIds(k.store.refunds)| - k.counts.processed == |PaidOutIds(j.store.refunds)| - j.counts.processed
      && k.counts.processed + k.counts.failed + k.counts.errors + (if x.answer == Some(AnswerPending) then 1 else 0)
         == j.counts.processed + j.counts.failed + j.counts.errors + 1
  {
    assert Run(j.store, []) == j.store;
    if x.answer.Some? {
      StepIsReachable(j.store, ReconcileTx(x.now, x.refund, x.answer.value));
      ReconciledRow(j.store, x.now, x.refund, x.answer.value);
      hide Reachable, PaidOutIds, Run;
    }
  }
}
