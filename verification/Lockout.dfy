/**
 The login lockout: five failures lock an account for fifteen minutes. The two columns
 of the user row bound the failed attempts that are checked in any stretch of time,
 however long the history and whatever the attempts.
 */
module Lockout {
  import opened Wrappers

  // Seconds.
  type Time = int
  type Secret = int

  const MAX_FAILED_ATTEMPTS: nat := 5
  const LOCKOUT_SECONDS: int := 15 * 60

  // failed_login_attempts and locked_until.
  datatype Login = Login(failures: nat, lockedUntil: Option<Time>)

  const NEVER_FAILED := Login(0, None)

  // active says whether the user was active when the attempt was made.
  datatype Attempt = Attempt(now: Time, matches: bool, active: bool)

  datatype Outcome = Refused | Failed | Succeeded

  // _is_account_locked
  predicate Locked(u: Login, now: Time) {
    u.lockedUntil.Some? && u.lockedUntil.value > now
  }

  // _record_failed_login
  function RecordFailure(u: Login, now: Time): Login {
    var failures := u.failures + 1;
    Login(failures, if failures >= MAX_FAILED_ATTEMPTS then Some(now + LOCKOUT_SECONDS) else u.lockedUntil)
  }

  // An expired lock is cleared before the attempt counts.
  function Unlocked(u: Login): Login {
    if u.lockedUntil.Some? then NEVER_FAILED else u
  }

  function OutcomeOf(u: Login, a: Attempt): Outcome {
    if Locked(u, a.now) || !a.active then Refused else if a.matches then Succeeded else Failed
  }

  // authenticate_user on the row it found.
  function Attempted(u: Login, a: Attempt): Login {
    match OutcomeOf(u, a)
    case Refused => u
    case Failed => RecordFailure(Unlocked(u), a.now)
    case Succeeded => NEVER_FAILED
  }

  function After(u: Login, attempts: seq<Attempt>): Login
    decreases |attempts|
  {
    if attempts == [] then u else After(Attempted(u, attempts[0]), attempts[1..])
  }

  function Failures(u: Login, attempts: seq<Attempt>): nat
    decreases |attempts|
  {
    if attempts == [] then 0
    else (if OutcomeOf(u, attempts[0]).Failed? then 1 else 0) + Failures(Attempted(u, attempts[0]), attempts[1..])
  }

  predicate NoSuccess(u: Login, attempts: seq<Attempt>)
    decreases |attempts|
  {
    attempts == [] || (!OutcomeOf(u, attempts[0]).Succeeded? && NoSuccess(Attempted(u, attempts[0]), attempts[1..]))
  }

  ghost predicate InOrder(attempts: seq<Attempt>) {
    forall i, j | 0 <= i < j < |attempts| :: attempts[i].now <= attempts[j].now
  }

  ghost predicate Within(attempts: seq<Attempt>, from: Time, to: Time) {
    forall i | 0 <= i < |attempts| :: from <= attempts[i].now <= to
  }

  /******* The invariant *******/

  // A lock is set exactly when the counter is at its maximum.
  predicate Inv(u: Login) {
    u.failures <= MAX_FAILED_ATTEMPTS && (u.lockedUntil.Some? <==> u.failures == MAX_FAILED_ATTEMPTS)
  }

  lemma {:induction false} HistoryKeepsInv(u: Login, attempts: seq<Attempt>)
    requires Inv(u)
    ensures Inv(After(u, attempts))
    decreases |attempts|
  {
    if attempts != [] {
      HistoryKeepsInv(Attempted(u, attempts[0]), attempts[1..]);
    }
  }

  /******* The bound *******/

  // How many failures can still be counted from now until end.
  function Allowance(u: Login, now: Time, end: Time): int
    requires now <= end
  {
    match u.lockedUntil
    case None => MAX_FAILED_ATTEMPTS - u.failures + MAX_FAILED_ATTEMPTS * ((end - now) / LOCKOUT_SECONDS)
    case Some(until) =>
      var from := if until < now then now else until;
      if from > end then 0 else MAX_FAILED_ATTEMPTS + MAX_FAILED_ATTEMPTS * ((end - from) / LOCKOUT_SECONDS)
  }

  lemma AllowanceShrinks(u: Login, earlier: Time, later: Time, end: Time)
    requires Inv(u) && earlier <= later <= end
    ensures 0 <= Allowance(u, later, end) <= Allowance(u, earlier, end)
    ensures Allowance(u, earlier, end) <= MAX_FAILED_ATTEMPTS * ((end - earlier) / LOCKOUT_SECONDS + 1)
  {
  }

  lemma AttemptSpendsAllowance(u: Login, a: Attempt, end: Time)
    requires Inv(u) && a.now <= end && !OutcomeOf(u, a).Succeeded?
    ensures (if OutcomeOf(u, a).Failed? then 1 else 0) + Allowance(Attempted(u, a), a.now, end)
         <= Allowance(u, a.now, end)
  {
  }

  lemma {:induction false} FailuresWithinAllowance(u: Login, attempts: seq<Attempt>, from: Time, to: Time)
    requires Inv(u) && from <= to
    requires InOrder(attempts) && Within(attempts, from, to) && NoSuccess(u, attempts)
    ensures Failures(u, attempts) <= Allowance(u, from, to)
    decreases |attempts|
  {
    if attempts == [] {
      AllowanceShrinks(u, from, to, to);
    } else {
      var a := attempts[0];
      AllowanceShrinks(u, from, a.now, to);
      AttemptSpendsAllowance(u, a, to);
      FailuresWithinAllowance(Attempted(u, a), attempts[1..], a.now, to);
    }
  }

  // Anywhere in any history of an account, a stretch of attempts without a success that spans at
  // most length seconds contains at most 5 * (length / 900 + 1) counted failures.
  lemma FailuresAreBounded(before: seq<Attempt>, attempts: seq<Attempt>, from: Time, length: nat)
    requires InOrder(before + attempts) && Within(attempts, from, from + length)
    requires NoSuccess(After(NEVER_FAILED, before), attempts)
    ensures Failures(After(NEVER_FAILED, before), attempts)
         <= 5 * (length / (15 * 60) + 1)
  {
    var u := After(NEVER_FAILED, before);
    HistoryKeepsInv(NEVER_FAILED, before);
    assert forall i | 0 <= i < |attempts| :: attempts[i] == (before + attempts)[|before| + i];
    FailuresWithinAllowance(u, attempts, from, from + length);
    AllowanceShrinks(u, from, from, from + length);
  }

  function Wrong(now: Time, n: nat): seq<Attempt> {
    if n == 0 then [] else [Attempt(now, false, true)] + Wrong(now, n - 1)
  }

  // Five wrong passwords each time the lock ends.
  function Bursts(now: Time, rounds: nat): seq<Attempt>
    decreases rounds
  {
    if rounds == 0 then [] else Wrong(now, MAX_FAILED_ATTEMPTS) + Bursts(now + LOCKOUT_SECONDS, rounds - 1)
  }

  lemma {:induction false} FailuresJoin(u: Login, x: seq<Attempt>, y: seq<Attempt>)
    ensures Failures(u, x + y) == Failures(u, x) + Failures(After(u, x), y)
    ensures NoSuccess(u, x + y) <==> NoSuccess(u, x) && NoSuccess(After(u, x), y)
    decreases |x|
  {
    if x == [] {
      assert x + y == y;
    } else {
      assert (x + y)[1..] == x[1..] + y;
      FailuresJoin(Attempted(u, x[0]), x[1..], y);
    }
  }

  lemma {:induction false} WrongPasswordsCount(u: Login, now: Time, n: nat)
    requires u.lockedUntil.None? && u.failures + n <= MAX_FAILED_ATTEMPTS
    requires u.failures < MAX_FAILED_ATTEMPTS
    ensures Failures(u, Wrong(now, n)) == n && NoSuccess(u, Wrong(now, n))
    ensures After(u, Wrong(now, n))
         == Login(u.failures + n, if u.failures + n == MAX_FAILED_ATTEMPTS then Some(now + LOCKOUT_SECONDS) else None)
    decreases n
  {
    if n > 0 {
      assert Wrong(now, n)[1..] == Wrong(now, n - 1);
      if n > 1 {
        WrongPasswordsCount(Attempted(u, Attempt(now, false, true)), now, n - 1);
      }
    }
  }

  lemma BurstFails(u: Login, now: Time)
    requires u == NEVER_FAILED || (u.lockedUntil.Some? && u.lockedUntil.value <= now)
    ensures Failures(u, Wrong(now, MAX_FAILED_ATTEMPTS)) == MAX_FAILED_ATTEMPTS
    ensures NoSuccess(u, Wrong(now, MAX_FAILED_ATTEMPTS))
    ensures After(u, Wrong(now, MAX_FAILED_ATTEMPTS)) == Login(MAX_FAILED_ATTEMPTS, Some(now + LOCKOUT_SECONDS))
  {
    var a := Attempt(now, false, true);
    assert Wrong(now, MAX_FAILED_ATTEMPTS)[1..] == Wrong(now, MAX_FAILED_ATTEMPTS - 1);
    WrongPasswordsCount(Login(1, None), now, MAX_FAILED_ATTEMPTS - 1);
  }

  lemma {:induction false} WrongIsInTime(now: Time, n: nat)
    ensures |Wrong(now, n)| == n && forall i | 0 <= i < n :: Wrong(now, n)[i].now == now
  {
    if n > 0 {
      WrongIsInTime(now, n - 1);
    }
  }

  lemma {:induction false} BurstsAreInTime(now: Time, rounds: nat)
    ensures InOrder(Bursts(now, rounds))
    ensures forall i | 0 <= i < |Bursts(now, rounds)| ::
              now <= Bursts(now, rounds)[i].now <= now + LOCKOUT_SECONDS * (rounds - 1)
    decreases rounds
  {
    if rounds > 0 {
      WrongIsInTime(now, MAX_FAILED_ATTEMPTS);
      BurstsAreInTime(now + LOCKOUT_SECONDS, rounds - 1);
      hide Wrong;
      var burst, rest := Wrong(now, MAX_FAILED_ATTEMPTS), Bursts(now + LOCKOUT_SECONDS, rounds - 1);
      assert forall i | |burst| <= i < |burst + rest| :: (burst + rest)[i] == rest[i - |burst|];
    }
  }

  // The bound is exact: for every length some attempts reach it.
  lemma {:induction false} BurstsReachTheBound(u: Login, now: Time, rounds: nat)
    requires u == NEVER_FAILED || (u.lockedUntil.Some? && u.lockedUntil.value <= now)
    ensures Failures(u, Bursts(now, rounds)) == MAX_FAILED_ATTEMPTS * rounds && NoSuccess(u, Bursts(now, rounds))
    decreases rounds
  {
    if rounds > 0 {
      hide Wrong;
      var burst, rest := Wrong(now, MAX_FAILED_ATTEMPTS), Bursts(now + LOCKOUT_SECONDS, rounds - 1);
      BurstFails(u, now);
      FailuresJoin(u, burst, rest);
      BurstsReachTheBound(After(u, burst), now + LOCKOUT_SECONDS, rounds - 1);
    }
  }

  lemma BoundIsReached(length: nat)
    ensures exists attempts ::
              && InOrder(attempts) && Within(attempts, 0, length) && NoSuccess(NEVER_FAILED, attempts)
              && Failures(NEVER_FAILED, attempts) == 5 * (length / (15 * 60) + 1)
  {
    var rounds := length / LOCKOUT_SECONDS + 1;
    BurstsReachTheBound(NEVER_FAILED, 0, rounds);
    BurstsAreInTime(0, rounds);
    var attempts := Bursts(0, rounds);
    assert LOCKOUT_SECONDS * (rounds - 1) <= length;
    assert InOrder(attempts) && Within(attempts, 0, length) && NoSuccess(NEVER_FAILED, attempts);
  }

  // While the lock holds, no attempt succeeds or changes anything, the right password included.
  lemma {:induction false} LockedMeansRefused(u: Login, attempts: seq<Attempt>)
    requires u.lockedUntil.Some?
    requires forall i | 0 <= i < |attempts| :: attempts[i].now < u.lockedUntil.value
    ensures After(u, attempts) == u && NoSuccess(u, attempts) && Failures(u, attempts) == 0
    decreases |attempts|
  {
    if attempts != [] {
      LockedMeansRefused(u, attempts[1..]);
    }
  }

  // An inactive account is refused whatever the password, and its row does not change. An active one is
  // refused exactly while its lock is in the future; otherwise exactly the right password succeeds and
  // clears the row, and a wrong one counts from where the last expired lock left it: from zero.
  lemma AttemptIsExact(u: Login, a: Attempt)
    requires Inv(u)
    ensures
      var locked := u.lockedUntil.Some? && u.lockedUntil.value > a.now;
      && (OutcomeOf(u, a) == Refused <==> !a.active || locked)
      && (OutcomeOf(u, a) == Succeeded <==> a.active && !locked && a.matches)
      && (!a.active || locked ==> Attempted(u, a) == u)
      && (a.active && !locked && a.matches ==> Attempted(u, a) == Login(0, None))
      && (a.active && !locked && !a.matches ==>
            var before := if u.failures == 5 then 0 else u.failures;
            Attempted(u, a) == Login(before + 1, if before + 1 == 5 then Some(a.now + 15 * 60) else None))
  {
  }

  /******* auth/service.py as it is written *******/

  class Account {
    var isActive: bool
    var password: Secret
    var failedLoginAttempts: nat
    var lockedUntil: Option<Time>

    function State(): Login
      reads this
    {
      Login(failedLoginAttempts, lockedUntil)
    }

    predicate Valid()
      reads this
    {
      Inv(State())
    }

    constructor (password: Secret)
      ensures Valid() && State() == NEVER_FAILED && isActive && this.password == password
    {
      this.password, isActive, failedLoginAttempts, lockedUntil := password, true, 0, None;
    }

    method RecordFailedLogin(now: Time)
      modifies this`failedLoginAttempts, this`lockedUntil
      ensures State() == RecordFailure(old(State()), now)
    {
      failedLoginAttempts := failedLoginAttempts + 1;
      if failedLoginAttempts >= MAX_FAILED_ATTEMPTS {
        lockedUntil := Some(now + LOCKOUT_SECONDS);
      }
    }

    // The body of authenticate_user once the user is found.
    method Authenticate(now: Time, supplied: Secret) returns (authenticated: bool)
      requires Valid()
      modifies this`failedLoginAttempts, this`lockedUntil
      ensures Valid()
      ensures State() == Attempted(old(State()), Attempt(now, supplied == password, isActive))
      ensures authenticated <==> OutcomeOf(old(State()), Attempt(now, supplied == password, isActive)).Succeeded?
    {
      var passwordMatches := supplied == password;
      authenticated := false;
      if !((lockedUntil.Some? && lockedUntil.value > now) || !isActive) {
        if lockedUntil.Some? {
          failedLoginAttempts := 0;
          lockedUntil := None;
        }
        if !passwordMatches {
          RecordFailedLogin(now);
        } else {
          failedLoginAttempts := 0;
          lockedUntil := None;
          authenticated := true;
        }
      }
    }
  }
}
