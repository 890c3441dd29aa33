/**
 Refresh-token rotation with reuse detection, in the pattern of section 4.14.2 of RFC 9700.
 Every login starts a family of sessions; each rotation replaces the newest one. The sessions
 of a family always form one chain whose last element alone can still be used, and a
 family that was ever shut down stays shut down.
 */
module AuthSessions {
  import opened Wrappers

  type Id = int
  // Seconds.
  type Time = int

  const REFRESH_TOKEN_SECONDS: int := 30 * 24 * 3600

  // The password hash answers exactly the password it was made from.
  datatype User = User(active: bool, password: Id)

  // token is the stored digest.
  datatype Session = Session(
    user: Id, token: Id, family: Id, expiresAt: Time,
    revokedAt: Option<Time>, lastUsedAt: Option<Time>, replacedBy: Option<Id>)

  datatype Accounts = Accounts(users: map<Id, User>, sessions: map<Id, Session>)

  datatype Reply = Done | Issued(session: Id) | RefreshError | PasswordError | ServerError

  datatype Effect = Effect(after: Accounts, reply: Reply)

  /******* Transactions *******/

  predicate TokenTaken(sessions: map<Id, Session>, token: Id) {
    exists x | x in sessions :: sessions[x].token == token
  }

  predicate FamilyUsed(sessions: map<Id, Session>, family: Id) {
    exists x | x in sessions :: sessions[x].family == family
  }

  // create_auth_session. Fresh identifiers are unused ones; a collision is rolled back.
  function CreateSession(s: Accounts, now: Time, user: Id, id: Id, token: Id, family: Id): Effect {
    if user !in s.users || id in s.sessions || TokenTaken(s.sessions, token) || FamilyUsed(s.sessions, family)
    then Effect(s, ServerError)
    else
      var x := Session(user, token, family, now + REFRESH_TOKEN_SECONDS, None, None, None);
      Effect(s.(sessions := s.sessions[id := x]), Issued(id))
  }

  function RevokedRow(x: Session, now: Time): Session {
    if x.revokedAt.None? then x.(revokedAt := Some(now)) else x
  }

  // _revoke_token_family
  function RevokeFamily(sessions: map<Id, Session>, family: Id, now: Time): map<Id, Session> {
    map x | x in sessions :: if sessions[x].family == family then RevokedRow(sessions[x], now) else sessions[x]
  }

  function RevokeUser(sessions: map<Id, Session>, user: Id, now: Time): map<Id, Session> {
    map x | x in sessions :: if sessions[x].user == user then RevokedRow(sessions[x], now) else sessions[x]
  }

  ghost predicate HasToken(sessions: map<Id, Session>, token: Id, x: Id) {
    x in sessions && sessions[x].token == token
  }

  ghost function SessionWithToken(sessions: map<Id, Session>, token: Id): (x: Option<Id>)
    ensures if x.Some? then HasToken(sessions, token, x.value) else forall y :: !HasToken(sessions, token, y)
  {
    if exists y :: HasToken(sessions, token, y) then var y :| HasToken(sessions, token, y); Some(y) else None
  }

  // rotate_auth_session once the session of the token is found.
  function RotateOn(s: Accounts, now: Time, x: Id, id: Id, newToken: Id): Effect
    requires x in s.sessions
  {
    var row := s.sessions[x];
    if row.revokedAt.Some? then Effect(s.(sessions := RevokeFamily(s.sessions, row.family, now)), RefreshError)
    else if row.expiresAt <= now then
      Effect(s.(sessions := s.sessions[x := row.(revokedAt := Some(now))]), RefreshError)
    else if row.user !in s.users then Effect(s, ServerError)
    else if !s.users[row.user].active then
      Effect(s.(sessions := RevokeFamily(s.sessions, row.family, now)), RefreshError)
    else if id in s.sessions || TokenTaken(s.sessions, newToken) then Effect(s, ServerError)
    else
      var next := Session(row.user, newToken, row.family, now + REFRESH_TOKEN_SECONDS, None, None, None);
      var old' := row.(revokedAt := Some(now), lastUsedAt := Some(now), replacedBy := Some(id));
      Effect(s.(sessions := s.sessions[id := next][x := old']), Issued(id))
  }

  // rotate_auth_session
  ghost function Rotate(s: Accounts, now: Time, token: Id, id: Id, newToken: Id): Effect {
    match SessionWithToken(s.sessions, token)
    case None => Effect(s, RefreshError)
    case Some(x) => RotateOn(s, now, x, id, newToken)
  }

  // revoke_auth_session
  function Logout(s: Accounts, now: Time, session: Id, user: Id): Accounts {
    if session !in s.sessions || s.sessions[session].user != user then s
    else s.(sessions := s.sessions[session := RevokedRow(s.sessions[session], now)])
  }

  // revoke_all_auth_sessions
  function LogoutAll(s: Accounts, now: Time, user: Id): Accounts {
    s.(sessions := RevokeUser(s.sessions, user, now))
  }

  // change_user_password
  function ChangePassword(s: Accounts, now: Time, user: Id, current: Id, replacement: Id): Effect {
    if user !in s.users || s.users[user].password != current || s.users[user].password == replacement
    then Effect(s, PasswordError)
    else
      Effect(
        Accounts(s.users[user := s.users[user].(password := replacement)], RevokeUser(s.sessions, user, now)),
        Done)
  }

  // The liveness check of access_token_required.
  predicate Authenticates(s: Accounts, now: Time, user: Id, session: Id) {
    && user in s.users && s.users[user].active
    && session in s.sessions && s.sessions[session].user == user
    && s.sessions[session].revokedAt.None?
    && s.sessions[session].expiresAt > now
  }

  datatype Action =
    | RegisterTx(user: Id, password: Id)
    | CreateTx(now: Time, user: Id, id: Id, token: Id, family: Id)
    | RotateTx(now: Time, token: Id, id: Id, newToken: Id)
    | LogoutTx(now: Time, session: Id, user: Id)
    | LogoutAllTx(now: Time, user: Id)
    | ChangePasswordTx(now: Time, user: Id, current: Id, password: Id)
    | SetActiveTx(user: Id, active: bool)

  ghost function Apply(s: Accounts, a: Action): Effect {
    match a
    case RegisterTx(user, password) =>
      if user in s.users then Effect(s, ServerError)
      else Effect(s.(users := s.users[user := User(true, password)]), Done)
    case CreateTx(now, user, id, token, family) => CreateSession(s, now, user, id, token, family)
    case RotateTx(now, token, id, newToken) => Rotate(s, now, token, id, newToken)
    case LogoutTx(now, session, user) => Effect(Logout(s, now, session, user), Done)
    case LogoutAllTx(now, user) => Effect(LogoutAll(s, now, user), Done)
    case ChangePasswordTx(now, user, current, password) => ChangePassword(s, now, user, current, password)
    case SetActiveTx(user, active) =>
      if user !in s.users then Effect(s, ServerError)
      else Effect(s.(users := s.users[user := s.users[user].(active := active)]), Done)
  }

  ghost function Next(s: Accounts, a: Action): Accounts {
    Apply(s, a).after
  }

  const EMPTY := Accounts(map[], map[])

  ghost function Run(s: Accounts, acts: seq<Action>): Accounts {
    if acts == [] then s else Next(Run(s, acts[..|acts| - 1]), acts[|acts| - 1])
  }

  /******* The chain of a family *******/

  ghost predicate IsChain(sessions: map<Id, Session>, family: Id, c: seq<Id>) {
    && c != []
    && (forall i, j | 0 <= i < j < |c| :: c[i] != c[j])
    && (forall i | 0 <= i < |c| :: c[i] in sessions && sessions[c[i]].family == family)
    && (forall x | x in sessions && sessions[x].family == family :: x in c)
    && (forall i | 0 <= i < |c| - 1 :: sessions[c[i]].replacedBy == Some(c[i + 1]))
    && sessions[c[|c| - 1]].replacedBy.None?
  }

  ghost predicate HasChain(sessions: map<Id, Session>, family: Id) {
    exists c :: IsChain(sessions, family, c)
  }

  predicate Live(sessions: map<Id, Session>, x: Id) {
    x in sessions && sessions[x].revokedAt.None?
  }

  ghost predicate Chained(sessions: map<Id, Session>) {
    forall x | x in sessions :: HasChain(sessions, sessions[x].family)
  }

  ghost predicate Rows(s: Accounts) {
    && (forall x | x in s.sessions :: s.sessions[x].user in s.users)
    && (forall x | x in s.sessions && s.sessions[x].replacedBy.Some? :: s.sessions[x].revokedAt.Some?)
    && (forall x, y | x in s.sessions && y in s.sessions && s.sessions[x].family == s.sessions[y].family ::
          s.sessions[x].user == s.sessions[y].user)
    && (forall x, y | x in s.sessions && y in s.sessions && x != y :: s.sessions[x].token != s.sessions[y].token)
  }

  ghost predicate Inv(s: Accounts) {
    Rows(s) && Chained(s.sessions)
  }

  // Only revocation: nobody joins, leaves or is replaced.
  ghost predicate OnlyRevokes(x: map<Id, Session>, y: map<Id, Session>) {
    && x.Keys == y.Keys
    && forall k | k in x :: y[k] == x[k] || (x[k].revokedAt.None? && y[k] == x[k].(revokedAt := y[k].revokedAt))
  }

  lemma RevokingKeepsChain(x: map<Id, Session>, y: map<Id, Session>, family: Id, c: seq<Id>)
    requires OnlyRevokes(x, y) && IsChain(x, family, c)
    ensures IsChain(y, family, c)
  {
  }

  lemma RevokingKeepsChains(x: map<Id, Session>, y: map<Id, Session>)
    requires Chained(x) && OnlyRevokes(x, y)
    ensures Chained(y)
  {
    hide IsChain;
    forall k | k in y
      ensures HasChain(y, y[k].family)
    {
      assert HasChain(x, x[k].family);
      var c :| IsChain(x, x[k].family, c);
      RevokingKeepsChain(x, y, x[k].family, c);
    }
  }

  lemma OpeningKeepsChains(x: map<Id, Session>, id: Id, row: Session)
    requires Chained(x) && id !in x && !FamilyUsed(x, row.family) && row.replacedBy.None?
    ensures Chained(x[id := row])
  {
    var y := x[id := row];
    forall k | k in y
      ensures HasChain(y, y[k].family)
    {
      if k == id {
        assert IsChain(y, row.family, [id]);
      } else {
        assert HasChain(x, x[k].family);
        var c :| IsChain(x, x[k].family, c);
        assert id !in c;
        assert IsChain(y, y[k].family, c);
      }
    }
  }

  // A session that is not replaced is the end of its chain.
  lemma UnreplacedIsLast(sessions: map<Id, Session>, family: Id, c: seq<Id>, x: Id)
    requires IsChain(sessions, family, c)
    requires x in sessions && sessions[x].family == family && sessions[x].replacedBy.None?
    ensures x == c[|c| - 1]
  {
    assert x in c;
    forall i | 0 <= i < |c| - 1
      ensures c[i] != x
    {
      assert sessions[c[i]].replacedBy == Some(c[i + 1]);
    }
    assert x in c;
  }

  lemma ReplacingExtendsChain(x: map<Id, Session>, k: Id, id: Id, row: Session, next: Session, c: seq<Id>)
    requires k in x && id !in x && x[k].replacedBy.None? && IsChain(x, x[k].family, c)
    requires row.replacedBy == Some(id) && row.family == x[k].family
    requires next.replacedBy.None? && next.family == x[k].family
    ensures IsChain(x[id := next][k := row], x[k].family, c + [id])
  {
    UnreplacedIsLast(x, x[k].family, c, k);
    assert id !in c;
  }

  lemma ReplacingKeepsOthers(
    x: map<Id, Session>, k: Id, id: Id, row: Session, next: Session, family: Id, c: seq<Id>)
    requires k in x && id !in x && family != x[k].family && IsChain(x, family, c)
    requires row.family == x[k].family && next.family == x[k].family
    ensures IsChain(x[id := next][k := row], family, c)
  {
    assert k !in c && id !in c;
  }

  lemma ReplacingKeepsChains(x: map<Id, Session>, k: Id, id: Id, row: Session, next: Session)
    requires Chained(x) && k in x && id !in x && x[k].replacedBy.None?
    requires row.replacedBy == Some(id) && row.family == x[k].family
    requires next.replacedBy.None? && next.family == x[k].family
    ensures Chained(x[id := next][k := row])
  {
    hide IsChain;
    var y := x[id := next][k := row];
    forall m | m in y
      ensures HasChain(y, y[m].family)
    {
      var family := y[m].family;
      if family == x[k].family {
        assert HasChain(x, family);
        var c :| IsChain(x, family, c);
        ReplacingExtendsChain(x, k, id, row, next, c);
      } else {
        assert HasChain(x, x[m].family);
        var c :| IsChain(x, family, c);
        ReplacingKeepsOthers(x, k, id, row, next, family, c);
      }
    }
  }

  lemma RotateOnKeepsInv(s: Accounts, now: Time, x: Id, id: Id, newToken: Id)
    requires Inv(s) && x in s.sessions
    ensures Inv(RotateOn(s, now, x, id, newToken).after)
  {
    hide Chained;
    var e := RotateOn(s, now, x, id, newToken);
    var row := s.sessions[x];
    if e.reply.Issued? {
      ReplacingKeepsChains(s.sessions, x, id, e.after.sessions[x], e.after.sessions[id]);
    } else {
      RevokingKeepsChains(s.sessions, e.after.sessions);
    }
  }

  lemma StepKeepsInv(s: Accounts, a: Action)
    requires Inv(s)
    ensures Inv(Next(s, a))
  {
    hide Chained, RotateOn;
    var t := Next(s, a);
    match a
    case CreateTx(now, user, id, token, family) =>
      if t != s {
        OpeningKeepsChains(s.sessions, id, t.sessions[id]);
      }
    case RotateTx(now, token, id, newToken) =>
      var x := SessionWithToken(s.sessions, token);
      if x.Some? {
        RotateOnKeepsInv(s, now, x.value, id, newToken);
      }
    case LogoutTx(_, _, _) => RevokingKeepsChains(s.sessions, t.sessions);
    case LogoutAllTx(_, _) => RevokingKeepsChains(s.sessions, t.sessions);
    case ChangePasswordTx(_, _, _, _) => RevokingKeepsChains(s.sessions, t.sessions);
    case _ =>
  }

  lemma {:induction false} RunKeepsInv(s: Accounts, acts: seq<Action>)
    requires Inv(s)
    ensures Inv(Run(s, acts))
  {
    if acts != [] {
      hide Inv, Next;
      RunKeepsInv(s, acts[..|acts| - 1]);
      StepKeepsInv(Run(s, acts[..|acts| - 1]), acts[|acts| - 1]);
    }
  }

  lemma ReachableInv(acts: seq<Action>)
    ensures Inv(Run(EMPTY, acts))
  {
    RunKeepsInv(EMPTY, acts);
  }

  /******* What the chain gives *******/

  // The sessions of a family are one chain, and a session that still works is its end.
  lemma LiveSessionIsLast(s: Accounts, x: Id)
    requires Inv(s) && Live(s.sessions, x)
    ensures exists c :: IsChain(s.sessions, s.sessions[x].family, c) && x == c[|c| - 1]
  {
    assert HasChain(s.sessions, s.sessions[x].family);
    var c :| IsChain(s.sessions, s.sessions[x].family, c);
    UnreplacedIsLast(s.sessions, s.sessions[x].family, c, x);
  }

  // At most one session of a family is live.
  lemma OneLiveSession(s: Accounts, x: Id, y: Id)
    requires Inv(s) && Live(s.sessions, x) && Live(s.sessions, y)
    requires s.sessions[x].family == s.sessions[y].family
    ensures x == y
  {
    var family := s.sessions[x].family;
    assert HasChain(s.sessions, family);
    var c :| IsChain(s.sessions, family, c);
    UnreplacedIsLast(s.sessions, family, c, x);
    UnreplacedIsLast(s.sessions, family, c, y);
  }

  // replaced_by_id is injective and never leads back: along it the position in the chain grows.
  lemma ReplacementsAreInjective(s: Accounts, x: Id, y: Id)
    requires Inv(s) && x in s.sessions && y in s.sessions
    requires s.sessions[x].replacedBy.Some? && s.sessions[x].replacedBy == s.sessions[y].replacedBy
    ensures x == y
  {
    var f, g := s.sessions[x].family, s.sessions[y].family;
    assert HasChain(s.sessions, f) && HasChain(s.sessions, g);
    hide Inv, IsChain;
    var c :| IsChain(s.sessions, f, c);
    var d :| IsChain(s.sessions, g, d);
    var i := ReplacementIsNext(s.sessions, f, c, x);
    var j := ReplacementIsNext(s.sessions, g, d, y);
    assert f == g;
    var k := ReplacementIsNext(s.sessions, f, c, y);
    PlacesAreDistinct(s.sessions, f, c, i + 1, k + 1);
  }

  lemma PlacesAreDistinct(sessions: map<Id, Session>, family: Id, c: seq<Id>, i: nat, k: nat)
    requires IsChain(sessions, family, c) && i < |c| && k < |c| && c[i] == c[k]
    ensures i == k
  {
  }

  lemma ReplacementIsNext(sessions: map<Id, Session>, family: Id, c: seq<Id>, x: Id) returns (i: nat)
    requires IsChain(sessions, family, c)
    requires x in sessions && sessions[x].family == family && sessions[x].replacedBy.Some?
    ensures i < |c| - 1 && c[i] == x && sessions[x].replacedBy == Some(c[i + 1])
    ensures c[i + 1] in sessions && sessions[c[i + 1]].family == family
  {
    assert x in c;
    i :| 0 <= i < |c| && c[i] == x;
    assert i < |c| - 1;
  }

  /******* Death of a family *******/

  ghost predicate Dead(sessions: map<Id, Session>, family: Id) {
    && FamilyUsed(sessions, family)
    && forall x | x in sessions && sessions[x].family == family :: sessions[x].revokedAt.Some?
  }

  lemma StepKeepsDead(s: Accounts, a: Action, family: Id)
    requires Dead(s.sessions, family)
    ensures Dead(Next(s, a).sessions, family)
  {
    var x :| x in s.sessions && s.sessions[x].family == family;
    assert x in Next(s, a).sessions && Next(s, a).sessions[x].family == family;
  }

  lemma {:induction false} DeadStaysDead(s: Accounts, acts: seq<Action>, family: Id)
    requires Dead(s.sessions, family)
    ensures Dead(Run(s, acts).sessions, family)
  {
    if acts != [] {
      hide Next, Dead;
      DeadStaysDead(s, acts[..|acts| - 1], family);
      StepKeepsDead(Run(s, acts[..|acts| - 1]), acts[|acts| - 1], family);
    }
  }

  // After any run from a store in which the family is dead, none of its tokens refreshes and none
  // of its access tokens authenticates.
  lemma DeadFamilyIsUseless(s: Accounts, acts: seq<Action>, family: Id, now: Time, x: Id, id: Id, newToken: Id)
    requires Inv(s) && Dead(s.sessions, family)
    requires x in Run(s, acts).sessions && Run(s, acts).sessions[x].family == family
    ensures
      var t := Run(s, acts);
      && Rotate(t, now, t.sessions[x].token, id, newToken).reply == RefreshError
      && forall user :: !Authenticates(t, now, user, x)
  {
    DeadStaysDead(s, acts, family);
    RunKeepsInv(s, acts);
    FindsToken(Run(s, acts), x);
    hide Run;
  }

  lemma FindsToken(s: Accounts, x: Id)
    requires Inv(s) && x in s.sessions
    ensures SessionWithToken(s.sessions, s.sessions[x].token) == Some(x)
  {
    assert HasToken(s.sessions, s.sessions[x].token, x);
  }

  // Presenting a known token either rotates it or kills its family, unless a fresh identifier
  // was not fresh. Reuse, expiry and a disabled user all end in death.
  lemma RefreshRotatesOrKills(s: Accounts, now: Time, x: Id, id: Id, newToken: Id)
    requires Inv(s) && x in s.sessions
    ensures
      var e := Rotate(s, now, s.sessions[x].token, id, newToken);
      var row := s.sessions[x];
      && (e.reply.RefreshError? <==> row.revokedAt.Some? || row.expiresAt <= now || !s.users[row.user].active)
      && (e.reply.RefreshError? ==> Dead(e.after.sessions, row.family))
      && (e.reply.Issued? ==>
            && e.reply.session == id && Live(e.after.sessions, id) && !Live(e.after.sessions, x)
            && e.after.sessions[id].family == row.family && e.after.sessions[id].user == row.user
            && e.after.sessions[x].replacedBy == Some(id))
      && (e.reply.ServerError? ==> (id in s.sessions || TokenTaken(s.sessions, newToken)) && e.after == s)
  {
    FindsToken(s, x);
    var row := s.sessions[x];
    var t := Rotate(s, now, row.token, id, newToken).after;
    assert Rotate(s, now, row.token, id, newToken) == RotateOn(s, now, x, id, newToken);
    if row.revokedAt.Some? || row.expiresAt <= now || !s.users[row.user].active {
      assert x in t.sessions && t.sessions[x].family == row.family;
      forall y | y in t.sessions && t.sessions[y].family == row.family
        ensures t.sessions[y].revokedAt.Some?
      {
        if row.revokedAt.None? && row.expiresAt <= now && Live(s.sessions, y) {
          OneLiveSession(s, x, y);
        }
      }
    }
  }

  // Logging a session out kills its family exactly when that session was live, or the family was
  // dead already: logging out an old, replaced session leaves its replacement working.
  lemma LogoutKillsFamily(s: Accounts, now: Time, x: Id)
    requires Inv(s) && x in s.sessions
    ensures
      var t := Logout(s, now, x, s.sessions[x].user);
      Dead(t.sessions, s.sessions[x].family) <==> Live(s.sessions, x) || Dead(s.sessions, s.sessions[x].family)
  {
    var family := s.sessions[x].family;
    var t := Logout(s, now, x, s.sessions[x].user);
    assert t.sessions[x].family == family;
    if Live(s.sessions, x) {
      forall y | y in t.sessions && t.sessions[y].family == family
        ensures t.sessions[y].revokedAt.Some?
      {
        if Live(s.sessions, y) {
          OneLiveSession(s, x, y);
        }
      }
    } else {
      assert t.sessions == s.sessions;
    }
  }

  // The logout route first checks that the session authenticates. If the revocation follows at once, it
  // kills the family.
  lemma AuthenticatedLogoutKillsFamily(s: Accounts, now: Time, user: Id, x: Id)
    requires Inv(s) && Authenticates(s, now, user, x)
    ensures Dead(Logout(s, now, x, user).sessions, s.sessions[x].family)
  {
    LogoutKillsFamily(s, now, x);
  }

  // If anything ran since the check, the family survives the logout exactly when the session was replaced
  // or revoked meanwhile and another session of the family is live.
  lemma LateLogoutSpares(s: Accounts, now: Time, user: Id, x: Id, acts: seq<Action>, later: Time)
    requires Inv(s) && Authenticates(s, now, user, x)
    ensures x in Run(s, acts).sessions
    ensures
      var t, family := Run(s, acts), s.sessions[x].family;
      !Dead(Logout(t, later, x, user).sessions, family) <==>
        !Live(t.sessions, x) && exists y :: Live(t.sessions, y) && t.sessions[y].family == family && y != x
  {
    var t := Run(s, acts);
    RunKeepsInv(s, acts);
    RunIsLater(s, acts, 0, |acts|);
    assert acts[..0] == [] && acts[..|acts|] == acts;
    LogoutKillsFamily(t, later, x);
  }

  const REGISTERED := RegisterTx(1, 7)
  const LOGGED_IN := CreateTx(0, 1, 10, 100, 1000)
  const ROTATED := RotateTx(5, 100, 11, 101)
  const LOGGED_OUT := LogoutTx(6, 10, 1)

  // It happens: the check passes, a rotation commits, and logging out leaves the family alive.
  lemma LogoutLosesTheRace()
    ensures Authenticates(Run(EMPTY, [REGISTERED, LOGGED_IN]), 4, 1, 10)
    ensures
      var t := Run(EMPTY, [REGISTERED, LOGGED_IN, ROTATED, LOGGED_OUT]);
      && 10 in t.sessions && t.sessions[10].replacedBy == Some(11)
      && !Dead(t.sessions, t.sessions[10].family)
      && 11 in t.sessions && t.sessions[11].family == t.sessions[10].family && Authenticates(t, 6, 1, 11)
  {
    LoginHappens();
    RotationHappens();
    hide Run, Next, Inv;
    OneMore([REGISTERED, LOGGED_IN], ROTATED);
    assert [REGISTERED, LOGGED_IN] + [ROTATED] == [REGISTERED, LOGGED_IN, ROTATED];
    OneMore([REGISTERED, LOGGED_IN, ROTATED], LOGGED_OUT);
    assert [REGISTERED, LOGGED_IN, ROTATED] + [LOGGED_OUT] == [REGISTERED, LOGGED_IN, ROTATED, LOGGED_OUT];
    LogoutHappens();
    assert TWO_SESSIONS.sessions[11].revokedAt.None?;
  }

  lemma OneMore(acts: seq<Action>, a: Action)
    ensures Run(EMPTY, acts + [a]) == Next(Run(EMPTY, acts), a)
  {
    hide Next;
    assert (acts + [a])[..|acts|] == acts;
  }

  const FIRST_SESSION := Session(1, 100, 1000, REFRESH_TOKEN_SECONDS, None, None, None)
  const ONE_SESSION := Accounts(map[1 := User(true, 7)], map[10 := FIRST_SESSION])
  const TWO_SESSIONS := Accounts(
    map[1 := User(true, 7)],
    map[10 := FIRST_SESSION.(revokedAt := Some(5), lastUsedAt := Some(5), replacedBy := Some(11)),
        11 := Session(1, 101, 1000, 5 + REFRESH_TOKEN_SECONDS, None, None, None)])

  lemma LoginHappens()
    ensures Run(EMPTY, [REGISTERED, LOGGED_IN]) == ONE_SESSION
  {
    var s := Accounts(map[1 := User(true, 7)], map[]);
    assert [REGISTERED][..0] == [] && Run(EMPTY, [REGISTERED]) == s;
    assert [REGISTERED, LOGGED_IN][..1] == [REGISTERED] && Next(s, LOGGED_IN) == ONE_SESSION;
  }

  lemma RotationHappens()
    ensures Next(ONE_SESSION, ROTATED) == TWO_SESSIONS
  {
    assert forall x | HasToken(ONE_SESSION.sessions, 100, x) :: x == 10;
    assert HasToken(ONE_SESSION.sessions, 100, 10);
    assert RotateOn(ONE_SESSION, 5, 10, 11, 101).after == TWO_SESSIONS;
  }

  lemma LogoutHappens()
    ensures Next(TWO_SESSIONS, LOGGED_OUT) == TWO_SESSIONS
  {
    assert TWO_SESSIONS.sessions[10 := TWO_SESSIONS.sessions[10]] == TWO_SESSIONS.sessions;
  }

  // Logging out everywhere kills every family of the user; so does a password change.
  lemma LogoutAllKillsFamilies(s: Accounts, now: Time, x: Id)
    requires Inv(s) && x in s.sessions
    ensures Dead(LogoutAll(s, now, s.sessions[x].user).sessions, s.sessions[x].family)
  {
    assert LogoutAll(s, now, s.sessions[x].user).sessions[x].family == s.sessions[x].family;
  }

  lemma PasswordChangeKillsFamilies(s: Accounts, now: Time, x: Id, current: Id, password: Id)
    requires Inv(s) && x in s.sessions
    ensures
      var e := ChangePassword(s, now, s.sessions[x].user, current, password);
      && (e.reply.Done? <==> current == s.users[s.sessions[x].user].password && current != password)
      && (e.reply.Done? ==>
            && Dead(e.after.sessions, s.sessions[x].family)
            && e.after.users[s.sessions[x].user].password == password)
      && (!e.reply.Done? ==> e.after == s)
  {
    LogoutAllKillsFamilies(s, now, x);
  }

  /******* Runs *******/

  lemma RunNext(s: Accounts, acts: seq<Action>, i: nat)
    requires i < |acts|
    ensures Run(s, acts[..i + 1]) == Next(Run(s, acts[..i]), acts[i])
  {
    assert acts[..i + 1][..i] == acts[..i];
  }

  // Sessions are never deleted; token, family and owner never change; revocation is final.
  ghost predicate Later(x: map<Id, Session>, y: map<Id, Session>) {
    forall k | k in x ::
      && k in y && y[k].token == x[k].token && y[k].family == x[k].family && y[k].user == x[k].user
      && y[k].expiresAt == x[k].expiresAt
      && (x[k].revokedAt.Some? ==> y[k].revokedAt == x[k].revokedAt || y[k].revokedAt.Some?)
  }

  lemma StepIsLater(s: Accounts, a: Action)
    ensures Later(s.sessions, Next(s, a).sessions)
  {
  }

  lemma {:induction false} RunIsLater(s: Accounts, acts: seq<Action>, i: nat, j: nat)
    requires i <= j <= |acts|
    ensures Later(Run(s, acts[..i]).sessions, Run(s, acts[..j]).sessions)
    decreases j
  {
    if i < j {
      hide Next;
      RunIsLater(s, acts, i, j - 1);
      assert acts[..j][..j - 1] == acts[..j - 1];
      StepIsLater(Run(s, acts[..j - 1]), acts[j - 1]);
    }
  }

  // A token that rotated is revoked after any run, and presenting it then is refused and kills the family.
  lemma RotatedTokenIsSpent(s: Accounts, now: Time, token: Id, id: Id, newToken: Id, t: Accounts, a: Action)
    requires Inv(s) && Rotate(s, now, token, id, newToken).reply.Issued?
    requires Inv(t) && Later(Rotate(s, now, token, id, newToken).after.sessions, t.sessions)
    requires a.RotateTx? && a.token == token
    ensures Apply(t, a).reply == RefreshError
    ensures exists x :: HasToken(s.sessions, token, x) && Dead(Next(t, a).sessions, s.sessions[x].family)
  {
    var x := SessionWithToken(s.sessions, token).value;
    RefreshRotatesOrKills(s, now, x, id, newToken);
    StepIsLater(s, RotateTx(now, token, id, newToken));
    hide Inv, RotateOn, Dead;
    assert x in t.sessions && t.sessions[x].token == token && t.sessions[x].revokedAt.Some?;
    RefreshRotatesOrKills(t, a.now, x, a.id, a.newToken);
  }

  // A refresh token rotates at most once in any run; presenting it again kills its family.
  lemma {:induction false} TokenRotatesOnce(s: Accounts, acts: seq<Action>, i: nat, j: nat)
    requires Inv(s) && i < j < |acts|
    requires acts[i].RotateTx? && acts[j].RotateTx? && acts[i].token == acts[j].token
    requires Apply(Run(s, acts[..i]), acts[i]).reply.Issued?
    ensures Apply(Run(s, acts[..j]), acts[j]).reply == RefreshError
    ensures
      var u := Run(s, acts[..i]);
      exists x :: HasToken(u.sessions, acts[i].token, x)
               && Dead(Run(s, acts[..j + 1]).sessions, u.sessions[x].family)
  {
    var u, t := Run(s, acts[..i]), Run(s, acts[..j]);
    RunKeepsInv(s, acts[..i]);
    RunKeepsInv(s, acts[..j]);
    RunNext(s, acts, i);
    RunNext(s, acts, j);
    RunIsLater(s, acts, i + 1, j);
    hide Inv, Rotate, Later, Dead, Run;
    RotatedTokenIsSpent(u, acts[i].now, acts[i].token, acts[i].id, acts[i].newToken, t, acts[j]);
  }

  /******* How long a session works *******/

  // A login opens one session of a family of its own, for thirty days.
  lemma LoginIsExact(s: Accounts, now: Time, user: Id, id: Id, token: Id, family: Id)
    ensures
      var e := CreateSession(s, now, user, id, token, family);
      && (e.reply == Issued(id) <==>
            && user in s.users && id !in s.sessions
            && forall x | x in s.sessions :: s.sessions[x].token != token && s.sessions[x].family != family)
      && (e.reply == Issued(id) ==>
            e.after == s.(sessions := s.sessions[id := Session(
              user, token, family, now + 30 * 24 * 3600, None, None, None)]))
      && (e.reply != Issued(id) ==> e == Effect(s, ServerError))
  {
  }

  // A rotation opens the session's successor, for thirty days, and retires the session.
  lemma RotationIsExact(s: Accounts, now: Time, x: Id, id: Id, newToken: Id)
    requires Inv(s) && x in s.sessions
    ensures s.sessions[x].user in s.users
    ensures
      var row := s.sessions[x];
      var e := Rotate(s, now, row.token, id, newToken);
      && (e.reply == Issued(id) <==>
            && row.revokedAt == None && now < row.expiresAt && s.users[row.user].active
            && id !in s.sessions && forall y | y in s.sessions :: s.sessions[y].token != newToken)
      && (e.reply == Issued(id) ==>
            e.after == s.(sessions := s.sessions
              [id := Session(row.user, newToken, row.family, now + 30 * 24 * 3600, None, None, None)]
              [x := row.(revokedAt := Some(now), lastUsedAt := Some(now), replacedBy := Some(id))]))
      && (forall y | y in s.sessions && y != x ::
            e.after.sessions[y] ==
              if e.reply == RefreshError && s.sessions[y].family == row.family && s.sessions[y].revokedAt == None
              then s.sessions[y].(revokedAt := Some(now))
              else s.sessions[y])
  {
    FindsToken(s, x);
    if Live(s.sessions, x) {
      forall y | y in s.sessions && y != x && s.sessions[y].family == s.sessions[x].family
        ensures s.sessions[y].revokedAt.Some?
      {
        if Live(s.sessions, y) {
          OneLiveSession(s, x, y);
        }
      }
    }
    hide Chained;
    assert Rotate(s, now, s.sessions[x].token, id, newToken) == RotateOn(s, now, x, id, newToken);
  }

  // Logging out, logging out everywhere and changing the password revoke exactly the live sessions they
  // name, and a password change also writes the password.
  lemma RevocationsAreExact(s: Accounts, now: Time, session: Id, user: Id, current: Id, password: Id)
    ensures
      var t := Logout(s, now, session, user);
      && t == s.(sessions := t.sessions) && t.sessions.Keys == s.sessions.Keys
      && forall x | x in s.sessions ::
           t.sessions[x] ==
             if x == session && s.sessions[x].user == user && s.sessions[x].revokedAt == None
             then s.sessions[x].(revokedAt := Some(now)) else s.sessions[x]
    ensures
      var t := LogoutAll(s, now, user);
      && t == s.(sessions := t.sessions) && t.sessions.Keys == s.sessions.Keys
      && forall x | x in s.sessions ::
           t.sessions[x] ==
             if s.sessions[x].user == user && s.sessions[x].revokedAt == None
             then s.sessions[x].(revokedAt := Some(now)) else s.sessions[x]
    ensures
      var e := ChangePassword(s, now, user, current, password);
      && (e.reply == Done <==> user in s.users && s.users[user].password == current && current != password)
      && (e.reply != Done ==> e == Effect(s, PasswordError))
      && (e.reply == Done ==>
            e.after == Accounts(
              s.users[user := s.users[user].(password := password)], LogoutAll(s, now, user).sessions))
  {
  }

  // Action a ends the live session x: it presents a token of its family, logs it out, logs its user out
  // everywhere or changes the user's password. Presenting the session's own valid token fails only for
  // identifiers that are not fresh.
  ghost predicate Ends(s: Accounts, a: Action, x: Id)
    requires x in s.sessions
  {
    var row := s.sessions[x];
    match a
    case RotateTx(now, token, id, newToken) =>
      exists y ::
        && y in s.sessions && s.sessions[y].token == token && s.sessions[y].family == row.family
        && (y == x && now < row.expiresAt && row.user in s.users && s.users[row.user].active ==>
              id !in s.sessions && forall z | z in s.sessions :: s.sessions[z].token != newToken)
    case LogoutTx(_, session, user) => session == x && user == row.user
    case LogoutAllTx(_, user) => user == row.user
    case ChangePasswordTx(_, user, current, password) =>
      user == row.user && user in s.users && s.users[user].password == current && current != password
    case _ => false
  }

  lemma RotationEnds(s: Accounts, now: Time, token: Id, id: Id, newToken: Id, x: Id)
    requires Inv(s) && Live(s.sessions, x)
    ensures x in Next(s, RotateTx(now, token, id, newToken)).sessions
    ensures Live(Next(s, RotateTx(now, token, id, newToken)).sessions, x) <==>
              !Ends(s, RotateTx(now, token, id, newToken), x)
  {
    var found := SessionWithToken(s.sessions, token);
    if found.Some? {
      var y := found.value;
      assert forall z | HasToken(s.sessions, token, z) :: z == y;
      assert forall z | z in s.sessions && s.sessions[z].token == token :: HasToken(s.sessions, token, z);
      if y != x && s.sessions[y].family == s.sessions[x].family && Live(s.sessions, y) {
        OneLiveSession(s, x, y);
      }
      hide Chained;
    } else {
      assert forall z | z in s.sessions && s.sessions[z].token == token :: HasToken(s.sessions, token, z);
    }
  }

  // A session stays live through exactly the steps that do not end it.
  lemma {:induction false} LiveUnlessEnded(s: Accounts, a: Action, x: Id)
    requires Inv(s) && x in s.sessions
    ensures x in Next(s, a).sessions
    ensures Live(Next(s, a).sessions, x) <==> Live(s.sessions, x) && !Ends(s, a, x)
  {
    StepIsLater(s, a);
    if a.RotateTx? {
      if Live(s.sessions, x) {
        RotationEnds(s, a.now, a.token, a.id, a.newToken, x);
      }
      hide Next;
    }
  }

  // Step k of the run does not end session x.
  ghost predicate SparedAt(s: Accounts, acts: seq<Action>, k: nat, x: Id)
    requires k < |acts|
  {
    x in Run(s, acts[..k]).sessions && !Ends(Run(s, acts[..k]), acts[k], x)
  }

  lemma {:induction false} LiveThroughRun(s: Accounts, acts: seq<Action>, i: nat, j: nat, x: Id)
    requires Inv(s) && i <= j <= |acts| && x in Run(s, acts[..i]).sessions
    ensures x in Run(s, acts[..j]).sessions
    ensures Live(Run(s, acts[..j]).sessions, x) <==>
              Live(Run(s, acts[..i]).sessions, x) && forall k | i <= k < j :: SparedAt(s, acts, k, x)
    decreases j
  {
    hide Inv, Run, Live, SparedAt;
    if i < j {
      LiveThroughRun(s, acts, i, j - 1, x);
      LiveThroughStep(s, acts, j - 1, x);
      assert (forall k | i <= k < j :: SparedAt(s, acts, k, x))
        <==> (forall k | i <= k < j - 1 :: SparedAt(s, acts, k, x)) && SparedAt(s, acts, j - 1, x);
    }
  }

  lemma {:induction false} LiveThroughStep(s: Accounts, acts: seq<Action>, k: nat, x: Id)
    requires Inv(s) && k < |acts| && x in Run(s, acts[..k]).sessions
    ensures x in Run(s, acts[..k + 1]).sessions
    ensures Live(Run(s, acts[..k + 1]).sessions, x) <==> Live(Run(s, acts[..k]).sessions, x) && SparedAt(s, acts, k, x)
  {
    hide Inv, Run, Live;
    RunKeepsInv(s, acts[..k]);
    RunNext(s, acts, k);
    LiveUnlessEnded(Run(s, acts[..k]), acts[k], x);
  }

  // When the session was opened.
  function OpeningTime(a: Action): Time
    requires a.CreateTx? || a.RotateTx?
  {
    a.now
  }

  lemma OpenedSession(s: Accounts, a: Action, x: Id)
    requires Inv(s) && Apply(s, a).reply == Issued(x)
    ensures a.CreateTx? || a.RotateTx?
    ensures Live(Next(s, a).sessions, x)
    ensures Next(s, a).sessions[x].expiresAt == OpeningTime(a) + 30 * 24 * 3600
    ensures a.CreateTx? ==> Next(s, a).sessions[x].user == a.user
    ensures a.RotateTx? ==>
              exists y :: && y in s.sessions && s.sessions[y].token == a.token
                          && s.sessions[y].user == Next(s, a).sessions[x].user
                          && s.sessions[y].family == Next(s, a).sessions[x].family
  {
  }

  // A session opened at time t authenticates at now, after any run, exactly when now is less than thirty
  // days after t, it is asked about for its owner, the owner is active, and no step since has ended it.
  lemma {:induction false} SessionWorksExactly(
    s: Accounts, acts: seq<Action>, i: nat, x: Id, now: Time, user: Id)
    requires Inv(s) && i < |acts| && Apply(Run(s, acts[..i]), acts[i]).reply == Issued(x)
    ensures acts[i].CreateTx? || acts[i].RotateTx?
    ensures x in Run(s, acts[..i + 1]).sessions
    ensures
      var t := Run(s, acts);
      Authenticates(t, now, user, x) <==>
        && now < OpeningTime(acts[i]) + 30 * 24 * 3600
        && user == Run(s, acts[..i + 1]).sessions[x].user
        && user in t.users && t.users[user].active
        && forall k | i < k < |acts| :: SparedAt(s, acts, k, x)
  {
    RunKeepsInv(s, acts[..i]);
    RunNext(s, acts, i);
    OpenedSession(Run(s, acts[..i]), acts[i], x);
    LiveThroughRun(s, acts, i + 1, |acts|, x);
    RunIsLater(s, acts, i + 1, |acts|);
    assert acts[..|acts|] == acts;
    hide Run, Inv, SparedAt, Apply;
  }

  /******* auth/service.py as it is written *******/

  class AuthService {
    var users: map<Id, User>
    var sessions: map<Id, Session>

    function State(): Accounts
      reads this
    {
      Accounts(users, sessions)
    }

    ghost predicate Valid()
      reads this
    {
      Inv(State())
    }

    constructor ()
      ensures Valid() && State() == EMPTY
    {
      users, sessions := map[], map[];
    }

    method CreateAuthSession(now: Time, user: Id, id: Id, token: Id, family: Id) returns (reply: Reply)
      requires Valid()
      modifies this`sessions
      ensures Valid()
      ensures Effect(State(), reply) == CreateSession(old(State()), now, user, id, token, family)
    {
      StepKeepsInv(State(), CreateTx(now, user, id, token, family));
      if user !in users || id in sessions || TokenTaken(sessions, token) || FamilyUsed(sessions, family) {
        return ServerError;
      }
      sessions := sessions[id := Session(user, token, family, now + REFRESH_TOKEN_SECONDS, None, None, None)];
      reply := Issued(id);
    }

    // UPDATE auth_sessions SET revoked_at = now WHERE family_id = family AND revoked_at IS NULL.
    method RevokeTokenFamily(family: Id, now: Time)
      modifies this`sessions
      ensures sessions == RevokeFamily(old(sessions), family, now)
    {
      var rows := sessions;
      sessions := map x | x in rows ::
        if rows[x].family == family && rows[x].revokedAt.None?
        then rows[x].(revokedAt := Some(now))
        else rows[x];
      assert forall x | x in rows :: sessions[x] == RevokeFamily(rows, family, now)[x];
    }

    method RotateAuthSession(now: Time, token: Id, id: Id, newToken: Id) returns (reply: Reply)
      requires Valid()
      modifies this`sessions
      ensures Valid()
      ensures Effect(State(), reply) == Rotate(old(State()), now, token, id, newToken)
    {
      StepKeepsInv(State(), RotateTx(now, token, id, newToken));
      if x :| x in sessions && sessions[x].token == token {
        FindsToken(State(), x);
        reply := RotateFound(now, x, id, newToken);
        return;
      }
      assert forall x :: !HasToken(sessions, token, x);
      reply := RefreshError;
    }

    method RotateFound(now: Time, x: Id, id: Id, newToken: Id) returns (reply: Reply)
      requires x in sessions
      modifies this`sessions
      ensures Effect(State(), reply) == RotateOn(old(State()), now, x, id, newToken)
    {
      var row := sessions[x];
      if row.revokedAt.Some? {
        RevokeTokenFamily(row.family, now);
        return RefreshError;
      }
      if row.expiresAt <= now {
        sessions := sessions[x := row.(revokedAt := Some(now))];
        return RefreshError;
      }
      if row.user !in users {
        return ServerError;
      }
      if !users[row.user].active {
        RevokeTokenFamily(row.family, now);
        return RefreshError;
      }
      if id in sessions || TokenTaken(sessions, newToken) {
        return ServerError;
      }
      sessions := sessions[id := Session(
        row.user, newToken, row.family, now + REFRESH_TOKEN_SECONDS, None, None, None)];
      row := row.(revokedAt := Some(now), lastUsedAt := Some(now));
      row := row.(replacedBy := Some(id));
      sessions := sessions[x := row];
      reply := Issued(id);
    }

    method RevokeAuthSession(now: Time, session: Id, user: Id) returns (wasLive: bool)
      requires Valid()
      modifies this`sessions
      ensures Valid()
      ensures State() == Logout(old(State()), now, session, user)
      ensures wasLive <==> Live(old(sessions), session) && old(sessions)[session].user == user
      ensures wasLive ==> Dead(sessions, old(sessions)[session].family)
    {
      StepKeepsInv(State(), LogoutTx(now, session, user));
      wasLive := session in sessions && sessions[session].user == user && sessions[session].revokedAt.None?;
      if wasLive {
        LogoutKillsFamily(State(), now, session);
        sessions := sessions[session := sessions[session].(revokedAt := Some(now))];
      } else {
        LogoutOfDeadChangesNothing(State(), now, session, user);
      }
    }

    // UPDATE auth_sessions SET revoked_at = now WHERE user_id = user AND revoked_at IS NULL.
    method RevokeUserSessions(user: Id, now: Time) returns (count: nat)
      modifies this`sessions
      ensures sessions == RevokeUser(old(sessions), user, now)
      ensures count == |LiveSessionsOf(old(sessions), user)|
    {
      count := |LiveSessionsOf(sessions, user)|;
      var rows := sessions;
      sessions := map x | x in rows ::
        if rows[x].user == user && rows[x].revokedAt.None?
        then rows[x].(revokedAt := Some(now))
        else rows[x];
      assert forall x | x in rows :: sessions[x] == RevokeUser(rows, user, now)[x];
    }

    method RevokeAllAuthSessions(now: Time, user: Id) returns (count: nat)
      requires Valid()
      modifies this`sessions
      ensures Valid()
      ensures State() == LogoutAll(old(State()), now, user)
      ensures count == |LiveSessionsOf(old(sessions), user)|
    {
      StepKeepsInv(State(), LogoutAllTx(now, user));
      count := RevokeUserSessions(user, now);
    }

    method ChangeUserPassword(now: Time, user: Id, current: Id, password: Id) returns (reply: Reply)
      requires Valid()
      modifies this
      ensures Valid()
      ensures Effect(State(), reply) == ChangePassword(old(State()), now, user, current, password)
    {
      StepKeepsInv(State(), ChangePasswordTx(now, user, current, password));
      if user !in users || users[user].password != current {
        return PasswordError;
      }
      if users[user].password == password {
        return PasswordError;
      }
      users := users[user := users[user].(password := password)];
      var _ := RevokeUserSessions(user, now);
      reply := Done;
    }

    // access_token_required after the token is decoded into user and session.
    method AccessTokenAccepted(now: Time, user: Id, session: Id) returns (accepted: bool)
      requires Valid()
      ensures accepted <==> Authenticates(State(), now, user, session)
      // Only the end of a family's chain is accepted.
      ensures accepted ==> exists c :: IsChain(sessions, sessions[session].family, c) && session == c[|c| - 1]
    {
      var live := session in sessions && sessions[session].user == user
                  && sessions[session].revokedAt.None? && sessions[session].expiresAt > now;
      accepted := user in users && users[user].active && live;
      if accepted {
        LiveSessionIsLast(State(), session);
      }
    }
  }

  function LiveSessionsOf(sessions: map<Id, Session>, user: Id): set<Id> {
    set x | x in sessions && sessions[x].user == user && sessions[x].revokedAt.None?
  }

  lemma LogoutOfDeadChangesNothing(s: Accounts, now: Time, session: Id, user: Id)
    requires !(Live(s.sessions, session) && s.sessions[session].user == user)
    ensures Logout(s, now, session, user) == s
  {
  }
}
