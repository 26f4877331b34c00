/**
 * What a password change, "revoke all sessions" and a suspension end (auth.controller.ts,
 * token.service.ts, auth.middleware.ts, admin.controller.ts). Every handler is one atomic step here; RefreshRotation.dfy interleaves
 * the refresh handler's own steps.
 */
module SessionRevocation {
  import opened Prelude

  type UserId = nat
  type Token = nat

  datatype User = User(active: bool, tokenVersion: nat)

  datatype Session = Session(user: UserId, expiresAt: nat)

  /** The claims of a signed access token; tokens from before the field existed carry no version. */
  datatype AccessToken = AccessToken(user: UserId, tokenVersion: Option<nat>)

  /** `access` and `issued` are the tokens handed out so far; for a refresh token, with its user. */
  datatype State = State(
    users: map<UserId, User>, sessions: map<Token, Session>, access: set<AccessToken>, issued: map<Token, UserId>)

  datatype Step =
    | Register(user: UserId)
    | SetActive(user: UserId, active: bool)
    | SignIn(user: UserId, token: Token, expiresAt: nat)
    | Refresh(token: Token, now: nat, successor: Token, expiresAt: nat)
    | Logout(token: Token)
    | ChangePassword(user: UserId)
    | RevokeAll(user: UserId)

  /** Every new refresh token is one that was never issued. */
  predicate Can(s: State, step: Step) {
    match step
    case Register(user) => user !in s.users
    case SetActive(user, _) => user in s.users
    case SignIn(user, token, _) => user in s.users && s.users[user].active && token !in s.issued
    case Refresh(_, _, successor, _) => successor !in s.issued
    case Logout(_) => true
    case ChangePassword(user) => user in s.users
    case RevokeAll(user) => user in s.users
  }

  /** A refresh is answered with new tokens only for a stored, unexpired token of an active user. */
  predicate Redeems(s: State, token: Token, now: nat) {
    && token in s.sessions && s.sessions[token].expiresAt >= now
    && s.sessions[token].user in s.users && s.users[s.sessions[token].user].active
  }

  /** authenticate: the token's user is active and the token carries the current version. */
  predicate Authenticates(s: State, a: AccessToken) {
    && a.user in s.users && s.users[a.user].active
    && (if a.tokenVersion.Some? then a.tokenVersion.value else 0) == s.users[a.user].tokenVersion
  }

  function Issue(s: State, user: UserId, token: Token, expiresAt: nat): State
    requires user in s.users
  {
    s.(sessions := s.sessions[token := Session(user, expiresAt)],
       access := s.access + {AccessToken(user, Some(s.users[user].tokenVersion))},
       issued := s.issued[token := user])
  }

  /** setUserStatus: suspending an active user bumps the version; setting what is already so changes nothing. */
  function StatusSet(u: User, active: bool): User {
    if u.active == active then u else User(active, if active then u.tokenVersion else u.tokenVersion + 1)
  }

  function EndSessions(s: State, user: UserId): State
    requires user in s.users
  {
    s.(users := s.users[user := s.users[user].(tokenVersion := s.users[user].tokenVersion + 1)],
       sessions := map t | t in s.sessions && s.sessions[t].user != user :: s.sessions[t])
  }

  function Next(s: State, step: Step): State
    requires Can(s, step)
  {
    match step
    case Register(user) => s.(users := s.users[user := User(true, 0)])
    case SetActive(user, active) => s.(users := s.users[user := StatusSet(s.users[user], active)])
    case SignIn(user, token, expiresAt) => Issue(s, user, token, expiresAt)
    case Refresh(token, now, successor, expiresAt) =>
      if Redeems(s, token, now)
      then Issue(s.(sessions := s.sessions - {token}), s.sessions[token].user, successor, expiresAt)
      else s
    case Logout(token) => s.(sessions := s.sessions - {token})
    case ChangePassword(user) => EndSessions(s, user)
    case RevokeAll(user) => EndSessions(s, user)
  }

  predicate Run(s: State, steps: seq<Step>)
    decreases steps
  {
    steps == [] || (Can(s, steps[0]) && Run(Next(s, steps[0]), steps[1..]))
  }

  function After(s: State, steps: seq<Step>): State
    requires Run(s, steps)
    decreases steps
  {
    if steps == [] then s else After(Next(s, steps[0]), steps[1..])
  }

  const EMPTY := State(map[], map[], {}, map[])

  /** Tokens come from the past: none is newer than its user's version, and every session was issued to its user. */
  ghost predicate Inv(s: State) {
    && (forall a :: a in s.access ==> a.user in s.users && a.tokenVersion.Some? && a.tokenVersion.value <= s.users[a.user].tokenVersion)
    && (forall t :: t in s.sessions ==> t in s.issued && s.issued[t] == s.sessions[t].user)
    && (forall t :: t in s.issued ==> s.issued[t] in s.users)
  }

  lemma {:induction false} RunKeepsInv(s: State, steps: seq<Step>)
    requires Inv(s) && Run(s, steps)
    ensures Inv(After(s, steps))
    decreases steps
  {
    if steps != [] {
      RunKeepsInv(Next(s, steps[0]), steps[1..]);
    }
  }

  // ── Never again ──

  /** Everything handed out at `before` to `user` is dead at `s`, and stays so. */
  ghost predicate Dead(before: State, s: State, user: UserId) {
    && user in before.users && user in s.users
    && s.users[user].tokenVersion > before.users[user].tokenVersion
    && (forall t :: t in before.issued ==> t in s.issued && s.issued[t] == before.issued[t])
    && (forall t :: t in before.issued && before.issued[t] == user ==> t !in s.sessions)
  }

  lemma {:induction false} DeadStaysDead(before: State, s: State, user: UserId, steps: seq<Step>)
    requires Inv(s) && Dead(before, s, user) && Run(s, steps)
    ensures Dead(before, After(s, steps), user)
    decreases steps
  {
    if steps != [] {
      DeadStaysDead(before, Next(s, steps[0]), user, steps[1..]);
    }
  }

  lemma EndingKills(s: State, step: Step)
    requires Inv(s) && Can(s, step) && (step.ChangePassword? || step.RevokeAll?)
    ensures Dead(s, Next(s, step), step.user)
  {
  }

  /**
   * After a password change or revoke-all, in every continuation: no access token handed out to
   * that user before (nor one that predates versions) passes, and no earlier refresh token redeems.
   */
  lemma RevokedForever(before: seq<Step>, step: Step, after: seq<Step>, a: AccessToken, token: Token, now: nat)
    requires Run(EMPTY, before) && (step.ChangePassword? || step.RevokeAll?)
    requires Can(After(EMPTY, before), step) && Run(Next(After(EMPTY, before), step), after)
    ensures var s := After(EMPTY, before);
            var end := After(Next(s, step), after);
            && (a.user == step.user && (a in s.access || a.tokenVersion.None?) ==> !Authenticates(end, a))
            && (token in s.issued && s.issued[token] == step.user ==> !Redeems(end, token, now))
  {
    var s := After(EMPTY, before);
    RunKeepsInv(EMPTY, before);
    EndingKills(s, step);
    StepKeepsInv(s, step);
    DeadStaysDead(s, Next(s, step), step.user, after);
  }

  lemma StepKeepsInv(s: State, step: Step)
    requires Inv(s) && Can(s, step)
    ensures Inv(Next(s, step))
  {
  }

  /** A suspension: the user was active and is not any more. */
  predicate Suspends(s: State, step: Step) {
    step.SetActive? && !step.active && step.user in s.users && s.users[step.user].active
  }

  /** What ends access tokens: a password change, a revoke-all, a suspension. */
  predicate Ends(s: State, step: Step, user: UserId) {
    step == ChangePassword(user) || step == RevokeAll(user) || (Suspends(s, step) && step.user == user)
  }

  /** How many of the steps of a run end this user's access tokens. */
  function Endings(s: State, steps: seq<Step>, user: UserId): nat
    requires Run(s, steps)
    decreases steps
  {
    if steps == [] then 0
    else (if Ends(s, steps[0], user) then 1 else 0) + Endings(Next(s, steps[0]), steps[1..], user)
  }

  /** A user's version never decreases, and moves with a password change, a revoke-all or a suspension only. */
  lemma {:induction false} VersionNeverDecreases(s: State, steps: seq<Step>, user: UserId)
    requires Run(s, steps) && user in s.users
    ensures var t := After(s, steps);
            && user in t.users
            && t.users[user].tokenVersion == s.users[user].tokenVersion + Endings(s, steps, user)
    decreases steps
  {
    if steps != [] {
      VersionNeverDecreases(Next(s, steps[0]), steps[1..], user);
    }
  }

  /** An access token a user was handed dies for good exactly when something ended that user's tokens since. */
  lemma AccessTokenLivesUntilEnding(before: seq<Step>, after: seq<Step>, a: AccessToken)
    requires Run(EMPTY, before) && a in After(EMPTY, before).access && Run(After(EMPTY, before), after)
    requires Authenticates(After(EMPTY, before), a)
    ensures var s, t := After(EMPTY, before), After(After(EMPTY, before), after);
            Authenticates(t, a) <==> Endings(s, after, a.user) == 0 && a.user in t.users && t.users[a.user].active
  {
    RunKeepsInv(EMPTY, before);
    VersionNeverDecreases(After(EMPTY, before), after, a.user);
  }

  /**
   * A suspension ends every access token of that user for good, in every continuation, reactivations
   * included. The stored refresh tokens stay stored, and are refused only while the user is suspended.
   */
  lemma SuspensionEndsAccess(before: seq<Step>, step: Step, after: seq<Step>, a: AccessToken)
    requires Run(EMPTY, before) && Can(After(EMPTY, before), step) && Suspends(After(EMPTY, before), step)
    requires Run(Next(After(EMPTY, before), step), after)
    ensures var s := After(EMPTY, before);
            a.user == step.user && (a in s.access || a.tokenVersion.None?) ==> !Authenticates(After(Next(s, step), after), a)
    ensures Next(After(EMPTY, before), step).sessions == After(EMPTY, before).sessions
  {
    var s := After(EMPTY, before);
    RunKeepsInv(EMPTY, before);
    VersionNeverDecreases(Next(s, step), after, step.user);
  }

  /** A suspended user's unexpired refresh token redeems again exactly when the user is active again. */
  lemma SuspendedRefreshTokens(s: State, user: UserId, token: Token, now: nat)
    requires user in s.users && token in s.sessions && s.sessions[token].user == user && now <= s.sessions[token].expiresAt
    ensures var suspended := Next(s, SetActive(user, false));
            && !Redeems(suspended, token, now)
            && Redeems(Next(suspended, SetActive(user, true)), token, now)
  {
  }

  /** A refresh is served exactly for a stored token that is not expired and whose user is active; otherwise nothing changes. */
  lemma RefreshServedExactly(s: State, token: Token, now: nat, successor: Token, expiresAt: nat)
    requires Can(s, Refresh(token, now, successor, expiresAt))
    ensures var t := Next(s, Refresh(token, now, successor, expiresAt));
            if && token in s.sessions && now <= s.sessions[token].expiresAt
               && s.sessions[token].user in s.users && s.users[s.sessions[token].user].active
            then && t.sessions == (s.sessions - {token})[successor := Session(s.sessions[token].user, expiresAt)]
                 && t.users == s.users
                 && t.access == s.access + {AccessToken(s.sessions[token].user, Some(s.users[s.sessions[token].user].tokenVersion))}
            else t == s
  {
  }

  /** So along every run, presenting a token after its time changes nothing. */
  lemma ExpiredRefreshChangesNothing(steps: seq<Step>, token: Token, now: nat, successor: Token, expiresAt: nat)
    requires Run(EMPTY, steps) && Can(After(EMPTY, steps), Refresh(token, now, successor, expiresAt))
    requires token in After(EMPTY, steps).sessions ==> After(EMPTY, steps).sessions[token].expiresAt < now
    ensures Next(After(EMPTY, steps), Refresh(token, now, successor, expiresAt)) == After(EMPTY, steps)
  {
    RefreshServedExactly(After(EMPTY, steps), token, now, successor, expiresAt);
  }

  /** An access token passes exactly for an active user at the version it carries; one without a version carries 0. */
  lemma PassesExactly(s: State, a: AccessToken)
    ensures Authenticates(s, a) <==>
            && a.user in s.users && s.users[a.user].active
            && (match a.tokenVersion case Some(v) => v == s.users[a.user].tokenVersion case None => s.users[a.user].tokenVersion == 0)
  {
  }

  /** What ends one user's sessions leaves every other user's sessions, tokens and status as they were. */
  lemma EndingSparesOthers(s: State, step: Step, other: UserId, token: Token, a: AccessToken)
    requires Can(s, step) && (step.ChangePassword? || step.RevokeAll? || step.SetActive?) && other != step.user
    ensures var t := Next(s, step);
            && (other in s.users <==> other in t.users) && (other in s.users ==> t.users[other] == s.users[other])
            && (token in s.sessions && s.sessions[token].user == other ==> token in t.sessions && t.sessions[token] == s.sessions[token])
            && (a.user == other ==> (Authenticates(t, a) <==> Authenticates(s, a)))
  {
  }

  /** A logout ends one session. */
  lemma LogoutEndsOne(s: State, token: Token)
    ensures Next(s, Logout(token)) == s.(sessions := s.sessions - {token})
  {
  }

  /** A session that was not ended still works: what sign-in hands out passes at once. */
  lemma SignInWorks(s: State, user: UserId, token: Token, expiresAt: nat, now: nat)
    requires Can(s, SignIn(user, token, expiresAt)) && now <= expiresAt
    ensures var t := Next(s, SignIn(user, token, expiresAt));
            Authenticates(t, AccessToken(user, Some(t.users[user].tokenVersion))) && Redeems(t, token, now)
  {
  }

  // ── The handlers ──

  class AuthServer {
    var users: map<UserId, User>
    var sessions: map<Token, Session>
    ghost var access: set<AccessToken>
    ghost var issued: map<Token, UserId>

    ghost function S(): State
      reads this
    {
      State(users, sessions, access, issued)
    }

    method SignInUser(user: UserId, token: Token, expiresAt: nat) returns (a: AccessToken)
      requires Can(S(), SignIn(user, token, expiresAt))
      modifies this
      ensures S() == Next(old(S()), SignIn(user, token, expiresAt))
      ensures a in access && Authenticates(S(), a)
    {
      a := AccessToken(user, Some(users[user].tokenVersion));
      sessions := sessions[token := Session(user, expiresAt)];
      access, issued := access + {a}, issued[token := user];
    }

    method RefreshSession(token: Token, now: nat, successor: Token, expiresAt: nat) returns (a: Option<AccessToken>)
      requires successor !in issued
      modifies this
      ensures S() == Next(old(S()), Refresh(token, now, successor, expiresAt))
      ensures a.Some? <==>
                && token in old(sessions) && now <= old(sessions)[token].expiresAt
                && old(sessions)[token].user in users && users[old(sessions)[token].user].active
      ensures a.Some? ==> sessions == (old(sessions) - {token})[successor := Session(old(sessions)[token].user, expiresAt)]
      ensures a.None? ==> S() == old(S())
      ensures a.Some? ==> Authenticates(S(), a.value) && successor in sessions && token !in sessions - {successor}
    {
      if token !in sessions || sessions[token].expiresAt < now {
        return None;
      }
      var existing := sessions[token];
      var remaining := sessions - {token};
      if existing.user !in users || !users[existing.user].active {
        return None;  // the transaction rolls the deletion back
      }
      var issuedNow := AccessToken(existing.user, Some(users[existing.user].tokenVersion));
      sessions := remaining[successor := Session(existing.user, expiresAt)];
      access, issued := access + {issuedNow}, issued[successor := existing.user];
      a := Some(issuedNow);
    }

    /** changePassword, its tokens' part: bump the version, then delete every session. */
    method EndBecausePasswordChanged(user: UserId)
      requires user in users
      modifies this`users, this`sessions
      ensures S() == Next(old(S()), ChangePassword(user))
      ensures users == old(users)[user := old(users)[user].(tokenVersion := old(users)[user].tokenVersion + 1)]
      ensures sessions == map t | t in old(sessions) && old(sessions)[t].user != user :: old(sessions)[t]
    {
      users := users[user := users[user].(tokenVersion := users[user].tokenVersion + 1)];
      RevokeAllUserTokens(user);
    }

    /** revokeAllSessions: the same two updates in the other order. */
    method RevokeAllSessions(user: UserId) returns (count: nat)
      requires user in users
      modifies this`users, this`sessions
      ensures S() == Next(old(S()), RevokeAll(user))
      ensures users == old(users)[user := old(users)[user].(tokenVersion := old(users)[user].tokenVersion + 1)]
      ensures sessions == map t | t in old(sessions) && old(sessions)[t].user != user :: old(sessions)[t]
      ensures count == |old(sessions)| - |sessions|
    {
      ghost var before := sessions;
      var size := |sessions|;
      RevokeAllUserTokens(user);
      assert sessions.Keys <= before.Keys;
      SubmapSize(sessions, before);
      count := size - |sessions|;
      users := users[user := users[user].(tokenVersion := users[user].tokenVersion + 1)];
    }

    /** setUserStatus, by an administrator; the result says whether anything changed. */
    method SetUserStatus(user: UserId, active: bool) returns (changed: bool)
      requires user in users
      modifies this`users
      ensures S() == Next(old(S()), SetActive(user, active))
      ensures changed <==> old(users)[user].active != active
      ensures old(users)[user].active && !active ==> users[user].tokenVersion == old(users)[user].tokenVersion + 1
    {
      var target := users[user];
      if target.active == active {
        return false;
      }
      users := users[user := target.(active := active, tokenVersion := if active then target.tokenVersion else target.tokenVersion + 1)];
      return true;
    }

    method RevokeAllUserTokens(user: UserId)
      modifies this`sessions
      ensures sessions == map t | t in old(sessions) && old(sessions)[t].user != user :: old(sessions)[t]
    {
      sessions := map t | t in sessions && sessions[t].user != user :: sessions[t];
    }

    method LogoutSession(token: Token)
      modifies this`sessions
      ensures S() == Next(old(S()), Logout(token))
    {
      sessions := sessions - {token};
    }

    method Authenticate(a: AccessToken) returns (passes: bool)
      ensures passes <==>
                && a.user in users && users[a.user].active
                && users[a.user].tokenVersion == (match a.tokenVersion case Some(v) => v case None => 0)
      ensures passes <==> Authenticates(S(), a)
    {
      if a.user !in users || !users[a.user].active {
        return false;
      }
      var claimed := if a.tokenVersion.Some? then a.tokenVersion.value else 0;
      passes := claimed == users[a.user].tokenVersion;
    }
  }

  lemma {:induction false} SubsetSize(a: set<Token>, b: set<Token>)
    requires a <= b
    ensures |a| <= |b|
  {
    if a != {} {
      var t :| t in a;
      SubsetSize(a - {t}, b - {t});
    }
  }

  lemma SubmapSize(a: map<Token, Session>, b: map<Token, Session>)
    requires a.Keys <= b.Keys
    ensures |a| <= |b|
  {
    SubsetSize(a.Keys, b.Keys);
  }
}
