/**
 * Single-use refresh tokens (refreshToken of auth.controller.ts): the transaction's find,
 * delete and create run interleaved with those of any number of other handlers.
 *
 * The isolation is read committed: a transaction's writes show when it commits, and deleting a
 * row locks it, so a second delete waits for the first transaction and then finds the row or not.
 * A token stands for its stored SHA-256 hash, and every new one is fresh (it carries a UUID).
 */
module RefreshRotation {
  import opened Prelude

  type Token = nat
  type Tx = nat

  datatype Session = Session(user: nat, expiresAt: nat)

  datatype Phase =
    | Found(session: Session)
    | Deleted(session: Session)
    | Created(session: Session, successor: Token, next: Session)
    | Committed(successor: Token)
    | Aborted

  datatype Handler = Handler(token: Token, phase: Phase)

  /** `redeemed` is the history of committed handlers, oldest first. */
  datatype State = State(
    tokens: map<Token, Session>, handlers: map<Tx, Handler>, issued: set<Token>, redeemed: seq<Token>)

  const EMPTY := State(map[], map[], {}, [])

  datatype Step =
    | Login(token: Token, session: Session)
    | Logout(token: Token)
    | Find(tx: Tx, token: Token, now: nat)
    | Delete(tx: Tx)
    | Create(tx: Tx, accepted: bool, successor: Token, expiresAt: nat)
    | Commit(tx: Tx)
    | Abort(tx: Tx)

  predicate HasLock(h: Handler, token: Token) {
    h.token == token && (h.phase.Deleted? || h.phase.Created?)
  }

  predicate Locked(s: State, token: Token) {
    exists tx :: tx in s.handlers && HasLock(s.handlers[tx], token)
  }

  predicate Open(p: Phase) {
    p.Found? || p.Deleted? || p.Created?
  }

  predicate Can(s: State, step: Step) {
    match step
    case Login(token, _) => token !in s.issued
    case Logout(token) => !Locked(s, token)
    case Find(tx, _, _) => tx !in s.handlers
    case Delete(tx) => tx in s.handlers && s.handlers[tx].phase.Found? && !Locked(s, s.handlers[tx].token)
    case Create(tx, _, successor, _) => tx in s.handlers && s.handlers[tx].phase.Deleted? && successor !in s.issued
    case Commit(tx) => tx in s.handlers && s.handlers[tx].phase.Created?
    case Abort(tx) => tx in s.handlers && Open(s.handlers[tx].phase)
  }

  function SetPhase(s: State, tx: Tx, phase: Phase): State
    requires tx in s.handlers
  {
    s.(handlers := s.handlers[tx := s.handlers[tx].(phase := phase)])
  }

  function Next(s: State, step: Step): State
    requires Can(s, step)
  {
    match step
    case Login(token, session) => s.(tokens := s.tokens[token := session], issued := s.issued + {token})
    case Logout(token) => s.(tokens := s.tokens - {token})
    case Find(tx, token, now) =>
      var ok := token in s.tokens && s.tokens[token].expiresAt >= now;
      s.(handlers := s.handlers[tx := Handler(token, if ok then Found(s.tokens[token]) else Aborted)])
    case Delete(tx) =>
      var h := s.handlers[tx];
      SetPhase(s, tx, if h.token in s.tokens then Deleted(h.phase.session) else Aborted)
    case Create(tx, accepted, successor, expiresAt) =>
      // `accepted`: the token's signature verifies and its user exists and is active
      var h := s.handlers[tx];
      if accepted
      then SetPhase(s, tx, Created(h.phase.session, successor, Session(h.phase.session.user, expiresAt))).(issued := s.issued + {successor})
      else SetPhase(s, tx, Aborted)
    case Commit(tx) =>
      var h := s.handlers[tx];
      SetPhase(s, tx, Committed(h.phase.successor)).(
        tokens := (s.tokens - {h.token})[h.phase.successor := h.phase.next], redeemed := s.redeemed + [h.token])
    case Abort(tx) => SetPhase(s, tx, Aborted)
  }

  predicate Run(s: State, steps: seq<Step>)
    decreases steps
  {
    steps == [] || (Can(s, steps[0]) && Run(Next(s, steps[0]), steps[1..]))
  }

  function After(s: State, steps: seq<Step>): State
    requires Run(s, steps)
    decreases steps
  {
    if steps == [] then s else After(Next(s, steps[0]), steps[1..])
  }

  // ── Invariant ──

  ghost predicate Distinct(ts: seq<Token>) {
    forall i, j :: 0 <= i < j < |ts| ==> ts[i] != ts[j]
  }

  ghost predicate Inv(s: State) {
    && s.tokens.Keys <= s.issued
    && (forall t :: t in s.redeemed ==> t in s.issued && t !in s.tokens)
    && Distinct(s.redeemed)
    && (forall tx :: tx in s.handlers && HasLock(s.handlers[tx], s.handlers[tx].token) ==> s.handlers[tx].token in s.tokens)
    && (forall x, y :: x in s.handlers && y in s.handlers && x != y && HasLock(s.handlers[x], s.handlers[x].token)
          ==> !HasLock(s.handlers[y], s.handlers[x].token))
    && (forall tx :: tx in s.handlers && s.handlers[tx].phase.Created? ==>
          var f := s.handlers[tx].phase.successor; f in s.issued && f !in s.tokens && f !in s.redeemed)
    && (forall x, y :: x in s.handlers && y in s.handlers && x != y && s.handlers[x].phase.Created? && s.handlers[y].phase.Created?
          ==> s.handlers[x].phase.successor != s.handlers[y].phase.successor)
  }

  lemma CommitKeepsInv(s: State, tx: Tx)
    requires Inv(s) && Can(s, Commit(tx))
    ensures Inv(Next(s, Commit(tx)))
  {
    var h := s.handlers[tx];
    var t := Next(s, Commit(tx));
    assert HasLock(h, h.token);
    forall u | u in t.redeemed ensures u in t.issued && u !in t.tokens {
      assert u in s.redeemed || u == h.token;
    }
    forall x | x in t.handlers && HasLock(t.handlers[x], t.handlers[x].token) ensures t.handlers[x].token in t.tokens {
      assert x != tx && t.handlers[x] == s.handlers[x];
      assert !HasLock(s.handlers[x], h.token);
    }
    forall x | x in t.handlers && t.handlers[x].phase.Created?
      ensures t.handlers[x].phase.successor !in t.redeemed && t.handlers[x].phase.successor !in t.tokens
    {
      assert t.handlers[x] == s.handlers[x];
      assert h.token in s.tokens;
    }
  }

  lemma StepKeepsInv(s: State, step: Step)
    requires Inv(s) && Can(s, step)
    ensures Inv(Next(s, step))
  {
    match step
    case Commit(tx) => CommitKeepsInv(s, tx);
    case Delete(tx) =>
      forall x | x in s.handlers ensures !HasLock(s.handlers[x], s.handlers[tx].token) {}
    case _ =>
  }

  lemma {:induction false} RunKeepsInv(s: State, steps: seq<Step>)
    requires Inv(s) && Run(s, steps)
    ensures Inv(After(s, steps))
    decreases steps
  {
    if steps != [] {
      StepKeepsInv(s, steps[0]);
      RunKeepsInv(Next(s, steps[0]), steps[1..]);
    }
  }

  /** In no interleaving is a token redeemed twice, and a redeemed one is never valid again. */
  lemma RedeemedAtMostOnce(steps: seq<Step>)
    requires Run(EMPTY, steps)
    ensures var s := After(EMPTY, steps);
            Distinct(s.redeemed) && forall t :: t in s.redeemed ==> t !in s.tokens
  {
    RunKeepsInv(EMPTY, steps);
  }

  // ── Which refreshes succeed ──

  /** A handler goes on exactly with a token that is stored and not expired. */
  lemma FindDecides(s: State, tx: Tx, token: Token, now: nat)
    requires Can(s, Find(tx, token, now))
    ensures var t := Next(s, Find(tx, token, now));
            && t.tokens == s.tokens
            && t.handlers[tx] == Handler(token,
                 if token in s.tokens && now <= s.tokens[token].expiresAt then Found(s.tokens[token]) else Aborted)
  {
  }

  lemma {:induction false} AbortedStays(s: State, steps: seq<Step>, tx: Tx)
    requires Run(s, steps) && tx in s.handlers && s.handlers[tx].phase == Aborted
    ensures tx in After(s, steps).handlers && After(s, steps).handlers[tx].phase == Aborted && Commit(tx) !in steps
    decreases steps
  {
    if steps != [] {
      AbortedStays(Next(s, steps[0]), steps[1..], tx);
    }
  }

  /** A refresh that presents an expired or unknown token never commits, whatever happens later. */
  lemma ExpiredNeverRedeems(before: seq<Step>, tx: Tx, token: Token, now: nat, after: seq<Step>)
    requires Run(EMPTY, before) && Can(After(EMPTY, before), Find(tx, token, now))
    requires token in After(EMPTY, before).tokens ==> After(EMPTY, before).tokens[token].expiresAt < now
    requires Run(Next(After(EMPTY, before), Find(tx, token, now)), after)
    ensures Commit(tx) !in after
  {
    FindDecides(After(EMPTY, before), tx, token, now);
    AbortedStays(Next(After(EMPTY, before), Find(tx, token, now)), after, tx);
  }

  /** And one that presents a live token nobody has locked can go through, and exchanges it. */
  lemma LiveTokenRedeems(s: State, tx: Tx, token: Token, now: nat, successor: Token, expiresAt: nat) returns (steps: seq<Step>)
    requires tx !in s.handlers && token in s.tokens && now <= s.tokens[token].expiresAt && !Locked(s, token)
    requires successor !in s.issued && successor !in s.tokens
    ensures steps == [Find(tx, token, now), Delete(tx), Create(tx, true, successor, expiresAt), Commit(tx)] && Run(s, steps)
    ensures After(s, steps).tokens == (s.tokens - {token})[successor := Session(s.tokens[token].user, expiresAt)]
    ensures After(s, steps).redeemed == s.redeemed + [token]
  {
    var s1 := Next(s, Find(tx, token, now));
    forall x | x in s1.handlers ensures !HasLock(s1.handlers[x], token) {
      if x != tx { assert !HasLock(s.handlers[x], token); }
    }
    var s2 := Next(s1, Delete(tx));
    var s3 := Next(s2, Create(tx, true, successor, expiresAt));
    var s4 := Next(s3, Commit(tx));
    steps := [Find(tx, token, now), Delete(tx), Create(tx, true, successor, expiresAt), Commit(tx)];
    hide Can, Next;
    assert steps[1..] == [Delete(tx), Create(tx, true, successor, expiresAt), Commit(tx)];
    assert steps[1..][1..] == [Create(tx, true, successor, expiresAt), Commit(tx)];
    assert steps[1..][1..][1..] == [Commit(tx)] && [Commit(tx)][1..] == [];
    assert Run(s4, []) && Run(s3, [Commit(tx)]) && After(s3, [Commit(tx)]) == s4;
    assert Run(s2, steps[1..][1..]) && After(s2, steps[1..][1..]) == s4;
    assert Run(s1, steps[1..]) && After(s1, steps[1..]) == s4;
  }

  // ── What one step does to the stored sessions ──

  /** The handler as one atomic change: the presented token out, a fresh one in. */
  predicate Redeems(before: map<Token, Session>, after: map<Token, Session>, token: Token, successor: Token) {
    && token in before && successor !in before && successor in after
    && after == (before - {token})[successor := after[successor]]
    && after[successor].user == before[token].user
  }

  /** A handler's session is the stored one for as long as the handler may still commit. */
  ghost predicate SeesStored(s: State) {
    forall tx :: tx in s.handlers && HasLock(s.handlers[tx], s.handlers[tx].token) ==>
      && s.handlers[tx].token in s.tokens
      && s.handlers[tx].phase.session == s.tokens[s.handlers[tx].token]
      && (s.handlers[tx].phase.Created? ==> s.handlers[tx].phase.next.user == s.handlers[tx].phase.session.user)
  }

  /** A token once found keeps its session until it is gone: tokens are never issued twice. */
  ghost predicate FoundIsStored(s: State) {
    && (forall tx :: tx in s.handlers && s.handlers[tx].phase.Found? ==>
          && s.handlers[tx].token in s.issued
          && (s.handlers[tx].token in s.tokens ==> s.handlers[tx].phase.session == s.tokens[s.handlers[tx].token])
          && forall y :: y in s.handlers && s.handlers[y].phase.Created? ==> s.handlers[y].phase.successor != s.handlers[tx].token)
  }

  lemma StepKeepsSessions(s: State, step: Step)
    requires Inv(s) && SeesStored(s) && FoundIsStored(s) && Can(s, step)
    ensures SeesStored(Next(s, step)) && FoundIsStored(Next(s, step))
  {
    var t := Next(s, step);
    match step
    case Commit(tx) => CommitKeepsSessions(s, tx);
    case Logout(token) =>
      forall x | x in s.handlers && HasLock(s.handlers[x], s.handlers[x].token) ensures s.handlers[x].token != token {}
    case Find(_, token, _) =>
      forall y | y in s.handlers && s.handlers[y].phase.Created? && token in s.tokens
        ensures s.handlers[y].phase.successor != token {}
    case _ =>
  }

  lemma CommitKeepsSessions(s: State, tx: Tx)
    requires Inv(s) && SeesStored(s) && FoundIsStored(s) && Can(s, Commit(tx))
    ensures SeesStored(Next(s, Commit(tx))) && FoundIsStored(Next(s, Commit(tx)))
  {
    var h := s.handlers[tx];
    var t := Next(s, Commit(tx));
    forall x | x in t.handlers && HasLock(t.handlers[x], t.handlers[x].token)
      ensures t.handlers[x] == s.handlers[x] && t.handlers[x].token != h.token && t.handlers[x].token != h.phase.successor
    {
      assert HasLock(h, h.token);
    }
  }

  lemma {:induction false} RunKeepsSessions(s: State, steps: seq<Step>)
    requires Inv(s) && SeesStored(s) && FoundIsStored(s) && Run(s, steps)
    ensures SeesStored(After(s, steps)) && FoundIsStored(After(s, steps))
    decreases steps
  {
    if steps != [] {
      StepKeepsInv(s, steps[0]);
      StepKeepsSessions(s, steps[0]);
      RunKeepsSessions(Next(s, steps[0]), steps[1..]);
    }
  }

  /**
   * Refinement: at every reachable state a commit is one atomic redemption, which keeps the
   * number of sessions, and no other step of a handler changes what is stored.
   */
  lemma HandlersRefineRedemption(steps: seq<Step>, step: Step)
    requires Run(EMPTY, steps) && Can(After(EMPTY, steps), step)
    requires !step.Login? && !step.Logout?
    ensures var s := After(EMPTY, steps);
            var t := Next(s, step);
            if step.Commit?
            then Redeems(s.tokens, t.tokens, s.handlers[step.tx].token, s.handlers[step.tx].phase.successor) && |t.tokens| == |s.tokens|
            else t.tokens == s.tokens
  {
    RunKeepsInv(EMPTY, steps);
    RunKeepsSessions(EMPTY, steps);
    if step.Commit? {
      CommitRedeems(After(EMPTY, steps), step.tx);
    } else {
      hide Inv, SeesStored, FoundIsStored;
    }
  }

  lemma CommitRedeems(s: State, tx: Tx)
    requires Inv(s) && SeesStored(s) && Can(s, Commit(tx))
    ensures var t := Next(s, Commit(tx));
            Redeems(s.tokens, t.tokens, s.handlers[tx].token, s.handlers[tx].phase.successor) && |t.tokens| == |s.tokens|
  {
    var h := s.handlers[tx];
    assert HasLock(h, h.token);
    SwapKeepsSize(s.tokens, h.token, h.phase.successor, h.phase.next);
  }

  lemma SwapKeepsSize(m: map<Token, Session>, token: Token, successor: Token, next: Session)
    requires token in m && successor !in m
    ensures |(m - {token})[successor := next]| == |m|
  {
    assert (m - {token}).Keys == m.Keys - {token};
    assert (m - {token})[successor := next].Keys == m.Keys - {token} + {successor};
  }

  // ── The handler on its own ──

  datatype Failure = InvalidOrExpired | UserGone

  class RefreshTokens {
    var rows: map<Token, Session>

    /** One transaction with nobody else running: it replaces the token, or changes nothing. */
    method Refresh(token: Token, now: nat, accepted: bool, successor: Token, expiresAt: nat) returns (r: Result<Token, Failure>)
      requires successor !in rows
      modifies this
      ensures r.Ok? <==> token in old(rows) && old(rows)[token].expiresAt >= now && accepted
      ensures r.Ok? ==> r.value == successor && Redeems(old(rows), rows, token, successor) && rows[successor].expiresAt == expiresAt
      ensures r.Err? ==> rows == old(rows)
    {
      var snapshot := rows;
      if token !in rows || rows[token].expiresAt < now {
        return Err(InvalidOrExpired);
      }
      var existing := rows[token];
      rows := rows - {token};
      if !accepted {
        rows := snapshot;
        return Err(UserGone);
      }
      rows := rows[successor := Session(existing.user, expiresAt)];
      r := Ok(successor);
    }
  }
}
