/**
 * One user's sessions when refreshes and revocations overlap, statement by statement
 * (refreshToken, changePassword and revokeAllSessions of auth.controller.ts, under read committed).
 *
 * A refresh's transaction finds the token, deletes it (which locks the row), reads the user's
 * version, creates the successor and commits. A revocation bumps the version and deletes all
 * sessions, in either order. `deleteMany` sees the rows committed when it begins, waits for those a
 * refresh has locked, and removes what is then left of them.
 *
 * A lineage is a sign-in and everything refreshed from it, named by its first token.
 */
module RevocationRace {

  type Token = nat
  type Tx = nat

  datatype Phase =
    | Found
    | Locked
    | Stamped(version: nat)
    | Ready(version: nat, successor: Token)
    | Committed
    | Failed

  datatype Refresh = Refresh(token: Token, phase: Phase)

  datatype AccessToken = AccessToken(version: nat, lineage: Token)

  /** `deletions` are the deleteMany statements under way, each with the rows it saw. */
  datatype State = State(
    stored: set<Token>, lineages: map<Token, Token>, version: nat,
    refreshes: map<Tx, Refresh>, deletions: map<nat, set<Token>>, access: set<AccessToken>)

  const EMPTY := State({}, map[], 0, map[], map[], {})

  datatype Step =
    | SignIn(token: Token)
    | Find(tx: Tx, token: Token)
    | Delete(tx: Tx)
    | Stamp(tx: Tx)
    | Create(tx: Tx, successor: Token)
    | Commit(tx: Tx)
    | Abort(tx: Tx)
    | Logout(token: Token)
    | Bump
    | BeginDeletion(id: nat)
    | EndDeletion(id: nat)

  predicate Holds(r: Refresh, token: Token) {
    r.token == token && (r.phase.Locked? || r.phase.Stamped? || r.phase.Ready?)
  }

  predicate Held(s: State, token: Token) {
    exists tx :: tx in s.refreshes && Holds(s.refreshes[tx], token)
  }

  predicate Can(s: State, step: Step) {
    match step
    case SignIn(token) => token !in s.lineages
    case Find(tx, _) => tx !in s.refreshes
    case Delete(tx) => tx in s.refreshes && s.refreshes[tx].phase.Found? && !Held(s, s.refreshes[tx].token)
    case Stamp(tx) => tx in s.refreshes && s.refreshes[tx].phase.Locked?
    case Create(tx, successor) => tx in s.refreshes && s.refreshes[tx].phase.Stamped? && s.refreshes[tx].token in s.lineages && successor !in s.lineages
    case Commit(tx) => tx in s.refreshes && s.refreshes[tx].phase.Ready? && s.refreshes[tx].token in s.lineages
    case Abort(tx) => tx in s.refreshes && !s.refreshes[tx].phase.Committed?
    case Logout(token) => !Held(s, token)
    case Bump => true
    case BeginDeletion(id) => id !in s.deletions
    case EndDeletion(id) => id in s.deletions && forall t :: t in s.deletions[id] ==> !Held(s, t)
  }

  function At(s: State, tx: Tx, phase: Phase): map<Tx, Refresh>
    requires tx in s.refreshes
  {
    s.refreshes[tx := s.refreshes[tx].(phase := phase)]
  }

  function Next(s: State, step: Step): State
    requires Can(s, step)
  {
    match step
    case SignIn(token) =>
      s.(stored := s.stored + {token}, lineages := s.lineages[token := token], access := s.access + {AccessToken(s.version, token)})
    case Find(tx, token) => s.(refreshes := s.refreshes[tx := Refresh(token, if token in s.stored then Found else Failed)])
    case Delete(tx) => s.(refreshes := At(s, tx, if s.refreshes[tx].token in s.stored then Locked else Failed))
    case Stamp(tx) => s.(refreshes := At(s, tx, Stamped(s.version)))
    case Create(tx, successor) =>
      s.(refreshes := At(s, tx, Ready(s.refreshes[tx].phase.version, successor)),
         lineages := s.lineages[successor := s.lineages[s.refreshes[tx].token]])
    case Commit(tx) =>
      var r := s.refreshes[tx];
      s.(stored := s.stored - {r.token} + {r.phase.successor}, refreshes := At(s, tx, Committed),
         access := s.access + {AccessToken(r.phase.version, s.lineages[r.token])})
    case Abort(tx) => s.(refreshes := At(s, tx, Failed))
    case Logout(token) => s.(stored := s.stored - {token})
    case Bump => s.(version := s.version + 1)
    case BeginDeletion(id) => s.(deletions := s.deletions[id := s.stored])
    case EndDeletion(id) => s.(stored := s.stored - s.deletions[id], deletions := s.deletions - {id})
  }

  predicate Run(s: State, steps: seq<Step>)
    decreases steps
  {
    steps == [] || (Can(s, steps[0]) && Run(Next(s, steps[0]), steps[1..]))
  }

  function After(s: State, steps: seq<Step>): State
    requires Run(s, steps)
    decreases steps
  {
    if steps == [] then s else After(Next(s, steps[0]), steps[1..])
  }

  // ── Invariant ──

  /** Every lineage has at most one stored token. */
  ghost predicate LineagesOk(s: State) {
    && s.stored <= s.lineages.Keys
    && (forall t, u :: t in s.stored && u in s.stored && s.lineages[t] == s.lineages[u] ==> t == u)
    && (forall id :: id in s.deletions ==> s.deletions[id] <= s.lineages.Keys)
  }

  /** A lineage is named by a token that was issued. */
  ghost predicate RootsOk(s: State) {
    forall t :: t in s.lineages ==> s.lineages[t] in s.lineages
  }

  lemma FreshRoot(s: State, token: Token)
    requires RootsOk(s) && token !in s.lineages
    ensures forall t :: t in s.lineages ==> s.lineages[t] != token
  {
  }

  lemma RootsStay(s: State, step: Step)
    requires RootsOk(s) && Can(s, step)
    ensures RootsOk(Next(s, step))
  {
    var s' := Next(s, step);
    assert forall t :: t in s.lineages ==> t in s'.lineages && s'.lineages[t] == s.lineages[t];
    forall t | t in s'.lineages ensures s'.lineages[t] in s'.lineages {
      if t in s.lineages { assert s.lineages[t] in s.lineages; }
    }
  }

  /** A locked row stays, and one refresh holds it. */
  ghost predicate LocksOk(s: State) {
    && (forall x, t :: x in s.refreshes && Holds(s.refreshes[x], t) ==> t in s.stored)
    && (forall x, y, t :: x in s.refreshes && y in s.refreshes && Holds(s.refreshes[x], t) && Holds(s.refreshes[y], t) ==> x == y)
  }

  /** A successor is new and of the same lineage. */
  ghost predicate SuccessorsOk(s: State) {
    && (forall x :: x in s.refreshes && s.refreshes[x].phase.Ready? ==>
          var r := s.refreshes[x];
          && r.token in s.lineages && r.phase.successor in s.lineages && r.phase.successor !in s.stored
          && s.lineages[r.phase.successor] == s.lineages[r.token])
    && (forall x, y :: x in s.refreshes && y in s.refreshes && x != y && s.refreshes[x].phase.Ready? && s.refreshes[y].phase.Ready? ==>
          s.refreshes[x].phase.successor != s.refreshes[y].phase.successor)
  }

  ghost predicate VersionsOk(s: State) {
    && (forall x :: x in s.refreshes && s.refreshes[x].phase.Stamped? ==> s.refreshes[x].phase.version <= s.version)
    && (forall x :: x in s.refreshes && s.refreshes[x].phase.Ready? ==> s.refreshes[x].phase.version <= s.version)
    && (forall a :: a in s.access ==> a.version <= s.version)
  }

  ghost predicate Inv(s: State) {
    LineagesOk(s) && RootsOk(s) && LocksOk(s) && SuccessorsOk(s) && VersionsOk(s)
  }

  /** A refresh about to commit holds a stored token. */
  lemma ReadyHolds(s: State, tx: Tx)
    requires LocksOk(s) && tx in s.refreshes && s.refreshes[tx].phase.Ready?
    ensures s.refreshes[tx].token in s.stored
    ensures forall y :: y in s.refreshes && Holds(s.refreshes[y], s.refreshes[tx].token) ==> y == tx
  {
    assert Holds(s.refreshes[tx], s.refreshes[tx].token);
  }

  lemma LineagesStay(s: State, step: Step)
    requires Inv(s) && Can(s, step)
    ensures LineagesOk(Next(s, step))
  {
    hide RootsOk, LocksOk, VersionsOk, Held, Holds;
    if step.Commit? { ReadyHolds(s, step.tx); }
    if step.SignIn? { FreshRoot(s, step.token); }
  }

  lemma LocksStay(s: State, step: Step)
    requires Inv(s) && Can(s, step)
    ensures LocksOk(Next(s, step))
  {
    hide LineagesOk, RootsOk, SuccessorsOk, VersionsOk;
    match step
    case Commit(tx) => ReadyHolds(s, tx);
    case Delete(tx) => DeleteLocks(s, tx);
    case Logout(token) => FreedLocks(s, {token}, Next(s, step));
    case EndDeletion(id) => FreedLocks(s, s.deletions[id], Next(s, step));
    case Stamp(tx) => SameHolders(s, Next(s, step));
    case Create(tx, _) => SameHolders(s, Next(s, step));
    case _ => hide Held;
  }

  lemma DeleteLocks(s: State, tx: Tx)
    requires LocksOk(s) && Can(s, Delete(tx))
    ensures LocksOk(Next(s, Delete(tx)))
  {
    var s' := Next(s, Delete(tx));
    assert forall x, t :: x in s'.refreshes && Holds(s'.refreshes[x], t) && x != tx ==> Holds(s.refreshes[x], t);
    assert forall x :: x in s.refreshes ==> !Holds(s.refreshes[x], s.refreshes[tx].token);
  }

  lemma SameHolders(s: State, s': State)
    requires LocksOk(s) && s'.stored == s.stored && s'.refreshes.Keys == s.refreshes.Keys
    requires forall x, t :: x in s.refreshes ==> (Holds(s'.refreshes[x], t) <==> Holds(s.refreshes[x], t))
    ensures LocksOk(s')
  {
    hide Holds;
  }

  lemma FreedLocks(s: State, gone: set<Token>, s': State)
    requires LocksOk(s) && s'.refreshes == s.refreshes && s'.stored == s.stored - gone
    requires forall t :: t in gone ==> !Held(s, t)
    ensures LocksOk(s')
  {
    hide Holds;
    forall x, t | x in s.refreshes && Holds(s.refreshes[x], t) ensures t in s'.stored {
      assert Held(s, t);
    }
  }

  lemma SuccessorsStay(s: State, step: Step)
    requires Inv(s) && Can(s, step)
    ensures SuccessorsOk(Next(s, step))
  {
    hide RootsOk, LocksOk, VersionsOk, Held, Holds;
    if step.Commit? { ReadyHolds(s, step.tx); }
  }

  lemma VersionsStay(s: State, step: Step)
    requires VersionsOk(s) && Can(s, step)
    ensures VersionsOk(Next(s, step))
  {
    hide Held, Holds;
  }

  lemma StepKeepsInv(s: State, step: Step)
    requires Inv(s) && Can(s, step)
    ensures Inv(Next(s, step))
  {
    hide Can, Next, LineagesOk, RootsOk, LocksOk, SuccessorsOk, VersionsOk;
    LineagesStay(s, step);
    RootsStay(s, step);
    LocksStay(s, step);
    SuccessorsStay(s, step);
    VersionsStay(s, step);
  }

  lemma {:induction false} RunKeepsInv(s: State, steps: seq<Step>)
    requires Inv(s) && Run(s, steps)
    ensures Inv(After(s, steps))
    decreases steps
  {
    if steps != [] {
      StepKeepsInv(s, steps[0]);
      hide Inv, Can, Next;
      RunKeepsInv(Next(s, steps[0]), steps[1..]);
    }
  }

  // ── Which lineages survive ──

  /** Some stored token belongs to the lineage: it can be refreshed. */
  predicate Alive(s: State, lineage: Token) {
    exists t :: t in s.stored && t in s.lineages && s.lineages[t] == lineage
  }

  predicate Refreshes(s: State, step: Step, lineage: Token) {
    step.Commit? && Can(s, step) && s.lineages[s.refreshes[step.tx].token] == lineage
  }

  /** How many refreshes of the lineage commit in a run. */
  function Commits(s: State, steps: seq<Step>, lineage: Token): nat
    requires Run(s, steps)
    decreases steps
  {
    if steps == [] then 0
    else (if Refreshes(s, steps[0], lineage) then 1 else 0) + Commits(Next(s, steps[0]), steps[1..], lineage)
  }

  /**
   * While a deletion that saw `seen` waits: the lineage's one stored token is outside `seen` exactly
   * when a refresh of it has committed since, and no open refresh is about to store a token of `seen`.
   */
  ghost predicate Waiting(s: State, seen: set<Token>, lineage: Token, committed: bool) {
    && (exists t :: t in s.stored && t in s.lineages && s.lineages[t] == lineage && (t !in seen <==> committed))
    && (forall x :: x in s.refreshes && s.refreshes[x].phase.Ready? ==> s.refreshes[x].phase.successor !in seen)
    && seen <= s.lineages.Keys
  }

  lemma StepWaits(s: State, step: Step, seen: set<Token>, lineage: Token, committed: bool)
    requires Inv(s) && Can(s, step) && Waiting(s, seen, lineage, committed) && !step.Logout? && !step.EndDeletion?
    ensures Waiting(Next(s, step), seen, lineage, committed || Refreshes(s, step, lineage))
  {
    hide RootsOk, LocksOk, VersionsOk, LineagesOk, SuccessorsOk, Held, Holds, Waiting;
    if step.Commit? {
      ReadyHolds(s, step.tx);
      CommitWaits(s, step.tx, seen, lineage, committed);
    } else {
      OtherStepWaits(s, step, seen, lineage, committed);
    }
  }

  lemma CommitWaits(s: State, tx: Tx, seen: set<Token>, lineage: Token, committed: bool)
    requires LineagesOk(s) && SuccessorsOk(s) && Can(s, Commit(tx)) && Waiting(s, seen, lineage, committed)
    requires s.refreshes[tx].token in s.stored
    ensures Waiting(Next(s, Commit(tx)), seen, lineage, committed || Refreshes(s, Commit(tx), lineage))
  {
    hide Held, Holds;
    var t :| t in s.stored && t in s.lineages && s.lineages[t] == lineage && (t !in seen <==> committed);
    var s' := Next(s, Commit(tx));
    var r := s.refreshes[tx];
    if s.lineages[r.token] == lineage {
      assert r.phase.successor in s'.stored && s'.lineages[r.phase.successor] == lineage && r.phase.successor !in seen;
    } else {
      assert t in s'.stored;
    }
  }

  lemma OtherStepWaits(s: State, step: Step, seen: set<Token>, lineage: Token, committed: bool)
    requires LineagesOk(s) && Can(s, step) && Waiting(s, seen, lineage, committed)
    requires !step.Logout? && !step.EndDeletion? && !step.Commit?
    ensures Waiting(Next(s, step), seen, lineage, committed)
  {
    hide Held, Holds;
    var t :| t in s.stored && t in s.lineages && s.lineages[t] == lineage && (t !in seen <==> committed);
    var s' := Next(s, step);
    assert t in s'.stored && t in s'.lineages && s'.lineages[t] == lineage;
  }

  lemma {:induction false} RunWaits(s: State, steps: seq<Step>, seen: set<Token>, lineage: Token, committed: bool)
    requires Inv(s) && Run(s, steps) && Waiting(s, seen, lineage, committed)
    requires forall step :: step in steps ==> !step.Logout? && !step.EndDeletion?
    ensures Waiting(After(s, steps), seen, lineage, committed || Commits(s, steps, lineage) > 0)
    decreases steps
  {
    if steps != [] {
      assert steps[0] in steps;
      StepWaits(s, steps[0], seen, lineage, committed);
      StepKeepsInv(s, steps[0]);
      hide Inv, Can, Next, Waiting;
      RunWaits(Next(s, steps[0]), steps[1..], seen, lineage, committed || Refreshes(s, steps[0], lineage));
    }
  }

  lemma {:induction false} DeletionStays(s: State, steps: seq<Step>, id: nat)
    requires Run(s, steps) && id in s.deletions && forall step :: step in steps ==> !step.EndDeletion?
    ensures id in After(s, steps).deletions && After(s, steps).deletions[id] == s.deletions[id]
    decreases steps
  {
    if steps != [] {
      assert steps[0] in steps;
      DeletionStays(Next(s, steps[0]), steps[1..], id);
    }
  }

  /**
   * A revocation ends a lineage that was stored when its deletion began if and only if no refresh of
   * that lineage commits before the deletion is through.
   */
  lemma DeletionEndsUnrefreshed(before: seq<Step>, id: nat, steps: seq<Step>, lineage: Token)
    requires Run(EMPTY, before) && Can(After(EMPTY, before), BeginDeletion(id)) && Alive(After(EMPTY, before), lineage)
    requires Run(Next(After(EMPTY, before), BeginDeletion(id)), steps)
    requires forall step :: step in steps ==> !step.Logout? && !step.EndDeletion?
    requires Can(After(Next(After(EMPTY, before), BeginDeletion(id)), steps), EndDeletion(id))
    ensures var s := Next(After(EMPTY, before), BeginDeletion(id));
            Alive(Next(After(s, steps), EndDeletion(id)), lineage) <==> Commits(s, steps, lineage) > 0
  {
    RunKeepsInv(EMPTY, before);
    var s0 := After(EMPTY, before);
    var s := Next(s0, BeginDeletion(id));
    StepKeepsInv(s0, BeginDeletion(id));
    assert Waiting(s, s0.stored, lineage, false);
    RunWaits(s, steps, s0.stored, lineage, false);
    RunKeepsInv(s, steps);
    DeletionStays(s, steps, id);
    SurvivesOutside(After(s, steps), id, lineage, Commits(s, steps, lineage) > 0);
  }

  lemma SurvivesOutside(s: State, id: nat, lineage: Token, committed: bool)
    requires Inv(s) && Can(s, EndDeletion(id)) && Waiting(s, s.deletions[id], lineage, committed)
    ensures Alive(Next(s, EndDeletion(id)), lineage) <==> committed
  {
    hide RootsOk, LocksOk, SuccessorsOk, VersionsOk, Held, Holds;
    var t :| t in s.stored && t in s.lineages && s.lineages[t] == lineage && (t !in s.deletions[id] <==> committed);
    var s' := Next(s, EndDeletion(id));
    if committed { assert t in s'.stored; }
    if Alive(s', lineage) {
      var u :| u in s'.stored && u in s'.lineages && s'.lineages[u] == lineage;
      assert u == t;
    }
  }

  lemma FourSteps(s: State, a: Step, s1: State, b: Step, s2: State, c: Step, s3: State, d: Step, s4: State)
    requires Can(s, a) && s1 == Next(s, a) && Can(s1, b) && s2 == Next(s1, b)
    requires Can(s2, c) && s3 == Next(s2, c) && Can(s3, d) && s4 == Next(s3, d)
    ensures Run(s, [a, b, c, d]) && After(s, [a, b, c, d]) == s4
  {
    hide Can, Next;
    assert [a, b, c, d][1..] == [b, c, d] && [b, c, d][1..] == [c, d] && [c, d][1..] == [d] && [d][1..] == [];
    assert Run(s4, []) && Run(s3, [d]) && Run(s2, [c, d]) && Run(s1, [b, c, d]);
    assert After(s3, [d]) == s4;
    assert After(s2, [c, d]) == s4;
    assert After(s1, [b, c, d]) == s4;
  }

  /** What a refresh looks like when it is about to commit. */
  ghost function WithReady(s: State, tx: Tx, token: Token, successor: Token): State
    requires token in s.lineages
  {
    s.(refreshes := s.refreshes[tx := Refresh(token, Ready(s.version, successor))],
       lineages := s.lineages[successor := s.lineages[token]])
  }

  lemma StartHeldByNone(s: State, tx: Tx, token: Token)
    requires token in s.stored && !Held(s, token) && tx !in s.refreshes
    ensures Next(s, Find(tx, token)) == s.(refreshes := s.refreshes[tx := Refresh(token, Found)])
    ensures Can(Next(s, Find(tx, token)), Delete(tx))
  {
    var t := Next(s, Find(tx, token));
    forall x | x in t.refreshes ensures !Holds(t.refreshes[x], token) {
      if x != tx { assert t.refreshes[x] == s.refreshes[x]; }
    }
  }

  /** A refresh with no other in its way gets to its commit. */
  lemma RefreshGetsReady(s: State, tx: Tx, token: Token, successor: Token)
    requires token in s.stored && token in s.lineages && successor !in s.lineages
    requires !Held(s, token) && tx !in s.refreshes
    ensures var steps := [Find(tx, token), Delete(tx), Stamp(tx), Create(tx, successor)];
            Run(s, steps) && After(s, steps) == WithReady(s, tx, token, successor)
  {
    StartHeldByNone(s, tx, token);
    hide Held, Holds, Run, After;
    var s1 := Next(s, Find(tx, token));
    var s2 := Next(s1, Delete(tx));
    assert s2.refreshes == s.refreshes[tx := Refresh(token, Locked)];
    var s3 := Next(s2, Stamp(tx));
    assert s3.refreshes == s.refreshes[tx := Refresh(token, Stamped(s.version))];
    FourSteps(s, Find(tx, token), s1, Delete(tx), s2, Stamp(tx), s3, Create(tx, successor), WithReady(s, tx, token, successor));
  }

  /**
   * Survival is real: when a refresh that is about to commit is overtaken by the whole of a
   * revocation but its last wait, its new session alone is left, in the old lineage, while the
   * access token that came with it carries the old version.
   */
  lemma OverlappedRefreshSurvives(s: State, tx: Tx, token: Token, successor: Token, id: nat)
    requires token in s.stored && s.stored <= s.lineages.Keys && (forall x :: !Held(s, x))
    requires tx !in s.refreshes && successor !in s.lineages && id !in s.deletions
    ensures var steps := [Bump, BeginDeletion(id), Commit(tx), EndDeletion(id)];
            var ready := WithReady(s, tx, token, successor);
            && Run(ready, steps)
            && var t := After(ready, steps);
               && t.stored == {successor} && successor in t.lineages && t.lineages[successor] == s.lineages[token]
               && t.access == s.access + {AccessToken(s.version, s.lineages[token])} && t.version == s.version + 1
  {
    var s0 := WithReady(s, tx, token, successor);
    var s1 := Next(s0, Bump);
    var s2 := Next(s1, BeginDeletion(id));
    hide Held, Holds, Run, After;
    var s3 := Next(s2, Commit(tx));
    NothingHeld(s, s3, tx);
    assert s3.deletions[id] == s.stored && s3.stored == s.stored - {token} + {successor};
    var s4 := Next(s3, EndDeletion(id));
    assert successor !in s.stored;
    assert s4.stored == {successor};
    FourSteps(s0, Bump, s1, BeginDeletion(id), s2, Commit(tx), s3, EndDeletion(id), s4);
  }

  lemma NothingHeld(s: State, t: State, tx: Tx)
    requires tx in t.refreshes && t.refreshes == s.refreshes[tx := t.refreshes[tx]] && t.refreshes[tx].phase.Committed?
    requires forall token :: !Held(s, token)
    ensures forall token :: !Held(t, token)
  {
    forall token, x | x in t.refreshes ensures !Holds(t.refreshes[x], token) {
      if x != tx { assert t.refreshes[x] == s.refreshes[x] && !Held(s, token); }
    }
  }

  /** A lineage that has ended never comes back: in no continuation does a refresh of it commit. */
  lemma {:induction false} EndedForGood(s: State, steps: seq<Step>, lineage: Token)
    requires Inv(s) && Run(s, steps) && lineage in s.lineages && !Alive(s, lineage)
    ensures !Alive(After(s, steps), lineage) && Commits(s, steps, lineage) == 0
    decreases steps
  {
    if steps != [] {
      StepStaysEnded(s, steps[0], lineage);
      StepKeepsInv(s, steps[0]);
      hide Inv, Can, Next, Alive;
      EndedForGood(Next(s, steps[0]), steps[1..], lineage);
    }
  }

  lemma StepStaysEnded(s: State, step: Step, lineage: Token)
    requires Inv(s) && Can(s, step) && lineage in s.lineages && !Alive(s, lineage)
    ensures !Alive(Next(s, step), lineage) && lineage in Next(s, step).lineages && !Refreshes(s, step, lineage)
  {
    hide RootsOk, LocksOk, VersionsOk, Held, Holds;
    if step.Commit? { ReadyHolds(s, step.tx); }
  }

  // ── And which access tokens ──

  predicate Authenticates(s: State, a: AccessToken) {
    a.version == s.version
  }

  lemma {:induction false} VersionGrows(s: State, steps: seq<Step>)
    requires Run(s, steps)
    ensures After(s, steps).version >= s.version
    decreases steps
  {
    if steps != [] { VersionGrows(Next(s, steps[0]), steps[1..]); }
  }

  /**
   * After the bump no access token stamped before it passes, in any continuation; not even one that
   * a refresh which had read the old version hands out only then.
   */
  lemma OldStampsNeverPass(before: seq<Step>, steps: seq<Step>, a: AccessToken)
    requires Run(EMPTY, before) && Run(Next(After(EMPTY, before), Bump), steps)
    requires a in After(EMPTY, before).access
          || exists x :: x in After(EMPTY, before).refreshes
               && (After(EMPTY, before).refreshes[x].phase.Stamped? || After(EMPTY, before).refreshes[x].phase.Ready?)
               && a.version == After(EMPTY, before).refreshes[x].phase.version
    ensures !Authenticates(After(Next(After(EMPTY, before), Bump), steps), a)
  {
    RunKeepsInv(EMPTY, before);
    VersionGrows(Next(After(EMPTY, before), Bump), steps);
  }
}
