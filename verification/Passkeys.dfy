/**
 * Passkeys (server/src/services/passkey.service.ts, `togglePasswordLogin` in
 * server/src/controllers/auth.controller.ts): single-use challenges in swept maps, and the rule
 * that passkey-only mode always leaves a passkey to sign in with.
 */
module Passkeys {
  import opened Prelude

  type Challenge = string
  type User = string
  type Credential = string

  const TTL: int := 5 * 60 * 1000

  // ── Challenges ──

  /** A stored challenge: what it is for, and until when. Login challenges carry nothing. */
  datatype Entry<V> = Entry(value: V, expiresAt: int)

  function Swept<K, V>(m: map<K, Entry<V>>, now: int): map<K, Entry<V>> {
    map k | k in m && m[k].expiresAt >= now :: m[k]
  }

  predicate Live<K, V>(m: map<K, Entry<V>>, k: K, now: int) {
    k in m && m[k].expiresAt >= now
  }

  /** Issuing sweeps first and stores later, with other requests in between. */
  datatype Event<K, V> = Sweep(now: int) | Put(key: K, value: V, now: int) | Use(key: K, now: int)

  function Apply<K, V>(m: map<K, Entry<V>>, e: Event<K, V>): map<K, Entry<V>> {
    match e
    case Sweep(now) => Swept(m, now)
    case Put(k, v, now) => m[k := Entry(v, now + TTL)]
    case Use(k, now) => if Live(m, k, now) then m - {k} else m
  }

  /** The answers to the uses in a run, in order: the stored value, or None when refused. */
  function Answers<K, V>(m: map<K, Entry<V>>, events: seq<Event<K, V>>): seq<Option<V>>
    decreases events
  {
    if events == [] then [] else
      (if events[0].Use? then [if Live(m, events[0].key, events[0].now) then Some(m[events[0].key].value) else None] else [])
      + Answers(Apply(m, events[0]), events[1..])
  }

  function WithoutSweeps<K, V>(events: seq<Event<K, V>>): seq<Event<K, V>> {
    if events == [] then [] else (if events[0].Sweep? then [] else [events[0]]) + WithoutSweeps(events[1..])
  }

  ghost predicate Ordered<K, V>(events: seq<Event<K, V>>, from: int)
    decreases events
  {
    events == [] || (from <= events[0].now && Ordered(events[1..], events[0].now))
  }

  /** A swept map holds every entry of the unswept one that is not yet over, and nothing else. */
  ghost predicate Agrees<K, V>(swept: map<K, Entry<V>>, all: map<K, Entry<V>>, now: int) {
    && (forall k :: k in swept ==> k in all && swept[k] == all[k])
    && (forall k :: k in all && all[k].expiresAt >= now ==> k in swept)
  }

  lemma {:induction false} SweepingAgrees<K, V>(swept: map<K, Entry<V>>, all: map<K, Entry<V>>, events: seq<Event<K, V>>, now: int)
    requires Agrees(swept, all, now) && Ordered(events, now)
    ensures Answers(swept, events) == Answers(all, WithoutSweeps(events))
    decreases events
  {
    if events != [] {
      var e := events[0];
      if e.Sweep? {
        SweepingAgrees(Apply(swept, e), all, events[1..], e.now);
        assert Answers(swept, events) == Answers(Apply(swept, e), events[1..]);
        assert WithoutSweeps(events) == WithoutSweeps(events[1..]);
      } else {
        SweepingAgrees(Apply(swept, e), Apply(all, e), events[1..], e.now);
        assert WithoutSweeps(events)[1..] == WithoutSweeps(events[1..]);
      }
    }
  }

  /** Sweeping never shows: every use is answered as by a map from which only used challenges go. */
  lemma SweepingIsInvisible<K, V>(events: seq<Event<K, V>>, now: int)
    requires Ordered(events, now)
    ensures Answers(map[], events) == Answers(map[], WithoutSweeps(events))
  {
    SweepingAgrees<K, V>(map[], map[], events, now);
  }

  function Uses<K, V>(m: map<K, Entry<V>>, events: seq<Event<K, V>>, k: K): nat
    decreases events
  {
    if events == [] then 0 else
      (if events[0].Use? && events[0].key == k && Live(m, k, events[0].now) then 1 else 0)
      + Uses(Apply(m, events[0]), events[1..], k)
  }

  function Puts<K(==), V>(events: seq<Event<K, V>>, k: K): nat {
    if events == [] then 0 else (if events[0].Put? && events[0].key == k then 1 else 0) + Puts(events[1..], k)
  }

  /** A challenge passes at most as often as it was issued; a random one, at most once. */
  lemma {:induction false} PassesAtMostOnce<K, V>(m: map<K, Entry<V>>, events: seq<Event<K, V>>, k: K)
    ensures Uses(m, events, k) <= Puts(events, k) + if k in m then 1 else 0
    decreases events
  {
    if events != [] {
      PassesAtMostOnce(Apply(m, events[0]), events[1..], k);
    }
  }

  function After<K, V>(m: map<K, Entry<V>>, events: seq<Event<K, V>>): map<K, Entry<V>>
    decreases events
  {
    if events == [] then m else After(Apply(m, events[0]), events[1..])
  }

  /** What passes now was issued with this value, no longer than TTL ago. */
  lemma {:induction false} PassedWasIssued<K, V>(m: map<K, Entry<V>>, events: seq<Event<K, V>>, k: K, now: int)
    requires Live(After(m, events), k, now)
    ensures (exists e :: e in events && e.Put? && e.key == k && e.value == After(m, events)[k].value && now <= e.now + TTL)
         || (k in m && After(m, events)[k] == m[k])
    decreases events
  {
    if events != [] {
      PassedWasIssued(Apply(m, events[0]), events[1..], k, now);
    }
  }

  /** And what was issued passes until its time is up, whatever else is issued, used and swept meanwhile. */
  lemma {:induction false} IssuedWillPass<K, V>(m: map<K, Entry<V>>, events: seq<Event<K, V>>, k: K, from: int, now: int)
    requires Live(m, k, now) && Ordered(events, from) && (forall e :: e in events ==> e.now <= now)
    requires forall e :: e in events && !e.Sweep? ==> e.key != k
    ensures Live(After(m, events), k, now) && After(m, events)[k] == m[k]
    decreases events
  {
    if events != [] {
      assert events[0] in events;
      IssuedWillPass(Apply(m, events[0]), events[1..], k, events[0].now, now);
    }
  }

  lemma AnswerNow<K, V>(m: map<K, Entry<V>>, k: K, now: int)
    ensures Answers(m, [Use(k, now)]) == [if k in m && now <= m[k].expiresAt then Some(m[k].value) else None]
  {
    var use: Event<K, V> := Use(k, now);
    assert [use][1..] == [];
  }

  /**
   * A challenge issued at t and not used since is answered with its value up to and including the
   * five minutes after t, and refused from then on.
   */
  lemma {:induction false} AnsweredForFiveMinutes<K, V>(
    m: map<K, Entry<V>>, k: K, v: V, t: int, events: seq<Event<K, V>>, now: int)
    requires Ordered(events, t) && (forall e :: e in events ==> e.now <= now)
    requires forall e :: e in events && !e.Sweep? ==> e.key != k
    ensures var s := After(Apply(m, Put(k, v, t)), events);
            Answers(s, [Use(k, now)]) == [if now <= t + 300000 then Some(v) else None]
  {
    var issued := Apply(m, Put(k, v, t));
    KeptOrSwept(issued, events, k);
    if now <= t + 300000 { IssuedWillPass(issued, events, k, t, now); }
    AnswerNow(After(issued, events), k, now);
  }

  lemma {:induction false} KeptOrSwept<K, V>(m: map<K, Entry<V>>, events: seq<Event<K, V>>, k: K)
    requires forall e :: e in events && !e.Sweep? ==> e.key != k
    ensures k in After(m, events) ==> k in m && After(m, events)[k] == m[k]
    decreases events
  {
    if events != [] {
      assert events[0] in events;
      KeptOrSwept(Apply(m, events[0]), events[1..], k);
    }
  }

  /** A challenge that was answered once is refused until it is issued again. */
  lemma {:induction false} AnsweredOnce<K, V>(m: map<K, Entry<V>>, k: K, at: int, events: seq<Event<K, V>>, now: int)
    requires at <= now && forall e :: e in events && e.Put? ==> e.key != k
    requires Answers(m, [Use(k, at)]) != [None]
    ensures Answers(After(Apply(m, Use(k, at)), events), [Use(k, now)]) == [None]
  {
    AnswerNow(m, k, at);
    AnswerNow(After(Apply(m, Use(k, at)), events), k, now);
    StaysAway(Apply(m, Use(k, at)), events, k);
  }

  lemma {:induction false} StaysAway<K, V>(m: map<K, Entry<V>>, events: seq<Event<K, V>>, k: K)
    requires k !in m && forall e :: e in events && e.Put? ==> e.key != k
    ensures k !in After(m, events)
    decreases events
  {
    if events != [] {
      assert events[0] in events;
      StaysAway(Apply(m, events[0]), events[1..], k);
    }
  }

  class ChallengeStore {
    var regChallenges: map<User, Entry<Challenge>>
    var authChallenges: map<Challenge, Entry<()>>

    method SweepChallenges(now: int)
      modifies this
      ensures regChallenges == Swept(old(regChallenges), now)
      ensures authChallenges == Swept(old(authChallenges), now)
      ensures forall u :: u in regChallenges <==> u in old(regChallenges) && now <= old(regChallenges)[u].expiresAt
      ensures forall c :: c in authChallenges <==> c in old(authChallenges) && now <= old(authChallenges)[c].expiresAt
    {
      regChallenges := SweepMap(regChallenges, now);
      authChallenges := SweepMap(authChallenges, now);
    }

    static method SweepMap<K(==), V>(m: map<K, Entry<V>>, now: int) returns (r: map<K, Entry<V>>)
      ensures r == Swept(m, now)
    {
      r := m;
      var todo := m.Keys;
      while todo != {}
        invariant todo <= m.Keys
        invariant forall k :: k in r <==> k in m && (k in todo || m[k].expiresAt >= now)
        invariant forall k :: k in r ==> r[k] == m[k]
      {
        var k :| k in todo;
        todo := todo - {k};
        if m[k].expiresAt < now { r := r - {k}; }
      }
    }

    method StoreRegistration(user: User, challenge: Challenge, now: int)
      modifies this`regChallenges
      ensures regChallenges == Apply(old(regChallenges), Put(user, challenge, now))
      ensures user in regChallenges && regChallenges[user] == Entry(challenge, now + 300000)
    {
      regChallenges := regChallenges[user := Entry(challenge, now + TTL)];
    }

    method StoreAuthentication(challenge: Challenge, now: int)
      modifies this`authChallenges
      ensures authChallenges == Apply(old(authChallenges), Put(challenge, (), now))
      ensures challenge in authChallenges && authChallenges[challenge].expiresAt == now + 300000
    {
      authChallenges := authChallenges[challenge := Entry((), now + TTL)];
    }

    /** verifyRegistration up to its first await: the challenge to check against, now spent. */
    method TakeRegistration(user: User, now: int) returns (expected: Option<Challenge>)
      modifies this`regChallenges
      ensures [expected] == Answers(old(regChallenges), [Use(user, now)])
      ensures expected.Some? <==> user in old(regChallenges) && now <= old(regChallenges)[user].expiresAt
      ensures expected.Some? ==> expected.value == old(regChallenges)[user].value
      ensures regChallenges == if expected.Some? then old(regChallenges) - {user} else old(regChallenges)
    {
      AnswerNow(regChallenges, user, now);
      if user !in regChallenges || regChallenges[user].expiresAt < now { return None; }
      expected := Some(regChallenges[user].value);
      regChallenges := regChallenges - {user};
    }

    /** verifyAuthentication up to its first await; an expiry of 0 would also be refused, but none is stored. */
    method TakeAuthentication(challenge: Challenge, now: int) returns (passes: bool)
      requires forall c :: c in authChallenges ==> authChallenges[c].expiresAt > 0
      modifies this`authChallenges
      ensures passes <==> Answers(old(authChallenges), [Use(challenge, now)]) == [Some(())]
      ensures passes <==> challenge in old(authChallenges) && now <= old(authChallenges)[challenge].expiresAt
      ensures authChallenges == if passes then old(authChallenges) - {challenge} else old(authChallenges)
    {
      AnswerNow(authChallenges, challenge, now);
      if challenge !in authChallenges || authChallenges[challenge].expiresAt == 0 || authChallenges[challenge].expiresAt < now {
        return false;
      }
      assert authChallenges[challenge].value == ();
      authChallenges := authChallenges - {challenge};
      return true;
    }
  }

  // ── Passkey-only mode ──

  /** Users in passkey-only mode, and each credential's user. */
  datatype Db = Db(passkeyOnly: map<User, bool>, credentials: map<Credential, User>)

  datatype Tx = DeleteTx(user: User, id: Credential) | ToggleTx(user: User, disabled: bool)

  datatype Outcome = Done | NotFound | LastPasskey | NeedsPasskey

  function Owned(db: Db, user: User): set<Credential> {
    set id | id in db.credentials && db.credentials[id] == user
  }

  predicate IsPasskeyOnly(db: Db, user: User) {
    user in db.passkeyOnly && db.passkeyOnly[user]
  }

  /** What a transaction's body decides from what it reads. */
  function Decide(db: Db, tx: Tx): Outcome {
    match tx
    case DeleteTx(user, id) =>
      if id !in db.credentials || db.credentials[id] != user then NotFound
      else if IsPasskeyOnly(db, user) && |Owned(db, user)| <= 1 then LastPasskey
      else Done
    case ToggleTx(user, disabled) =>
      if disabled && |Owned(db, user)| == 0 then NeedsPasskey else Done
  }

  function Write(db: Db, tx: Tx): Db {
    match tx
    case DeleteTx(_, id) => db.(credentials := db.credentials - {id})
    case ToggleTx(user, disabled) => db.(passkeyOnly := db.passkeyOnly[user := disabled])
  }

  /** An open transaction: what it decided on what it read. */
  datatype Open = Open(tx: Tx, outcome: Outcome)

  datatype State = State(db: Db, pending: map<nat, Open>)

  /** Transactions read, then commit or abort; registering a passkey is one insert. */
  datatype Step = Begin(id: nat, tx: Tx) | Commit(id: nat) | Abort(id: nat) | Register(user: User, credential: Credential)

  /**
   * Serializable: a transaction's writes commit only where its whole body, run on the rows
   * committed by then, would make them. Without that, they commit on what was read earlier.
   */
  predicate Can(s: State, serializable: bool, step: Step) {
    match step
    case Begin(id, _) => id !in s.pending
    case Commit(id) =>
      id in s.pending && (serializable && s.pending[id].outcome.Done? ==> Decide(s.db, s.pending[id].tx).Done?)
    case Abort(id) => id in s.pending
    case Register(_, id) => id !in s.db.credentials
  }

  function Next(s: State, serializable: bool, step: Step): State
    requires Can(s, serializable, step)
  {
    match step
    case Begin(id, tx) => s.(pending := s.pending[id := Open(tx, Decide(s.db, tx))])
    case Commit(id) =>
      State(if s.pending[id].outcome.Done? then Write(s.db, s.pending[id].tx) else s.db, s.pending - {id})
    case Abort(id) => s.(pending := s.pending - {id})
    case Register(user, id) => s.(db := s.db.(credentials := s.db.credentials[id := user]))
  }

  predicate Run(s: State, serializable: bool, steps: seq<Step>)
    decreases steps
  {
    steps == [] || (Can(s, serializable, steps[0]) && Run(Next(s, serializable, steps[0]), serializable, steps[1..]))
  }

  function Reached(s: State, serializable: bool, steps: seq<Step>): State
    requires Run(s, serializable, steps)
    decreases steps
  {
    if steps == [] then s else Reached(Next(s, serializable, steps[0]), serializable, steps[1..])
  }

  /** Nobody is locked out: passkey-only mode implies a passkey. */
  ghost predicate Safe(db: Db) {
    forall u :: IsPasskeyOnly(db, u) ==> Owned(db, u) != {}
  }

  /** Another passkey of the same user. */
  ghost predicate HasOther(db: Db, user: User, id: Credential) {
    exists other :: other in db.credentials && db.credentials[other] == user && other != id
  }

  ghost predicate HasPasskey(db: Db, user: User) {
    exists id :: id in db.credentials && db.credentials[id] == user
  }

  lemma OwnedOrNone(db: Db, user: User)
    ensures |Owned(db, user)| == 0 <==> !HasPasskey(db, user)
  {
    if HasPasskey(db, user) {
      var id :| id in db.credentials && db.credentials[id] == user;
      assert id in Owned(db, user);
    } else {
      assert Owned(db, user) == {};
    }
  }

  lemma OwnedOrMore(db: Db, user: User, id: Credential)
    requires id in db.credentials && db.credentials[id] == user
    ensures |Owned(db, user)| <= 1 <==> !HasOther(db, user, id)
  {
    assert Owned(db, user) == {id} + (Owned(db, user) - {id});
    if HasOther(db, user, id) {
      var other :| other in db.credentials && db.credentials[other] == user && other != id;
      assert other in Owned(db, user) - {id};
    } else {
      assert Owned(db, user) - {id} == {};
    }
  }

  /**
   * What each transaction answers: somebody else's or an unknown passkey is not found, an own one
   * goes unless it is the last in passkey-only mode, and the mode changes unless it would leave
   * nothing to sign in with.
   */
  lemma DecidedExactly(db: Db, user: User, id: Credential, disabled: bool)
    ensures var o := Decide(db, DeleteTx(user, id));
            && (o == NotFound <==> !(id in db.credentials && db.credentials[id] == user))
            && (o == LastPasskey <==> id in db.credentials && db.credentials[id] == user
                                      && user in db.passkeyOnly && db.passkeyOnly[user] && !HasOther(db, user, id))
            && (o == Done <==> id in db.credentials && db.credentials[id] == user
                               && (user in db.passkeyOnly && db.passkeyOnly[user] ==> HasOther(db, user, id)))
    ensures var o := Decide(db, ToggleTx(user, disabled));
            && (o == NeedsPasskey <==> disabled && !HasPasskey(db, user))
            && (o == Done <==> disabled ==> HasPasskey(db, user))
  {
    OwnedOrNone(db, user);
    if id in db.credentials && db.credentials[id] == user { OwnedOrMore(db, user, id); }
    hide HasOther, HasPasskey, Owned;
  }

  /** One whole transaction at once keeps every user able to sign in. */
  lemma TransactionIsSafe(db: Db, tx: Tx)
    requires Safe(db) && Decide(db, tx) == Done
    ensures Safe(Write(db, tx))
  {
    var after := Write(db, tx);
    forall u | IsPasskeyOnly(after, u) ensures Owned(after, u) != {} {
      match tx
      case DeleteTx(user, id) =>
        assert Owned(after, u) == Owned(db, u) - {id};
        if u == user {
          assert id in Owned(db, u);
          assert |Owned(after, u)| == |Owned(db, u)| - 1;
        } else {
          assert id !in Owned(db, u);
        }
      case ToggleTx(user, disabled) =>
        assert Owned(after, u) == Owned(db, u);
    }
  }

  lemma StepIsSafe(s: State, step: Step)
    requires Safe(s.db) && Can(s, true, step)
    ensures Safe(Next(s, true, step).db)
  {
    match step
    case Commit(id) =>
      if s.pending[id].outcome.Done? { TransactionIsSafe(s.db, s.pending[id].tx); }
    case Register(user, id) =>
      var t := Next(s, true, step);
      forall u | IsPasskeyOnly(t.db, u) ensures Owned(t.db, u) != {} {
        var c :| c in Owned(s.db, u);
        assert c in Owned(t.db, u);
      }
    case _ =>
  }

  lemma {:induction false} RunIsSafe(s: State, steps: seq<Step>)
    requires Safe(s.db) && Run(s, true, steps)
    ensures Safe(Reached(s, true, steps).db)
    decreases steps
  {
    hide Can, Next, Safe;
    if steps != [] {
      StepIsSafe(s, steps[0]);
      RunIsSafe(Next(s, true, steps[0]), steps[1..]);
    }
  }

  /**
   * Deletes, toggles and registrations interleaved at will, under serializable isolation: no user
   * ends in passkey-only mode without a passkey.
   */
  lemma NobodyLockedOut(db: Db, steps: seq<Step>)
    requires Safe(db) && Run(State(db, map[]), true, steps)
    ensures Safe(Reached(State(db, map[]), true, steps).db)
  {
    RunIsSafe(State(db, map[]), steps);
  }

  lemma StepThenRun(s: State, step: Step, rest: seq<Step>)
    requires Can(s, false, step) && Run(Next(s, false, step), false, rest)
    ensures Run(s, false, [step] + rest)
    ensures Reached(s, false, [step] + rest) == Reached(Next(s, false, step), false, rest)
  {
    assert ([step] + rest)[1..] == rest;
  }

  /** The isolation level is needed: two deletes that read before either commits remove both of two passkeys. */
  lemma WeakerIsolationLocksOut(db: Db, user: User, a: Credential, b: Credential) returns (steps: seq<Step>)
    requires Safe(db) && IsPasskeyOnly(db, user) && a != b && Owned(db, user) == {a, b}
    ensures Run(State(db, map[]), false, steps) && !Safe(Reached(State(db, map[]), false, steps).db)
  {
    var s0 := State(db, map[]);
    assert a in Owned(db, user) && b in Owned(db, user) && |Owned(db, user)| == 2;
    assert Decide(db, DeleteTx(user, a)) == Decide(db, DeleteTx(user, b)) == Done;
    var s1 := Next(s0, false, Begin(0, DeleteTx(user, a)));
    var s2 := Next(s1, false, Begin(1, DeleteTx(user, b)));
    var s3 := Next(s2, false, Commit(0));
    var s4 := Next(s3, false, Commit(1));
    assert s3.db == Write(db, DeleteTx(user, a)) && s4.db == Write(s3.db, DeleteTx(user, b));
    forall c | c in s4.db.credentials ensures s4.db.credentials[c] != user {
      assert c in Owned(db, user) <==> db.credentials[c] == user;
    }
    assert Owned(s4.db, user) == {};
    hide Next, Can;
    StepThenRun(s3, Commit(1), []);
    StepThenRun(s2, Commit(0), [Commit(1)]);
    StepThenRun(s1, Begin(1, DeleteTx(user, b)), [Commit(0)] + [Commit(1)]);
    StepThenRun(s0, Begin(0, DeleteTx(user, a)), [Begin(1, DeleteTx(user, b))] + ([Commit(0)] + [Commit(1)]));
    steps := [Begin(0, DeleteTx(user, a))] + ([Begin(1, DeleteTx(user, b))] + ([Commit(0)] + [Commit(1)]));
  }

  // ── The two transactions' own code ──

  class Account {
    var db: Db

    method DeletePasskey(user: User, id: Credential) returns (outcome: Outcome)
      modifies this
      ensures outcome == Decide(old(db), DeleteTx(user, id))
      ensures outcome == NotFound <==> !(id in old(db).credentials && old(db).credentials[id] == user)
      ensures outcome == LastPasskey <==>
                && id in old(db).credentials && old(db).credentials[id] == user
                && user in old(db).passkeyOnly && old(db).passkeyOnly[user] && !HasOther(old(db), user, id)
      ensures outcome in {NotFound, LastPasskey, Done}
      ensures db.credentials == if outcome.Done? then old(db).credentials - {id} else old(db).credentials
      ensures db.passkeyOnly == old(db).passkeyOnly
      ensures Safe(old(db)) ==> Safe(db)
    {
      DecidedExactly(db, user, id, false);
      if id !in db.credentials || db.credentials[id] != user { return NotFound; }
      if user in db.passkeyOnly && db.passkeyOnly[user] {
        var count := |Owned(db, user)|;
        if count <= 1 { return LastPasskey; }
      }
      if Safe(db) { TransactionIsSafe(db, DeleteTx(user, id)); }
      db := db.(credentials := db.credentials - {id});
      return Done;
    }

    method TogglePasswordLogin(user: User, disabled: bool) returns (outcome: Outcome)
      modifies this
      ensures outcome == Decide(old(db), ToggleTx(user, disabled))
      ensures outcome == if disabled && !HasPasskey(old(db), user) then NeedsPasskey else Done
      ensures db.passkeyOnly == if outcome.Done? then old(db).passkeyOnly[user := disabled] else old(db).passkeyOnly
      ensures db.credentials == old(db).credentials
      ensures Safe(old(db)) ==> Safe(db)
    {
      OwnedOrNone(db, user);
      if disabled {
        var count := |Owned(db, user)|;
        if count == 0 { return NeedsPasskey; }
      }
      if Safe(db) { TransactionIsSafe(db, ToggleTx(user, disabled)); }
      db := db.(passkeyOnly := db.passkeyOnly[user := disabled]);
      return Done;
    }
  }
}
