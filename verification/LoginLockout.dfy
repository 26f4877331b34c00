/**
 * The per-address sign-in lock (server/src/services/login-lockout.service.ts, and the order in
 * which `login` and `maybeLockout` of server/src/controllers/auth.controller.ts consult it).
 *
 * Attempts from different addresses interleave freely; those from one address do not overlap.
 * Times are milliseconds of a clock that never goes back and starts after 0.
 */
module LoginLockout {
  import opened Prelude

  type Ip = string

  type Positive = n: int | 1 <= n witness 1

  /** The two settings: attempts before a lock, and its length in minutes. */
  datatype Config = Config(attempts: Positive, minutes: Positive)

  function LockMs(cfg: Config): int {
    cfg.minutes * 60 * 1000
  }

  /** Math.max(1, parseInt(...) || default); None is not a number. */
  function Setting(parsed: Option<int>, default: Positive): (r: Positive)
    ensures parsed.Some? && parsed.value >= 1 ==> r == parsed.value
    ensures parsed == None || parsed.value == 0 ==> r == default
    ensures parsed.Some? && parsed.value < 0 ==> r == 1
  {
    if parsed == None || parsed.value == 0 then default else if parsed.value < 1 then 1 else parsed.value
  }

  datatype LockState = LockState(fails: int, lockedUntil: int)

  const CLEAR := LockState(0, 0)

  function Lookup(table: map<Ip, LockState>, ip: Ip): LockState {
    if ip in table then table[ip] else CLEAR
  }

  predicate Locked(table: map<Ip, LockState>, ip: Ip, now: int) {
    ip in table && table[ip].lockedUntil >= now
  }

  function AfterFailure(st: LockState, cfg: Config, now: int): LockState {
    if st.fails + 1 >= cfg.attempts then LockState(0, now + LockMs(cfg)) else LockState(st.fails + 1, st.lockedUntil)
  }

  // ── Sign-in attempts, at any number of addresses ──

  /** A recorded failure, and whether it was reported as a lockout. */
  datatype Failure = Failure(time: int, lockout: bool)

  /**
   * `pending` are the addresses with an attempt past the lock check and not yet decided; `log`
   * holds each address's failures since its last successful sign-in.
   */
  datatype State = State(table: map<Ip, LockState>, pending: set<Ip>, log: map<Ip, seq<Failure>>, clock: int)

  /** A password attempt is checked, then decided; a passkey sign-in comes at any time, even to a locked address. */
  datatype Step =
    | Check(ip: Ip, now: int)
    | Fail(ip: Ip, now: int)
    | Succeed(ip: Ip, now: int)
    | Abandon(ip: Ip, now: int)
    | PasskeySignIn(ip: Ip, now: int)

  const EMPTY := State(map[], {}, map[], 0)

  function Log(s: State, ip: Ip): seq<Failure> {
    if ip in s.log then s.log[ip] else []
  }

  predicate Can(s: State, step: Step) {
    && s.clock <= step.now && 0 < step.now
    && (step.Check? ==> step.ip !in s.pending)
    && (step.Fail? || step.Succeed? || step.Abandon? ==> step.ip in s.pending)
  }

  function Next(s: State, cfg: Config, step: Step): State
    requires Can(s, step)
  {
    match step
    case Check(ip, now) => s.(clock := now, pending := if Locked(s.table, ip, now) then s.pending else s.pending + {ip})
    case Fail(ip, now) =>
      var st := Lookup(s.table, ip);
      s.(clock := now, pending := s.pending - {ip}, table := s.table[ip := AfterFailure(st, cfg, now)],
         log := s.log[ip := Log(s, ip) + [Failure(now, st.fails + 1 >= cfg.attempts)]])
    case Succeed(ip, now) => s.(clock := now, pending := s.pending - {ip}, table := s.table - {ip}, log := s.log - {ip})
    case Abandon(ip, now) => s.(clock := now, pending := s.pending - {ip})
    case PasskeySignIn(ip, now) => s.(clock := now, table := s.table - {ip}, log := s.log - {ip})
  }

  predicate Run(s: State, cfg: Config, steps: seq<Step>)
    decreases steps
  {
    steps == [] || (Can(s, steps[0]) && Run(Next(s, cfg, steps[0]), cfg, steps[1..]))
  }

  function After(s: State, cfg: Config, steps: seq<Step>): State
    requires Run(s, cfg, steps)
    decreases steps
  {
    if steps == [] then s else After(Next(s, cfg, steps[0]), cfg, steps[1..])
  }

  // ── What holds of one address ──

  /** The failures come in order, every ATTEMPTS-th and no other is a lockout, and after one comes a long gap. */
  ghost predicate LogInv(log: seq<Failure>, cfg: Config) {
    && (forall i, j :: 0 <= i < j < |log| ==> log[i].time <= log[j].time)
    && (forall i :: 0 <= i < |log| ==> (log[i].lockout <==> (i + 1) % cfg.attempts == 0))
    && (forall i :: 0 <= i < |log| - 1 && log[i].lockout ==> log[i].time + LockMs(cfg) < log[i + 1].time)
  }

  /** The stored state is the log's: failures since the last lockout, and when that lock ends. */
  ghost predicate StateInv(st: LockState, log: seq<Failure>, cfg: Config) {
    && st.fails == |log| % cfg.attempts
    && (forall i :: 0 <= i < |log| && log[i].lockout ==> log[i].time + LockMs(cfg) <= st.lockedUntil)
    && (st.lockedUntil == 0 || exists i :: 0 <= i < |log| && log[i].lockout && st.lockedUntil == log[i].time + LockMs(cfg))
  }

  ghost predicate IpInv(s: State, cfg: Config, ip: Ip) {
    && LogInv(Log(s, ip), cfg)
    && StateInv(Lookup(s.table, ip), Log(s, ip), cfg)
    && (forall i :: 0 <= i < |Log(s, ip)| ==> 0 < Log(s, ip)[i].time <= s.clock)
    && (ip in s.pending ==> Lookup(s.table, ip).lockedUntil < s.clock)
  }

  lemma NextRemainder(n: nat, a: Positive)
    ensures (n + 1) % a == if n % a + 1 >= a then 0 else n % a + 1
  {
    var q, r := n / a, n % a;
    assert n == a * q + r;
    if r + 1 >= a {
      assert n + 1 == a * (q + 1);
      Remainder(q + 1, a, 0);
    } else {
      Remainder(q, a, r + 1);
    }
  }

  lemma Remainder(q: nat, a: Positive, r: nat)
    requires r < a
    ensures (a * q + r) % a == r
  {
    var x := a * q + r;
    assert x == a * (x / a) + x % a;
    UniqueQuotient(a, q, r, x / a, x % a);
  }

  lemma UniqueQuotient(a: Positive, q: int, r: nat, q': int, r': nat)
    requires r < a && r' < a && a * q + r == a * q' + r'
    ensures r == r'
  {
    if q < q' { Times(a, q, q'); } else if q' < q { Times(a, q', q); }
  }

  lemma Times(a: Positive, q: int, q': int)
    requires q < q'
    ensures a * q + a <= a * q'
  {
    assert a * (q' - q - 1) >= 0;
    assert a * q' == a * q + a + a * (q' - q - 1);
  }

  lemma FailKeepsLog(log: seq<Failure>, st: LockState, cfg: Config, now: int)
    requires LogInv(log, cfg) && StateInv(st, log, cfg)
    requires forall i :: 0 <= i < |log| ==> log[i].time <= now
    requires st.lockedUntil < now
    ensures var log' := log + [Failure(now, st.fails + 1 >= cfg.attempts)];
            LogInv(log', cfg) && StateInv(AfterFailure(st, cfg, now), log', cfg)
  {
    hide LockMs;
    NextRemainder(|log|, cfg.attempts);
    var lockout := st.fails + 1 >= cfg.attempts;
    var log' := log + [Failure(now, lockout)];
    var st' := AfterFailure(st, cfg, now);
    if lockout {
      assert log'[|log|].lockout && st'.lockedUntil == log'[|log|].time + LockMs(cfg);
    } else if st.lockedUntil != 0 {
      var i :| 0 <= i < |log| && log[i].lockout && st.lockedUntil == log[i].time + LockMs(cfg);
      assert log'[i].lockout && st'.lockedUntil == log'[i].time + LockMs(cfg);
    }
  }

  lemma StepKeepsInv(s: State, cfg: Config, step: Step, ip: Ip)
    requires Can(s, step) && IpInv(s, cfg, ip)
    ensures IpInv(Next(s, cfg, step), cfg, ip)
  {
    hide LogInv, StateInv, AfterFailure;
    var t := Next(s, cfg, step);
    if step.Fail? && step.ip == ip {
      FailKeepsLog(Log(s, ip), Lookup(s.table, ip), cfg, step.now);
    } else if (step.Succeed? || step.PasskeySignIn?) && step.ip == ip {
      NothingYet(cfg);
    } else {
      assert Log(t, ip) == Log(s, ip) && Lookup(t.table, ip) == Lookup(s.table, ip);
    }
  }

  lemma NothingYet(cfg: Config)
    ensures LogInv([], cfg) && StateInv(CLEAR, [], cfg)
  {
  }

  lemma {:induction false} RunKeepsInv(s: State, cfg: Config, steps: seq<Step>, ip: Ip)
    requires Run(s, cfg, steps) && IpInv(s, cfg, ip)
    ensures IpInv(After(s, cfg, steps), cfg, ip)
    decreases steps
  {
    if steps != [] {
      StepKeepsInv(s, cfg, steps[0], ip);
      hide IpInv, Next, Can;
      RunKeepsInv(Next(s, cfg, steps[0]), cfg, steps[1..], ip);
    }
  }

  lemma RunsKeep(cfg: Config, steps: seq<Step>, ip: Ip)
    requires Run(EMPTY, cfg, steps)
    ensures IpInv(After(EMPTY, cfg, steps), cfg, ip)
  {
    NothingYet(cfg);
    RunKeepsInv(EMPTY, cfg, steps, ip);
  }

  // ── The promises ──

  /** A lockout is reported on every ATTEMPTS-th failure and on no other; the stored count stays below ATTEMPTS. */
  lemma EveryNthLocks(cfg: Config, steps: seq<Step>, ip: Ip, i: nat)
    requires Run(EMPTY, cfg, steps) && i < |Log(After(EMPTY, cfg, steps), ip)|
    ensures var s := After(EMPTY, cfg, steps);
            && (Log(s, ip)[i].lockout <==> (i + 1) % cfg.attempts == 0)
            && 0 <= Lookup(s.table, ip).fails < cfg.attempts
  {
    RunsKeep(cfg, steps, ip);
  }

  /** An address is turned away exactly while one of its lockouts is less than a lock's length old. */
  lemma LockedExactly(cfg: Config, steps: seq<Step>, ip: Ip, now: int)
    requires Run(EMPTY, cfg, steps) && 0 < now
    ensures var s := After(EMPTY, cfg, steps);
            Locked(s.table, ip, now) <==>
              exists i :: 0 <= i < |Log(s, ip)| && Log(s, ip)[i].lockout && now <= Log(s, ip)[i].time + cfg.minutes * 60000
  {
    LockMsIs(cfg);
    hide LockMs;
    RunsKeep(cfg, steps, ip);
  }

  lemma LockMsIs(cfg: Config)
    ensures LockMs(cfg) == cfg.minutes * 60000
  {
  }

  /** A password attempt goes on to be evaluated unless its address is locked, and nothing else is affected. */
  lemma CheckedExactly(cfg: Config, steps: seq<Step>, ip: Ip, now: int)
    requires Run(EMPTY, cfg, steps) && Can(After(EMPTY, cfg, steps), Check(ip, now))
    ensures var s := After(EMPTY, cfg, steps);
            var t := Next(s, cfg, Check(ip, now));
            && (ip in t.pending <==>
                  !exists i :: 0 <= i < |Log(s, ip)| && Log(s, ip)[i].lockout && now <= Log(s, ip)[i].time + cfg.minutes * 60000)
            && t.pending - {ip} == s.pending && t.table == s.table && t.log == s.log
  {
    LockedExactly(cfg, steps, ip, now);
    hide After, Run, Log, Locked;
  }

  /** Any ATTEMPTS + 1 consecutive failures take longer than one lock. */
  lemma LockBetween(log: seq<Failure>, cfg: Config, i: nat)
    requires LogInv(log, cfg) && i + cfg.attempts < |log|
    ensures log[i + cfg.attempts].time - log[i].time > LockMs(cfg)
  {
    var a := cfg.attempts;
    var k := a * (i / a + 1) - 1;
    assert i == a * (i / a) + i % a;
    assert i <= k < i + a;
    Remainder(i / a + 1, a, 0);
    assert (k + 1) % a == 0;
    hide LockMs;
    assert log[k].lockout;
    assert log[i].time <= log[k].time && log[k + 1].time <= log[i + a].time;
  }

  lemma {:induction false} LocksBetween(log: seq<Failure>, cfg: Config, i: nat, m: nat)
    requires LogInv(log, cfg) && m >= 1 && i + m * cfg.attempts < |log|
    ensures log[i + m * cfg.attempts].time - log[i].time > m * LockMs(cfg)
  {
    hide LogInv, LockMs;
    var a, lock := cfg.attempts, LockMs(cfg);
    assert m * a == (m - 1) * a + a && m * lock == (m - 1) * lock + lock;
    if m == 1 {
      LockBetween(log, cfg, i);
    } else {
      LocksBetween(log, cfg, i, m - 1);
      LockBetween(log, cfg, i + (m - 1) * a);
    }
  }

  /** The failures recorded between two times. */
  ghost function Within(log: seq<Failure>, start: int, span: nat): set<int> {
    set k | 0 <= k < |log| && start <= log[k].time <= start + span
  }

  function Range(lo: int, n: nat): (r: set<int>)
    ensures |r| == n && forall k :: k in r <==> lo <= k < lo + n
  {
    if n == 0 then {} else Range(lo, n - 1) + {lo + n - 1}
  }

  lemma {:induction false} FirstOf(log: seq<Failure>, start: int, n: nat) returns (i: nat)
    requires n <= |log|
    ensures i <= n && (forall k :: 0 <= k < i ==> log[k].time < start) && (i < n ==> start <= log[i].time)
  {
    i := 0;
    while i < n && log[i].time < start
      invariant i <= n && forall k :: 0 <= k < i ==> log[k].time < start
    {
      i := i + 1;
    }
  }

  lemma SpanBound(log: seq<Failure>, cfg: Config, start: int, span: nat)
    requires LogInv(log, cfg)
    ensures |Within(log, start, span)| <= cfg.attempts * (span / LockMs(cfg) + 1)
  {
    var q := span / LockMs(cfg) + 1;
    var n := cfg.attempts * q;
    var i := FirstOf(log, start, |log|);
    assert span < q * LockMs(cfg);
    forall k | k in Within(log, start, span) ensures i <= k < i + n {
      if k >= i + n {
        assert i + q * cfg.attempts < |log|;
        LocksBetween(log, cfg, i, q);
        assert false;
      }
    }
    var r := Range(i, n);
    assert Within(log, start, span) <= r;
    SubsetSize(Within(log, start, span), r);
  }

  lemma {:induction false} SubsetSize(a: set<int>, b: set<int>)
    requires a <= b
    ensures |a| <= |b|
  {
    assert b == a + (b - a);
  }

  /**
   * However attempts at all addresses interleave: the evaluated failures of one address since its
   * last successful sign-in, in any span of time, number at most ATTEMPTS for each started lock length.
   */
  lemma FailuresAreRationed(cfg: Config, steps: seq<Step>, ip: Ip, start: int, span: nat)
    requires Run(EMPTY, cfg, steps)
    ensures |Within(Log(After(EMPTY, cfg, steps), ip), start, span)| <= cfg.attempts * (span / (cfg.minutes * 60000) + 1)
  {
    RunsKeep(cfg, steps, ip);
    LockMsIs(cfg);
    SpanBound(Log(After(EMPTY, cfg, steps), ip), cfg, start, span);
  }

  // ── The module's own state ──

  class Lockout {
    const cfg: Config
    var table: map<Ip, LockState>

    constructor (attempts: Option<int>, minutes: Option<int>)
      ensures table == map[] && cfg == Config(Setting(attempts, 3), Setting(minutes, 15))
    {
      cfg := Config(Setting(attempts, 3), Setting(minutes, 15));
      table := map[];
    }

    /** A missing address is never locked. Two clock readings; the second only for the remaining time. */
    method IsLoginLocked(ip: Option<Ip>, now: int, later: int) returns (locked: bool, secondsLeft: int)
      requires now <= later
      ensures locked <==> ip.Some? && ip.value != "" && ip.value in table && now <= table[ip.value].lockedUntil
      ensures locked ==> 1000 * (secondsLeft - 1) < table[ip.value].lockedUntil - later <= 1000 * secondsLeft
      ensures !locked ==> secondsLeft == 0
    {
      if ip == None || ip.value == "" { return false, 0; }
      if ip.value !in table || table[ip.value].lockedUntil < now { return false, 0; }
      var left := table[ip.value].lockedUntil - later;
      return true, if left % 1000 == 0 then left / 1000 else left / 1000 + 1;
    }

    method RecordLoginFailure(ip: Option<Ip>, now: int) returns (lockout: bool)
      modifies this`table
      ensures ip == None || ip.value == "" ==> !lockout && table == old(table)
      ensures ip.Some? && ip.value != "" ==>
                && table == old(table)[ip.value := AfterFailure(Lookup(old(table), ip.value), cfg, now)]
                && (lockout <==> Lookup(old(table), ip.value).fails + 1 >= cfg.attempts)
                && (lockout ==> table[ip.value] == LockState(0, now + cfg.minutes * 60000))
                && (!lockout ==> table[ip.value].lockedUntil == Lookup(old(table), ip.value).lockedUntil)
    {
      if ip == None || ip.value == "" { return false; }
      var st := if ip.value in table then table[ip.value] else LockState(0, 0);
      st := st.(fails := st.fails + 1);
      if st.fails >= cfg.attempts {
        st := LockState(0, now + cfg.minutes * 60 * 1000);
        table := table[ip.value := st];
        return true;
      }
      table := table[ip.value := st];
      return false;
    }

    method ClearLoginFailures(ip: Option<Ip>)
      modifies this`table
      ensures table == if ip.Some? && ip.value != "" then old(table) - {ip.value} else old(table)
    {
      if ip.Some? && ip.value != "" { table := table - {ip.value}; }
    }
  }
}
