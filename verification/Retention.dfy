/**
 * Retention as a garbage collector (server/src/services/retention.service.ts): an age rule, a
 * keep-the-last-N rule, the merge of several schedules' policies, and the daily sweep.
 *
 * `rows` is the backups table, newest first; rows of equal age stand in the order every query
 * returns them in. Times are in milliseconds, and one pass reads the clock once.
 */
module Retention {
  import opened Prelude

  type Id = nat
  type User = nat
  type Conn = nat

  datatype Status = PENDING | RUNNING | COMPLETED | FAILED

  /** `connection` is None once the connection has been deleted. */
  datatype Backup = Backup(id: Id, user: User, connection: Option<Conn>, createdAt: int, size: nat, status: Status)

  /** `days` at most 0 and `count` null or at most 0 each switch a rule off. */
  datatype Policy = Policy(days: int, count: Option<int>)

  const DAY: int := 24 * 60 * 60 * 1000

  ghost predicate Valid(rows: seq<Backup>) {
    && (forall i, j :: 0 <= i < j < |rows| ==> rows[i].createdAt >= rows[j].createdAt)
    && (forall i, j :: 0 <= i < j < |rows| ==> rows[i].id != rows[j].id)
  }

  lemma ValidTail(rows: seq<Backup>)
    requires Valid(rows) && rows != []
    ensures Valid(rows[1..])
    ensures forall b :: b in rows[1..] ==> b.createdAt <= rows[0].createdAt && b.id != rows[0].id
  {
    forall b | b in rows[1..] ensures b.createdAt <= rows[0].createdAt && b.id != rows[0].id {
      var k :| 0 <= k < |rows[1..]| && rows[1..][k] == b;
      assert rows[k + 1] == b;
    }
  }

  lemma ValidCons(first: Backup, rest: seq<Backup>)
    requires Valid(rest) && forall b :: b in rest ==> b.createdAt <= first.createdAt && b.id != first.id
    ensures Valid([first] + rest)
  {
  }

  lemma ValidPrefix(rows: seq<Backup>, k: nat)
    requires Valid(rows) && k <= |rows|
    ensures Valid(rows[..k])
  {
  }

  // ── One pass ──

  function CompletedOf(rows: seq<Backup>, c: Option<Conn>): (r: seq<Backup>)
    ensures |r| <= |rows|
    ensures forall b :: b in r <==> b in rows && b.connection == c && b.status == COMPLETED
  {
    if rows == [] then []
    else if rows[0].connection == c && rows[0].status == COMPLETED then [rows[0]] + CompletedOf(rows[1..], c)
    else CompletedOf(rows[1..], c)
  }

  /** Everything a pass over `c` has no business with. */
  function RestOf(rows: seq<Backup>, c: Option<Conn>): seq<Backup> {
    if rows == [] then []
    else if rows[0].connection == c && rows[0].status == COMPLETED then RestOf(rows[1..], c)
    else [rows[0]] + RestOf(rows[1..], c)
  }

  function AgedOut(list: seq<Backup>, now: int, days: int): set<Id> {
    if days > 0 then set b | b in list && b.createdAt < now - days * DAY :: b.id else {}
  }

  function Overflow(list: seq<Backup>, count: Option<int>): set<Id> {
    if count.Some? && count.value > 0 then set b | b in list[Min(count.value, |list|)..] :: b.id else {}
  }

  function Without(rows: seq<Backup>, ids: set<Id>): (r: seq<Backup>)
    ensures forall b :: b in r <==> b in rows && b.id !in ids
  {
    if rows == [] then []
    else if rows[0].id in ids then Without(rows[1..], ids)
    else [rows[0]] + Without(rows[1..], ids)
  }

  function Doomed(list: seq<Backup>, now: int, p: Policy): set<Id> {
    AgedOut(list, now, p.days) + Overflow(list, p.count)
  }

  /** What a pass leaves of one connection's COMPLETED backups. */
  function Pass(list: seq<Backup>, now: int, p: Policy): seq<Backup> {
    Without(list, Doomed(list, now, p))
  }

  /** What a pass over one connection leaves of the whole table. */
  function Enforced(rows: seq<Backup>, c: Option<Conn>, now: int, p: Policy): seq<Backup> {
    Without(rows, Doomed(CompletedOf(rows, c), now, p))
  }

  function Bytes(rows: seq<Backup>): nat {
    if rows == [] then 0 else rows[0].size + Bytes(rows[1..])
  }

  // ── Survivors are a newest-first prefix ──

  /** How many of the list are not older than the cutoff. */
  function Young(list: seq<Backup>, cutoff: int): (k: nat)
    ensures k <= |list|
  {
    if list == [] || list[0].createdAt < cutoff then 0 else 1 + Young(list[1..], cutoff)
  }

  function KeptByAge(list: seq<Backup>, now: int, days: int): (k: nat)
    ensures k <= |list|
  {
    if days > 0 then Young(list, now - days * DAY) else |list|
  }

  function KeptByCount(list: seq<Backup>, count: Option<int>): (k: nat)
    ensures k <= |list|
  {
    if count.Some? && count.value > 0 then Min(count.value, |list|) else |list|
  }

  function Kept(list: seq<Backup>, now: int, p: Policy): (k: nat)
    ensures k <= |list|
  {
    Min(KeptByAge(list, now, p.days), KeptByCount(list, p.count))
  }

  lemma {:induction false} YoungSplits(list: seq<Backup>, cutoff: int)
    requires Valid(list)
    ensures forall i :: 0 <= i < |list| ==> (i < Young(list, cutoff) <==> list[i].createdAt >= cutoff)
  {
    if list != [] && list[0].createdAt >= cutoff {
      YoungSplits(list[1..], cutoff);
      forall i | 0 <= i < |list| ensures i < Young(list, cutoff) <==> list[i].createdAt >= cutoff {
        if i > 0 { assert list[i] == list[1..][i - 1]; }
      }
    }
  }

  lemma {:induction false} WithoutPrefix(list: seq<Backup>, ids: set<Id>, k: nat)
    requires k <= |list|
    requires forall i :: 0 <= i < |list| ==> (list[i].id in ids <==> i >= k)
    ensures Without(list, ids) == list[..k]
  {
    if list != [] {
      forall i | 0 <= i < |list| - 1 ensures list[1..][i].id in ids <==> i >= k - 1 {
        assert list[1..][i] == list[i + 1];
      }
      if k > 0 {
        WithoutPrefix(list[1..], ids, k - 1);
        assert list[..k] == [list[0]] + list[1..][..k - 1];
      } else {
        WithoutPrefix(list[1..], ids, 0);
      }
    }
  }

  lemma DoomedAt(list: seq<Backup>, now: int, p: Policy, i: nat)
    requires Valid(list) && i < |list|
    ensures list[i].id in Doomed(list, now, p) <==> i >= Kept(list, now, p)
  {
    YoungSplits(list, now - p.days * DAY);
    var id := list[i].id;
    if p.days > 0 {
      if id in AgedOut(list, now, p.days) {
        var b :| b in list && b.createdAt < now - p.days * DAY && b.id == id;
        assert b == list[i];
      } else {
        assert list[i] in list;
      }
      assert id in AgedOut(list, now, p.days) <==> i >= KeptByAge(list, now, p.days);
    }
    if p.count.Some? && p.count.value > 0 {
      var k := Min(p.count.value, |list|);
      if id in Overflow(list, p.count) {
        var b :| b in list[k..] && b.id == id;
        var j :| 0 <= j < |list[k..]| && list[k..][j] == b;
        assert list[k + j] == b;
        assert i == k + j;
      } else if i >= k {
        assert false;
      }
      assert id in Overflow(list, p.count) <==> i >= KeptByCount(list, p.count);
    }
  }

  /** Whatever the two rules say, a pass keeps the newest backups and drops the rest. */
  lemma SurvivorsAreNewest(list: seq<Backup>, now: int, p: Policy)
    requires Valid(list)
    ensures Pass(list, now, p) == list[..Kept(list, now, p)]
    ensures forall b :: b in list ==> (b in Pass(list, now, p) <==>
              && (p.days > 0 ==> b.createdAt >= now - p.days * 86400000)
              && (p.count.Some? && p.count.value > 0 ==> b in list[..Min(p.count.value, |list|)]))
  {
    forall i | 0 <= i < |list| ensures list[i].id in Doomed(list, now, p) <==> i >= Kept(list, now, p) {
      DoomedAt(list, now, p, i);
    }
    WithoutPrefix(list, Doomed(list, now, p), Kept(list, now, p));
    YoungSplits(list, now - p.days * DAY);
    forall b | b in list
      ensures b in Pass(list, now, p) <==>
              && (p.days > 0 ==> b.createdAt >= now - p.days * 86400000)
              && (p.count.Some? && p.count.value > 0 ==> b in list[..Min(p.count.value, |list|)])
    {
      var i :| 0 <= i < |list| && list[i] == b;
      InPrefix(list, i, Kept(list, now, p));
      InPrefix(list, i, KeptByCount(list, p.count));
    }
  }

  lemma InPrefix(list: seq<Backup>, i: nat, k: nat)
    requires Valid(list) && i < |list| && k <= |list|
    ensures list[i] in list[..k] <==> i < k
  {
    if i < k { assert list[..k][i] == list[i]; }
    if list[i] in list[..k] {
      var j :| 0 <= j < k && list[..k][j] == list[i];
      assert list[j] == list[i];
    }
  }

  // ── Several policies, one after the other ──

  /** One pass after another on what is left, all at one clock reading. */
  function PassAll(list: seq<Backup>, now: int, ps: seq<Policy>): seq<Backup>
    decreases ps
  {
    if ps == [] then list else PassAll(Pass(list, now, ps[0]), now, ps[1..])
  }

  function KeptAll(list: seq<Backup>, now: int, ps: seq<Policy>): (k: nat)
    ensures k <= |list|
  {
    if ps == [] then |list| else Min(Kept(list, now, ps[0]), KeptAll(list, now, ps[1..]))
  }

  lemma {:induction false} YoungOfPrefix(list: seq<Backup>, n: nat, cutoff: int)
    requires n <= |list|
    ensures Young(list[..n], cutoff) == Min(n, Young(list, cutoff))
  {
    if n > 0 && list[0].createdAt >= cutoff {
      YoungOfPrefix(list[1..], n - 1, cutoff);
      assert list[..n][1..] == list[1..][..n - 1];
    }
  }

  lemma KeptOfPrefix(list: seq<Backup>, now: int, p: Policy, n: nat)
    requires n <= |list|
    ensures Kept(list[..n], now, p) == Min(n, Kept(list, now, p))
  {
    YoungOfPrefix(list, n, now - p.days * DAY);
  }

  lemma {:induction false} KeptAllOfPrefix(list: seq<Backup>, now: int, ps: seq<Policy>, n: nat)
    requires n <= |list|
    ensures KeptAll(list[..n], now, ps) == Min(n, KeptAll(list, now, ps))
  {
    if ps != [] {
      KeptOfPrefix(list, now, ps[0], n);
      KeptAllOfPrefix(list, now, ps[1..], n);
    }
  }

  lemma {:induction false} PassAllIsPrefix(list: seq<Backup>, now: int, ps: seq<Policy>)
    requires Valid(list)
    ensures PassAll(list, now, ps) == list[..KeptAll(list, now, ps)]
    decreases ps
  {
    if ps != [] {
      hide Valid, Pass, Kept;
      var k := Kept(list, now, ps[0]);
      SurvivorsAreNewest(list, now, ps[0]);
      ValidPrefix(list, k);
      PassAllIsPrefix(list[..k], now, ps[1..]);
      KeptAllOfPrefix(list, now, ps[1..], k);
      var m := Min(k, KeptAll(list, now, ps[1..]));
      assert list[..k][..m] == list[..m];
    } else {
      assert list[..|list|] == list;
    }
  }

  /** The smallest of all the prefixes: below each, and one of them. */
  lemma {:induction false} KeptAllIsLeast(list: seq<Backup>, now: int, ps: seq<Policy>)
    ensures forall p :: p in ps ==> KeptAll(list, now, ps) <= Kept(list, now, p)
    ensures KeptAll(list, now, ps) == |list| || exists p :: p in ps && KeptAll(list, now, ps) == Kept(list, now, p)
  {
    if ps != [] {
      KeptAllIsLeast(list, now, ps[1..]);
      assert ps[0] in ps;
      if KeptAll(list, now, ps) != |list| && KeptAll(list, now, ps) != Kept(list, now, ps[0]) {
        var p :| p in ps[1..] && KeptAll(list, now, ps[1..]) == Kept(list, now, p);
        assert p in ps;
      }
    }
  }

  /** The order in which policies are applied, and applying one twice, makes no difference. */
  lemma OrderIsIrrelevant(list: seq<Backup>, now: int, ps: seq<Policy>, qs: seq<Policy>)
    requires Valid(list)
    requires forall p :: p in ps <==> p in qs
    ensures PassAll(list, now, ps) == PassAll(list, now, qs)
  {
    PassAllIsPrefix(list, now, ps);
    PassAllIsPrefix(list, now, qs);
    KeptAllIsLeast(list, now, ps);
    KeptAllIsLeast(list, now, qs);
  }

  // ── The merged policy ──

  function PositiveDays(schedules: seq<Policy>): (r: seq<int>)
    ensures forall d :: d in r ==> d > 0
  {
    if schedules == [] then []
    else (if schedules[0].days > 0 then [schedules[0].days] else []) + PositiveDays(schedules[1..])
  }

  function PositiveCounts(schedules: seq<Policy>): (r: seq<int>)
    ensures forall n :: n in r ==> n > 0
  {
    if schedules == [] then []
    else (if schedules[0].count.Some? && schedules[0].count.value > 0 then [schedules[0].count.value] else [])
         + PositiveCounts(schedules[1..])
  }

  function Least(ns: seq<int>): (m: int)
    requires ns != []
    ensures m in ns && forall n :: n in ns ==> m <= n
  {
    if |ns| == 1 then ns[0]
    else
      assert forall n :: n in ns ==> n == ns[0] || n in ns[1..];
      Min(ns[0], Least(ns[1..]))
  }

  /** The strictest rule of each kind; a cap shortens a day rule but never switches one on. */
  function Merged(schedules: seq<Policy>, cap: Option<int>): Policy {
    var days := PositiveDays(schedules);
    var counts := PositiveCounts(schedules);
    var effective := if days != [] then Least(days) else 0;
    Policy(
      if cap.Some? && effective > 0 then Min(effective, cap.value) else effective,
      if counts != [] then Some(Least(counts)) else None)
  }

  /** DEFAULT_RETENTION_DAYS and DEFAULT_RETENTION_COUNT as parsed; None when not a number. */
  datatype EnvDefaults = EnvDefaults(days: Option<int>, count: Option<int>)

  function EnvPolicy(env: EnvDefaults): Policy {
    Policy(
      if env.days.Some? && env.days.value > 0 then env.days.value else 0,
      if env.count.Some? && env.count.value > 0 then env.count else None)
  }

  function GetPolicy(c: Option<Conn>, schedules: map<Conn, seq<Policy>>, cap: Option<int>, env: EnvDefaults): Policy {
    if c == None || c.value !in schedules || schedules[c.value] == [] then EnvPolicy(env)
    else Merged(schedules[c.value], cap)
  }

  /** The cap as a day rule of its own, present when some schedule has a day rule. */
  function CapRule(schedules: seq<Policy>, cap: Option<int>): seq<Policy> {
    if cap.Some? && PositiveDays(schedules) != [] then [Policy(cap.value, None)] else []
  }

  lemma {:induction false} YoungMonotone(list: seq<Backup>, earlier: int, later: int)
    requires earlier <= later
    ensures Young(list, later) <= Young(list, earlier)
  {
    if list != [] { YoungMonotone(list[1..], earlier, later); }
  }

  lemma KeptByAgeMonotone(list: seq<Backup>, now: int, d: int, e: int)
    requires 0 < d <= e
    ensures KeptByAge(list, now, d) <= KeptByAge(list, now, e)
  {
    YoungMonotone(list, now - e * DAY, now - d * DAY);
  }

  lemma KeptByAgeOfMin(list: seq<Backup>, now: int, d: int, e: int)
    requires 0 < d && 0 < e
    ensures KeptByAge(list, now, Min(d, e)) == Min(KeptByAge(list, now, d), KeptByAge(list, now, e))
  {
    if d <= e { KeptByAgeMonotone(list, now, d, e); } else { KeptByAgeMonotone(list, now, e, d); }
  }

  lemma MergedDays(list: seq<Backup>, now: int, schedules: seq<Policy>)
    requires schedules != []
    ensures KeptByAge(list, now, Merged(schedules, None).days)
         == Min(KeptByAge(list, now, schedules[0].days), KeptByAge(list, now, Merged(schedules[1..], None).days))
  {
    hide KeptByAge, KeptByCount, Young;
    var d, days := schedules[0].days, PositiveDays(schedules[1..]);
    AgeRuleOff(list, now);
    if d > 0 {
      assert PositiveDays(schedules) == [d] + days;
      assert ([d] + days)[1..] == days;
      if days != [] { KeptByAgeOfMin(list, now, d, Least(days)); }
    } else {
      assert PositiveDays(schedules) == days;
    }
  }

  lemma AgeRuleOff(list: seq<Backup>, now: int)
    ensures forall d :: d <= 0 ==> KeptByAge(list, now, d) == |list|
  {
  }

  lemma MergedCounts(list: seq<Backup>, schedules: seq<Policy>)
    requires schedules != []
    ensures KeptByCount(list, Merged(schedules, None).count)
         == Min(KeptByCount(list, schedules[0].count), KeptByCount(list, Merged(schedules[1..], None).count))
  {
    hide KeptByAge, Young;
    var count, counts := schedules[0].count, PositiveCounts(schedules[1..]);
    if count.Some? && count.value > 0 {
      assert PositiveCounts(schedules) == [count.value] + counts;
      assert ([count.value] + counts)[1..] == counts;
    } else {
      assert PositiveCounts(schedules) == counts;
    }
  }

  /** Without the cap, the merged policy keeps what all schedules together keep. */
  lemma {:induction false} MergeKeepsLeast(list: seq<Backup>, now: int, schedules: seq<Policy>)
    ensures Kept(list, now, Merged(schedules, None)) == KeptAll(list, now, schedules)
  {
    if schedules != [] {
      hide KeptByAge, KeptByCount, Merged;
      MergeKeepsLeast(list, now, schedules[1..]);
      MergedDays(list, now, schedules);
      MergedCounts(list, schedules);
    }
  }

  /** When the cap is usable: absent, positive, or with no day rule to act on. */
  predicate CapUsable(schedules: seq<Policy>, cap: Option<int>) {
    cap == None || cap.value > 0 || PositiveDays(schedules) == []
  }

  lemma CappedKeepsLeast(list: seq<Backup>, now: int, schedules: seq<Policy>, cap: Option<int>)
    requires CapUsable(schedules, cap)
    ensures Kept(list, now, Merged(schedules, cap)) == KeptAll(list, now, CapRule(schedules, cap) + schedules)
  {
    MergeKeepsLeast(list, now, schedules);
    var days := PositiveDays(schedules);
    if cap.Some? && days != [] {
      var rule := Policy(cap.value, None);
      assert ([rule] + schedules)[1..] == schedules;
      KeptByAgeOfMin(list, now, Least(days), cap.value);
      assert Merged(schedules, cap).count == Merged(schedules, None).count;
    } else {
      assert [] + schedules == schedules;
    }
  }

  /** With a cap of 0 or less the day rule is gone: one old backup survives that a schedule would delete. */
  lemma UnusableCapShows(now: int, schedules: seq<Policy>, cap: Option<int>) returns (list: seq<Backup>)
    requires !CapUsable(schedules, cap)
    ensures Valid(list)
    ensures Pass(list, now, Merged(schedules, cap)) != PassAll(list, now, CapRule(schedules, cap) + schedules)
  {
    var d := Least(PositiveDays(schedules));
    list := [Backup(0, 0, Some(0), now - d * DAY - 1, 1, COMPLETED)];
    SurvivorsAreNewest(list, now, Merged(schedules, cap));
    PassAllIsPrefix(list, now, CapRule(schedules, cap) + schedules);
    MergeKeepsLeast(list, now, schedules);
    assert Kept(list, now, Merged(schedules, None)) == 0;
    assert ([Policy(cap.value, None)] + schedules)[1..] == schedules;
    assert |Pass(list, now, Merged(schedules, cap))| == 1;
  }

  /**
   * One pass under the merged policy leaves exactly what each schedule's own policy and the cap,
   * applied in turn, leave - for every list, exactly when the cap is usable. By OrderIsIrrelevant
   * any order will do.
   */
  lemma MergedIsStrictestOfEach(now: int, schedules: seq<Policy>, cap: Option<int>)
    ensures CapUsable(schedules, cap) <==>
            forall list :: Valid(list) ==>
              Pass(list, now, Merged(schedules, cap)) == PassAll(list, now, CapRule(schedules, cap) + schedules)
  {
    if CapUsable(schedules, cap) {
      forall list | Valid(list)
        ensures Pass(list, now, Merged(schedules, cap)) == PassAll(list, now, CapRule(schedules, cap) + schedules)
      {
        SurvivorsAreNewest(list, now, Merged(schedules, cap));
        PassAllIsPrefix(list, now, CapRule(schedules, cap) + schedules);
        CappedKeepsLeast(list, now, schedules, cap);
      }
    } else {
      var list := UnusableCapShows(now, schedules, cap);
    }
  }

  // ── One connection's pass inside the table ──

  lemma {:induction false} CompletedOfWithout(rows: seq<Backup>, c: Option<Conn>, ids: set<Id>)
    ensures CompletedOf(Without(rows, ids), c) == Without(CompletedOf(rows, c), ids)
    ensures RestOf(Without(rows, ids), c) == Without(RestOf(rows, c), ids)
  {
    if rows != [] {
      var first, rest := rows[0], rows[1..];
      CompletedOfWithout(rest, c, ids);
      if first.id !in ids {
        assert ([first] + Without(rest, ids))[1..] == Without(rest, ids);
      }
      if first.connection == c && first.status == COMPLETED {
        assert ([first] + CompletedOf(rest, c))[1..] == CompletedOf(rest, c);
      } else {
        assert ([first] + RestOf(rest, c))[1..] == RestOf(rest, c);
      }
    }
  }

  lemma {:induction false} RestOfHas(rows: seq<Backup>, c: Option<Conn>)
    ensures forall b :: b in RestOf(rows, c) <==> b in rows && !(b.connection == c && b.status == COMPLETED)
  {
    if rows != [] { RestOfHas(rows[1..], c); }
  }

  lemma {:induction false} WithoutNone(list: seq<Backup>, ids: set<Id>)
    requires forall b :: b in list ==> b.id !in ids
    ensures Without(list, ids) == list
  {
    if list != [] { WithoutNone(list[1..], ids); }
  }

  lemma {:induction false} CompletedOfRest(rows: seq<Backup>, c: Option<Conn>, d: Option<Conn>)
    requires c != d
    ensures CompletedOf(RestOf(rows, c), d) == CompletedOf(rows, d)
  {
    if rows != [] {
      CompletedOfRest(rows[1..], c, d);
      assert ([rows[0]] + RestOf(rows[1..], c))[1..] == RestOf(rows[1..], c);
    }
  }

  lemma DoomedAreRows(list: seq<Backup>, now: int, p: Policy)
    ensures forall id :: id in Doomed(list, now, p) ==> exists b :: b in list && b.id == id
  {
    forall id | id in Doomed(list, now, p) ensures exists b :: b in list && b.id == id {
      if id in AgedOut(list, now, p.days) {
        var b :| b in list && b.createdAt < now - p.days * DAY && b.id == id;
      } else {
        var b :| b in list[Min(p.count.value, |list|)..] && b.id == id;
      }
    }
  }

  lemma SameIdSameRow(rows: seq<Backup>, b: Backup, d: Backup)
    requires Valid(rows) && b in rows && d in rows && b.id == d.id
    ensures b == d
  {
    var i :| 0 <= i < |rows| && rows[i] == b;
    var j :| 0 <= j < |rows| && rows[j] == d;
  }

  lemma RestNotDoomed(rows: seq<Backup>, c: Option<Conn>, now: int, p: Policy)
    requires Valid(rows)
    ensures forall b :: b in RestOf(rows, c) ==> b.id !in Doomed(CompletedOf(rows, c), now, p)
  {
    RestOfHas(rows, c);
    DoomedAreRows(CompletedOf(rows, c), now, p);
    forall b | b in RestOf(rows, c) ensures b.id !in Doomed(CompletedOf(rows, c), now, p) {
      if b.id in Doomed(CompletedOf(rows, c), now, p) {
        var d :| d in CompletedOf(rows, c) && d.id == b.id;
        SameIdSameRow(rows, b, d);
      }
    }
  }

  /** The pass touches one connection's COMPLETED rows and nothing else of the table. */
  lemma EnforcedTouchesOneConnection(rows: seq<Backup>, c: Option<Conn>, now: int, p: Policy)
    requires Valid(rows)
    ensures CompletedOf(Enforced(rows, c, now, p), c) == Pass(CompletedOf(rows, c), now, p)
    ensures RestOf(Enforced(rows, c, now, p), c) == RestOf(rows, c)
    ensures forall d :: d != c ==> CompletedOf(Enforced(rows, c, now, p), d) == CompletedOf(rows, d)
  {
    var ids := Doomed(CompletedOf(rows, c), now, p);
    CompletedOfWithout(rows, c, ids);
    RestNotDoomed(rows, c, now, p);
    WithoutNone(RestOf(rows, c), ids);
    forall d | d != c ensures CompletedOf(Without(rows, ids), d) == CompletedOf(rows, d) {
      CompletedOfRest(rows, c, d);
      CompletedOfRest(Without(rows, ids), c, d);
    }
  }

  lemma {:induction false} WithoutKeepsValid(rows: seq<Backup>, ids: set<Id>)
    requires Valid(rows)
    ensures Valid(Without(rows, ids))
  {
    if rows != [] {
      ValidTail(rows);
      WithoutKeepsValid(rows[1..], ids);
      hide Valid;
      if rows[0].id !in ids { ValidCons(rows[0], Without(rows[1..], ids)); }
    }
  }

  lemma {:induction false} CompletedOfValid(rows: seq<Backup>, c: Option<Conn>)
    requires Valid(rows)
    ensures Valid(CompletedOf(rows, c))
  {
    if rows != [] {
      ValidTail(rows);
      CompletedOfValid(rows[1..], c);
      hide Valid;
      if rows[0].connection == c && rows[0].status == COMPLETED { ValidCons(rows[0], CompletedOf(rows[1..], c)); }
    }
  }

  // ── Bytes ──

  function Only(rows: seq<Backup>, ids: set<Id>): (r: seq<Backup>)
    ensures forall b :: b in r <==> b in rows && b.id in ids
  {
    if rows == [] then []
    else if rows[0].id in ids then [rows[0]] + Only(rows[1..], ids)
    else Only(rows[1..], ids)
  }

  lemma {:induction false} BytesSplit(rows: seq<Backup>, ids: set<Id>)
    ensures Bytes(rows) == Bytes(Without(rows, ids)) + Bytes(Only(rows, ids))
    ensures |rows| == |Without(rows, ids)| + |Only(rows, ids)|
  {
    if rows != [] {
      BytesSplit(rows[1..], ids);
      assert ([rows[0]] + Only(rows[1..], ids))[1..] == Only(rows[1..], ids);
      assert ([rows[0]] + Without(rows[1..], ids))[1..] == Without(rows[1..], ids);
    }
  }

  lemma {:induction false} BytesParts(rows: seq<Backup>, c: Option<Conn>)
    ensures Bytes(rows) == Bytes(CompletedOf(rows, c)) + Bytes(RestOf(rows, c))
    ensures |rows| == |CompletedOf(rows, c)| + |RestOf(rows, c)|
  {
    if rows != [] {
      BytesParts(rows[1..], c);
      assert ([rows[0]] + RestOf(rows[1..], c))[1..] == RestOf(rows[1..], c);
      assert ([rows[0]] + CompletedOf(rows[1..], c))[1..] == CompletedOf(rows[1..], c);
    }
  }

  lemma {:induction false} BytesTake(rows: seq<Backup>, i: nat)
    requires i < |rows|
    ensures Bytes(rows[..i + 1]) == Bytes(rows[..i]) + rows[i].size
  {
    if i > 0 {
      BytesTake(rows[1..], i - 1);
      assert rows[..i + 1][1..] == rows[1..][..i] && rows[..i][1..] == rows[1..][..i - 1];
    } else {
      assert rows[..1][1..] == [];
    }
  }

  /** Every doomed id is one row's, so the set is as large as the rows it selects. */
  lemma {:induction false} OnlySize(rows: seq<Backup>, ids: set<Id>)
    requires Valid(rows)
    requires forall id :: id in ids ==> exists b :: b in rows && b.id == id
    ensures |Only(rows, ids)| == |ids|
    decreases rows
  {
    if rows == [] {
      assert ids == {};
    } else {
      var b := rows[0];
      ValidTail(rows);
      hide Valid;
      var rest := ids - {b.id};
      forall id | id in rest ensures exists d :: d in rows[1..] && d.id == id {
        var d :| d in rows && d.id == id;
        assert d in rows[1..];
      }
      OnlySize(rows[1..], rest);
      OnlySameFor(rows[1..], ids, rest);
      if b.id in ids { assert ids == rest + {b.id}; } else { assert ids == rest; }
    }
  }

  lemma {:induction false} OnlySameFor(rows: seq<Backup>, ids: set<Id>, some: set<Id>)
    requires forall b :: b in rows ==> (b.id in ids <==> b.id in some)
    ensures Only(rows, ids) == Only(rows, some)
  {
    if rows != [] { OnlySameFor(rows[1..], ids, some); }
  }

  /** What goes is accounted for: bytes and rows lost are those the pass reports. */
  lemma PassAccounts(rows: seq<Backup>, c: Option<Conn>, now: int, p: Policy)
    requires Valid(rows)
    ensures var ids := Doomed(CompletedOf(rows, c), now, p);
            && Bytes(Only(rows, ids)) == Bytes(CompletedOf(rows, c)) - Bytes(CompletedOf(Enforced(rows, c, now, p), c))
            && |ids| == |CompletedOf(rows, c)| - |CompletedOf(Enforced(rows, c, now, p), c)|
  {
    var ids := Doomed(CompletedOf(rows, c), now, p);
    EnforcedTouchesOneConnection(rows, c, now, p);
    BytesSplit(rows, ids);
    BytesParts(rows, c);
    BytesParts(Without(rows, ids), c);
    DoomedAreRows(CompletedOf(rows, c), now, p);
    OnlySize(rows, ids);
  }

  // ── The service ──

  /** A connection with COMPLETED backups, and the owner of the first of them. */
  datatype Group = Group(connection: Option<Conn>, owner: User)

  ghost predicate Covered(groups: seq<Group>, c: Option<Conn>) {
    exists i :: 0 <= i < |groups| && groups[i].connection == c
  }

  predicate Selected(b: Backup, user: Option<User>) {
    b.status == COMPLETED && (user == None || user.value == b.user)
  }

  ghost predicate HasSelected(rows: seq<Backup>, user: Option<User>, c: Option<Conn>) {
    exists b :: b in rows && Selected(b, user) && b.connection == c
  }

  /** The connections of the selected backups, each once. */
  function Groups(rows: seq<Backup>, user: Option<User>): (r: seq<Group>)
    ensures forall i, j :: 0 <= i < j < |r| ==> r[i].connection != r[j].connection
    ensures forall i :: 0 <= i < |r| ==>
              exists b :: b in rows && Selected(b, user) && r[i] == Group(b.connection, b.user)
    ensures forall b :: b in rows && Selected(b, user) ==> Covered(r, b.connection)
  {
    if rows == [] then [] else
      var last := rows[|rows| - 1];
      var g := Groups(rows[..|rows| - 1], user);
      assert rows == rows[..|rows| - 1] + [last];
      if Selected(last, user) && (forall i :: 0 <= i < |g| ==> g[i].connection != last.connection) then
        var r := g + [Group(last.connection, last.user)];
        assert r[|g|] == Group(last.connection, last.user);
        assert forall c :: Covered(g, c) ==> Covered(r, c) by {
          forall c | Covered(g, c) ensures Covered(r, c) {
            var i :| 0 <= i < |g| && g[i].connection == c;
            assert r[i].connection == c;
          }
        }
        r
      else g
  }

  /** One outcome of a pass over a connection. */
  datatype PassResult = PassResult(connection: Option<Conn>, deleted: nat, freedBytes: nat)

  function Freed(results: seq<PassResult>): nat {
    if results == [] then 0 else Freed(results[..|results| - 1]) + results[|results| - 1].freedBytes
  }

  function OlderThan(list: seq<Backup>, cutoff: int): (r: seq<Backup>)
    ensures forall b :: b in r <==> b in list && b.createdAt < cutoff
  {
    if list == [] then []
    else (if list[0].createdAt < cutoff then [list[0]] else []) + OlderThan(list[1..], cutoff)
  }

  lemma OffPolicyKeepsAll(list: seq<Backup>, now: int, p: Policy)
    requires Valid(list) && p.days <= 0 && (p.count == None || p.count.value <= 0)
    ensures Pass(list, now, p) == list
  {
    SurvivorsAreNewest(list, now, p);
  }

  lemma {:induction false} NoneSelected(rows: seq<Backup>)
    ensures Only(rows, {}) == [] && Bytes(Only(rows, {})) == 0 && Without(rows, {}) == rows
  {
    if rows != [] { NoneSelected(rows[1..]); }
  }

  lemma EnforcedIs(rows: seq<Backup>, c: Option<Conn>, now: int, p: Policy)
    ensures Enforced(rows, c, now, p) == Without(rows, Doomed(CompletedOf(rows, c), now, p))
  {
  }

  /** What the sweep makes of one connection: a pass, unless its statements fail. */
  function Swept(list: seq<Backup>, g: Group, w: SweepInputs): seq<Backup> {
    if g.connection in w.failing then list else Pass(list, w.clock(g.connection), PolicyFor(g, w))
  }

  /** The database and clock the sweep reads; `failing` are the connections whose statements throw. */
  datatype SweepInputs = SweepInputs(
    schedules: map<Conn, seq<Policy>>, caps: map<User, int>, env: EnvDefaults,
    clock: Option<Conn> -> int, failing: set<Option<Conn>>)

  function PolicyFor(g: Group, w: SweepInputs): Policy {
    GetPolicy(g.connection, w.schedules, if g.owner in w.caps then Some(w.caps[g.owner]) else None, w.env)
  }

  lemma SweptCases(list: seq<Backup>, g: Group, w: SweepInputs)
    ensures g.connection in w.failing ==> Swept(list, g, w) == list
    ensures g.connection !in w.failing ==> Swept(list, g, w) == Pass(list, w.clock(g.connection), PolicyFor(g, w))
  {
  }

  /** What the day rule and the count rule, as configured, let one backup of a list be. */
  predicate KeptBy(list: seq<Backup>, b: Backup, days: Option<int>, count: Option<int>, now: int) {
    && (days.Some? && days.value > 0 ==> b.createdAt >= now - days.value * 86400000)
    && (count.Some? && count.value > 0 ==> b in list[..Min(count.value, |list|)])
  }

  /**
   * The sweep on one connection that does not fail: with schedules (and a usable cap), what all of
   * them and the cap in turn leave; without any, what the two default settings leave.
   */
  lemma SweepMeetsEverySchedule(list: seq<Backup>, g: Group, w: SweepInputs)
    requires Valid(list) && g.connection !in w.failing
    ensures var now := w.clock(g.connection);
            var cap := if g.owner in w.caps then Some(w.caps[g.owner]) else None;
            if g.connection.Some? && g.connection.value in w.schedules && w.schedules[g.connection.value] != [] then
              var schedules := w.schedules[g.connection.value];
              CapUsable(schedules, cap) ==> Swept(list, g, w) == PassAll(list, now, CapRule(schedules, cap) + schedules)
            else
              forall b :: b in list ==> (b in Swept(list, g, w) <==> KeptBy(list, b, w.env.days, w.env.count, now))
  {
    var now := w.clock(g.connection);
    SurvivorsAreNewest(list, now, PolicyFor(g, w));
    if g.connection.Some? && g.connection.value in w.schedules && w.schedules[g.connection.value] != [] {
      var cap := if g.owner in w.caps then Some(w.caps[g.owner]) else None;
      MergedIsStrictestOfEach(now, w.schedules[g.connection.value], cap);
    }
    hide Pass, Merged;
  }

  lemma GroupFacts(rows: seq<Backup>, user: Option<User>)
    ensures var r := Groups(rows, user);
            && (forall i, j :: 0 <= i < j < |r| ==> r[i].connection != r[j].connection)
            && forall c :: !HasSelected(rows, user, c) ==> forall k :: 0 <= k < |r| ==> r[k].connection != c
  {
  }

  /** The owner under whose cap a connection's backups are swept: one of those it has a backup of. */
  ghost predicate SweptFor(before: seq<Backup>, after: seq<Backup>, user: Option<User>, c: Option<Conn>, w: SweepInputs) {
    exists o :: o in before && o.status == COMPLETED && o.connection == c && (user.Some? ==> o.user == user.value)
      && CompletedOf(after, c) == Swept(CompletedOf(before, c), Group(c, o.user), w)
  }

  /** A completed backup in scope has its connection among the groups, under an owner in scope. */
  lemma GroupOf(rows: seq<Backup>, user: Option<User>, b: Backup)
    requires b in rows && b.status == COMPLETED && (user.Some? ==> b.user == user.value)
    ensures exists g, o :: g in Groups(rows, user) && o in rows && o.status == COMPLETED
              && (user.Some? ==> o.user == user.value) && o.connection == b.connection && g == Group(b.connection, o.user)
  {
    var r := Groups(rows, user);
    assert Selected(b, user);
    var i :| 0 <= i < |r| && r[i].connection == b.connection;
    var o :| o in rows && Selected(o, user) && r[i] == Group(o.connection, o.user);
    assert r[i] in r;
  }

  /** A connection all of whose completed backups are other users' is outside the groups. */
  lemma OthersAreNotSelected(rows: seq<Backup>, user: User, c: Option<Conn>)
    requires forall b :: b in rows && b.status == COMPLETED && b.connection == c ==> b.user != user
    ensures !HasSelected(rows, Some(user), c)
  {
  }

  /** Passing over every group, and only those, covers every backup in scope and nobody else's. */
  lemma SweepCovers(before: seq<Backup>, after: seq<Backup>, user: Option<User>, w: SweepInputs)
    requires forall g :: g in Groups(before, user) ==>
               CompletedOf(after, g.connection) == Swept(CompletedOf(before, g.connection), g, w)
    requires forall c :: !HasSelected(before, user, c) ==> CompletedOf(after, c) == CompletedOf(before, c)
    ensures forall b :: b in before && b.status == COMPLETED && (user.Some? ==> b.user == user.value) ==>
              SweptFor(before, after, user, b.connection, w)
    ensures user.Some? ==> forall c ::
              (forall b :: b in before && b.status == COMPLETED && b.connection == c ==> b.user != user.value) ==>
              CompletedOf(after, c) == CompletedOf(before, c)
  {
    hide Groups, CompletedOf, Swept, HasSelected, Selected;
    forall b | b in before && b.status == COMPLETED && (user.Some? ==> b.user == user.value)
      ensures SweptFor(before, after, user, b.connection, w)
    {
      GroupOf(before, user, b);
    }
    if user.Some? {
      forall c | (forall b :: b in before && b.status == COMPLETED && b.connection == c ==> b.user != user.value)
        ensures CompletedOf(after, c) == CompletedOf(before, c)
      {
        OthersAreNotSelected(before, user.value, c);
      }
    }
  }

  lemma FreedNone()
    ensures Freed([]) == 0
  {
  }

  lemma FreedOneMore(results: seq<PassResult>, result: PassResult)
    ensures Freed(results + [result]) == Freed(results) + result.freedBytes
  {
    assert (results + [result])[..|results|] == results;
  }

  class RetentionService {
    var rows: seq<Backup>

    static method WithIds(toDelete: set<Id>, records: seq<Backup>) returns (ids: set<Id>)
      ensures ids == toDelete + set b | b in records :: b.id
    {
      ids := toDelete;
      for i := 0 to |records|
        invariant ids == toDelete + set b | b in records[..i] :: b.id
      {
        ids := ids + {records[i].id};
        assert records[..i + 1] == records[..i] + [records[i]];
      }
      assert records[..|records|] == records;
    }

    /** The two rules fill one set of ids. */
    static method Select(list: seq<Backup>, retentionDays: int, retentionCount: Option<int>, now: int) returns (toDelete: set<Id>)
      ensures toDelete == Doomed(list, now, Policy(retentionDays, retentionCount))
    {
      toDelete := {};
      if retentionDays > 0 {
        toDelete := WithIds(toDelete, OlderThan(list, now - retentionDays * DAY));
      }
      if retentionCount.Some? && retentionCount.value > 0 {
        toDelete := WithIds(toDelete, list[Min(retentionCount.value, |list|)..]);
      }
    }

    /** enforceRetentionForConnection. */
    method EnforceForConnection(c: Option<Conn>, retentionDays: int, retentionCount: Option<int>, now: int)
      returns (result: PassResult)
      requires Valid(rows)
      modifies this
      ensures Valid(rows)
      ensures rows == Enforced(old(rows), c, now, Policy(retentionDays, retentionCount))
      ensures CompletedOf(rows, c) == Pass(CompletedOf(old(rows), c), now, Policy(retentionDays, retentionCount))
      ensures RestOf(rows, c) == RestOf(old(rows), c)
      ensures forall d :: d != c ==> CompletedOf(rows, d) == CompletedOf(old(rows), d)
      ensures result.connection == c
      ensures result.deleted == |CompletedOf(old(rows), c)| - |CompletedOf(rows, c)|
      ensures result.freedBytes == Bytes(CompletedOf(old(rows), c)) - Bytes(CompletedOf(rows, c))
    {
      hide *;
      ghost var p := Policy(retentionDays, retentionCount);
      var toDelete := Select(CompletedOf(rows, c), retentionDays, retentionCount, now);
      PassAccounts(rows, c, now, p);
      EnforcedTouchesOneConnection(rows, c, now, p);
      WithoutKeepsValid(rows, toDelete);
      EnforcedIs(rows, c, now, p);
      if |toDelete| == 0 {
        NoneSelected(rows);
        return PassResult(c, 0, 0);
      }
      var freed := SumSizes(Only(rows, toDelete));
      rows := Without(rows, toDelete);
      return PassResult(c, |toDelete|, freed);
    }

    static method SumSizes(records: seq<Backup>) returns (freed: nat)
      ensures freed == Bytes(records)
    {
      freed := 0;
      for i := 0 to |records|
        invariant freed == Bytes(records[..i])
      {
        BytesTake(records, i);
        freed := freed + records[i].size;
      }
      assert records[..|records|] == records;
    }

    /**
     * runGlobalRetentionSweep: every connection with a completed backup in scope ends as its pass, a
     * failing one keeps everything, a user's own sweep leaves connections that hold only other
     * users' backups alone, all other rows are untouched, and the bytes that are gone are those the
     * results add up to.
     */
    method RunGlobalSweep(user: Option<User>, w: SweepInputs) returns (results: seq<PassResult>)
      requires Valid(rows)
      modifies this
      ensures Valid(rows)
      ensures forall b :: b in old(rows) && b.status == COMPLETED && (user.Some? ==> b.user == user.value) ==>
                SweptFor(old(rows), rows, user, b.connection, w)
      ensures user.Some? ==> forall c ::
                (forall b :: b in old(rows) && b.status == COMPLETED && b.connection == c ==> b.user != user.value) ==>
                CompletedOf(rows, c) == CompletedOf(old(rows), c)
      ensures forall b: Backup :: b.status != COMPLETED ==> (b in rows <==> b in old(rows))
      ensures Bytes(old(rows)) == Bytes(rows) + Freed(results)
    {
      hide *;
      var groups := Groups(rows, user);
      GroupFacts(rows, user);
      results := [];
      FreedNone();
      for i := 0 to |groups|
        invariant Valid(rows)
        invariant forall k :: 0 <= k < i ==>
                    CompletedOf(rows, groups[k].connection) == Swept(CompletedOf(old(rows), groups[k].connection), groups[k], w)
        invariant forall c :: (forall k :: 0 <= k < i ==> groups[k].connection != c) ==>
                    CompletedOf(rows, c) == CompletedOf(old(rows), c)
        invariant forall b: Backup :: b.status != COMPLETED ==> (b in rows <==> b in old(rows))
        invariant Bytes(old(rows)) == Bytes(rows) + Freed(results)
      {
        var g := groups[i];
        var policy := PolicyFor(g, w);
        ghost var was := rows;
        SweptCases(CompletedOf(rows, g.connection), g, w);
        CompletedOfValid(rows, g.connection);
        if policy.days <= 0 && (policy.count == None || policy.count.value == 0) {
          OffPolicyKeepsAll(CompletedOf(rows, g.connection), w.clock(g.connection), policy);
        } else if g.connection !in w.failing {
          var result := EnforceForConnection(g.connection, policy.days, policy.count, w.clock(g.connection));
          RestOfHas(was, g.connection);
          RestOfHas(rows, g.connection);
          BytesParts(was, g.connection);
          BytesParts(rows, g.connection);
          FreedOneMore(results, result);
          results := results + [result];
        }
      }
      SweepCovers(old(rows), rows, user, w);
    }
  }
}
