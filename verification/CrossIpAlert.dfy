/**
 * The per-account alert on failures from several addresses (`recordAccountFailure` in
 * server/src/services/login-lockout.service.ts), over any stream of failures for one account.
 */
module CrossIpAlert {
  import opened Prelude

  type Ip = string

  const WINDOW: int := 15 * 60 * 1000

  datatype Acct = Acct(windowStart: int, count: int, ips: set<Ip>, lastAlertAt: int)

  /** A failed password for the account; the address may be unknown. */
  datatype Event = Event(now: int, ip: Option<Ip>)

  /** Math.max(2, parseInt(...) || 10); None is not a number. */
  function Threshold(parsed: Option<int>): (t: int)
    ensures t >= 2
    ensures parsed.Some? && parsed.value >= 2 ==> t == parsed.value
    ensures parsed == None || parsed.value == 0 ==> t == 10
    ensures parsed.Some? && parsed.value != 0 && parsed.value < 2 ==> t == 2
  {
    if parsed == None || parsed.value == 0 then 10 else if parsed.value < 2 then 2 else parsed.value
  }

  predicate Known(ip: Option<Ip>) {
    ip.Some? && ip.value != ""
  }

  /** The account's state with this failure counted, after a reset if the window is over. */
  function Counted(s: Option<Acct>, e: Event): Acct {
    var a := if s == None || e.now - s.value.windowStart > WINDOW then Acct(e.now, 0, {}, 0) else s.value;
    a.(count := a.count + 1, ips := if Known(e.ip) then a.ips + {e.ip.value} else a.ips)
  }

  predicate Trips(a: Acct, threshold: int, now: int) {
    a.count >= threshold && |a.ips| >= 2 && now - a.lastAlertAt > WINDOW
  }

  function Record(s: Option<Acct>, threshold: int, e: Event): (Acct, bool) {
    var a := Counted(s, e);
    if Trips(a, threshold, e.now) then (Acct(e.now, 0, {}, e.now), true) else (a, false)
  }

  // ── A whole stream ──

  /** The state after a stream of failures, and the positions of those that raised an alert. */
  function Watch(events: seq<Event>, threshold: int): (Option<Acct>, seq<nat>) {
    if events == [] then (None, []) else
      var n := |events| - 1;
      var (s, alerts) := Watch(events[..n], threshold);
      var (a, alert) := Record(s, threshold, events[n]);
      (Some(a), if alert then alerts + [n] else alerts)
  }

  /** A clock that never goes back. */
  ghost predicate Ordered(events: seq<Event>) {
    forall i, j :: 0 <= i < j < |events| ==> events[i].now <= events[j].now
  }

  ghost function IpsOf(events: seq<Event>): set<Ip> {
    set e | e in events && Known(e.ip) :: e.ip.value
  }

  /** What stands behind an alert at position `at`: a stretch of failures that ends there. */
  ghost predicate Backed(events: seq<Event>, threshold: int, lo: nat, at: nat) {
    && lo <= at < |events|
    && at + 1 - lo >= threshold
    && |IpsOf(events[lo..at + 1])| >= 2
    && events[at].now - events[lo].now <= WINDOW
  }

  /** The k-th alert is backed by failures after the one before, and more than a window later than it. */
  ghost predicate AlertOk(events: seq<Event>, threshold: int, alerts: seq<nat>, k: nat)
    requires k < |alerts|
  {
    && (exists lo :: Backed(events, threshold, lo, alerts[k]) && (k > 0 ==> alerts[k - 1] < lo))
    && (k > 0 ==> alerts[k - 1] < alerts[k] < |events| && events[alerts[k]].now - events[alerts[k - 1]].now > WINDOW)
  }

  ghost predicate AlertsInv(events: seq<Event>, threshold: int, alerts: seq<nat>) {
    forall k :: 0 <= k < |alerts| ==> AlertOk(events, threshold, alerts, k)
  }

  /** The state describes the failures of the current window, all after the last alert. */
  ghost predicate WindowInv(events: seq<Event>, s: Option<Acct>, alerts: seq<nat>) {
    match s
    case None => events == [] && alerts == []
    case Some(a) =>
      && 0 <= a.count <= |events|
      && a.ips == IpsOf(events[|events| - a.count..])
      && (forall i :: |events| - a.count <= i < |events| ==> a.windowStart <= events[i].now <= a.windowStart + WINDOW)
      && events != [] && a.windowStart <= events[|events| - 1].now
      && (alerts != [] ==>
            var last := alerts[|alerts| - 1];
            && last < |events| - a.count
            && events[last].now <= a.windowStart
            && (a.lastAlertAt == events[last].now || events[last].now + WINDOW < a.windowStart))
  }

  lemma IpsOfOneMore(events: seq<Event>, e: Event)
    ensures IpsOf(events + [e]) == if Known(e.ip) then IpsOf(events) + {e.ip.value} else IpsOf(events)
  {
  }

  lemma CountedKeeps(events: seq<Event>, e: Event, s: Option<Acct>, alerts: seq<nat>)
    requires Ordered(events + [e]) && WindowInv(events, s, alerts)
    ensures WindowInv(events + [e], Some(Counted(s, e)), alerts)
  {
    if s == None || e.now - s.value.windowStart > WINDOW {
      WindowOpens(events, e, s, alerts);
    } else {
      WindowGrows(events, e, s.value, alerts);
    }
  }

  lemma WindowOpens(events: seq<Event>, e: Event, s: Option<Acct>, alerts: seq<nat>)
    requires Ordered(events + [e]) && WindowInv(events, s, alerts)
    requires s == None || e.now - s.value.windowStart > WINDOW
    ensures WindowInv(events + [e], Some(Counted(s, e)), alerts)
  {
    hide Ordered, IpsOf;
    IpsOfOneMore([], e);
    IpsOfNone();
    assert (events + [e])[|events|..] == [] + [e];
  }

  lemma WindowGrows(events: seq<Event>, e: Event, a: Acct, alerts: seq<nat>)
    requires Ordered(events + [e]) && WindowInv(events, Some(a), alerts)
    requires e.now - a.windowStart <= WINDOW
    ensures WindowInv(events + [e], Some(Counted(Some(a), e)), alerts)
  {
    LastIsLatest(events, e);
    hide Ordered, IpsOf;
    var w := events[|events| - a.count..];
    IpsOfOneMore(w, e);
    assert (events + [e])[|events| - a.count..] == w + [e];
  }

  lemma LastIsLatest(events: seq<Event>, e: Event)
    requires Ordered(events + [e])
    ensures events != [] ==> events[|events| - 1].now <= e.now
  {
    if events != [] {
      var all := events + [e];
      assert all[|events| - 1].now <= all[|events|].now;
    }
  }

  lemma IpsOfNone()
    ensures IpsOf([]) == {}
  {
  }

  /** An alert now: far from the last one, and backed by the window's failures. */
  lemma TripIsBacked(events: seq<Event>, threshold: int, a: Acct, alerts: seq<nat>)
    requires events != [] && threshold >= 2 && Ordered(events) && WindowInv(events, Some(a), alerts)
    requires Trips(a, threshold, events[|events| - 1].now)
    ensures Backed(events, threshold, |events| - a.count, |events| - 1)
    ensures alerts != [] ==>
              && alerts[|alerts| - 1] < |events| - a.count
              && events[|events| - 1].now - events[alerts[|alerts| - 1]].now > WINDOW
  {
    assert events[|events| - a.count..|events|] == events[|events| - a.count..];
  }

  lemma BackedEarlier(events: seq<Event>, e: Event, threshold: int, lo: nat, at: nat)
    requires Backed(events, threshold, lo, at)
    ensures Backed(events + [e], threshold, lo, at)
  {
    assert (events + [e])[lo..at + 1] == events[lo..at + 1];
  }

  lemma AlertsKept(events: seq<Event>, e: Event, threshold: int, alerts: seq<nat>)
    requires AlertsInv(events, threshold, alerts)
    ensures AlertsInv(events + [e], threshold, alerts)
  {
    forall k | 0 <= k < |alerts| ensures AlertOk(events + [e], threshold, alerts, k) {
      assert AlertOk(events, threshold, alerts, k);
      var lo :| Backed(events, threshold, lo, alerts[k]) && (k > 0 ==> alerts[k - 1] < lo);
      BackedEarlier(events, e, threshold, lo, alerts[k]);
      hide Backed;
    }
  }

  lemma AlertAdded(events: seq<Event>, threshold: int, alerts: seq<nat>, lo: nat)
    requires AlertsInv(events, threshold, alerts) && events != []
    requires Backed(events, threshold, lo, |events| - 1)
    requires alerts != [] ==>
               && alerts[|alerts| - 1] < lo
               && events[|events| - 1].now - events[alerts[|alerts| - 1]].now > WINDOW
    ensures AlertsInv(events, threshold, alerts + [|events| - 1])
  {
    assert lo <= |events| - 1;
    hide Backed;
    var more := alerts + [|events| - 1];
    forall k | 0 <= k < |more| ensures AlertOk(events, threshold, more, k) {
      if k < |alerts| {
        assert AlertOk(events, threshold, alerts, k);
        var l :| Backed(events, threshold, l, alerts[k]) && (k > 0 ==> alerts[k - 1] < l);
        assert Backed(events, threshold, l, more[k]) && (k > 0 ==> more[k - 1] < l);
      } else {
        assert Backed(events, threshold, lo, more[k]) && (k > 0 ==> more[k - 1] < lo);
      }
    }
  }

  lemma OneMore(events: seq<Event>, e: Event, threshold: int, s: Option<Acct>, alerts: seq<nat>)
    requires Ordered(events + [e]) && threshold >= 2
    requires WindowInv(events, s, alerts) && AlertsInv(events, threshold, alerts)
    ensures var r := Record(s, threshold, e);
            var alerts' := if r.1 then alerts + [|events|] else alerts;
            WindowInv(events + [e], Some(r.0), alerts') && AlertsInv(events + [e], threshold, alerts')
  {
    hide Backed, AlertsInv, AlertOk, WindowInv, Counted, Ordered;
    var all, a := events + [e], Counted(s, e);
    CountedKeeps(events, e, s, alerts);
    AlertsKept(events, e, threshold, alerts);
    if Trips(a, threshold, e.now) {
      CountedAtLeast(events, e, s, alerts);
      TripIsBacked(all, threshold, a, alerts);
      AlertAdded(all, threshold, alerts, |all| - a.count);
      FreshWindow(all, alerts + [|events|]);
    }
  }

  lemma CountedAtLeast(events: seq<Event>, e: Event, s: Option<Acct>, alerts: seq<nat>)
    requires WindowInv(events, s, alerts)
    ensures 1 <= Counted(s, e).count <= |events| + 1
  {
  }

  lemma {:induction false} WatchInv(events: seq<Event>, threshold: int)
    requires Ordered(events) && threshold >= 2
    ensures WindowInv(events, Watch(events, threshold).0, Watch(events, threshold).1)
    ensures AlertsInv(events, threshold, Watch(events, threshold).1)
  {
    if events == [] {
      hide Backed, IpsOf;
    } else {
      var n := |events| - 1;
      var before, e := events[..n], events[n];
      OrderedBefore(events);
      hide *;
      assert before + [e] == events;
      WatchInv(before, threshold);
      var (s, alerts) := Watch(before, threshold);
      OneMore(before, e, threshold, s, alerts);
      WatchLast(events, threshold);
    }
  }

  lemma OrderedBefore(events: seq<Event>)
    requires Ordered(events) && events != []
    ensures Ordered(events[..|events| - 1])
  {
  }

  lemma FreshWindow(events: seq<Event>, alerts: seq<nat>)
    requires events != [] && alerts != [] && alerts[|alerts| - 1] == |events| - 1
    ensures var now := events[|events| - 1].now; WindowInv(events, Some(Acct(now, 0, {}, now)), alerts)
  {
    assert events[|events| - 0..] == [];
  }

  lemma WatchLast(events: seq<Event>, threshold: int)
    requires events != []
    ensures var n := |events| - 1;
            var (s, alerts) := Watch(events[..n], threshold);
            var r := Record(s, threshold, events[n]);
            Watch(events, threshold) == (Some(r.0), if r.1 then alerts + [n] else alerts)
  {
  }

  /**
   * In any stream of failures for one account: two alerts in a row are more than a window apart,
   * and each rests on at least the threshold of failures, from at least two addresses, all after
   * the previous alert and within one window.
   */
  lemma AlertsAreSpacedAndBacked(events: seq<Event>, threshold: int, k: nat)
    requires Ordered(events) && threshold >= 2 && k < |Watch(events, threshold).1|
    ensures var alerts := Watch(events, threshold).1;
            && (exists lo :: Backed(events, threshold, lo, alerts[k]) && (k > 0 ==> alerts[k - 1] < lo))
            && (k > 0 ==> events[alerts[k]].now - events[alerts[k - 1]].now > WINDOW)
  {
    WatchInv(events, threshold);
    hide Backed, Watch, Ordered;
    assert AlertOk(events, threshold, Watch(events, threshold).1, k);
  }

  // ── When an alert is due ──

  /**
   * The window the n-th failure falls in, as the start of its fifteen minutes and the first failure
   * counted in it. A failure later than that opens its own; an alert starts over right after itself.
   */
  ghost function WindowOf(events: seq<Event>, alerts: seq<nat>, n: nat): (w: (int, nat))
    requires n < |events|
    ensures w.1 <= n
  {
    if n == 0 then (events[0].now, 0) else
      var (start, lo) := if n - 1 in alerts then (events[n - 1].now, n) else WindowOf(events, alerts, n - 1);
      if events[n].now - start > 900000 then (events[n].now, n) else (start, lo)
  }

  /** An alert belongs at n: enough failures in its window, from two addresses, and none raised lately. */
  ghost predicate Due(events: seq<Event>, alerts: seq<nat>, threshold: int, n: nat)
    requires n < |events|
  {
    var lo := WindowOf(events, alerts, n).1;
    && n + 1 - lo >= threshold
    && |IpsOf(events[lo..n + 1])| >= 2
    && events[n].now > 900000
    && (forall k :: k in alerts && k < n ==> events[n].now - events[k].now > 900000)
  }

  ghost predicate DueInv(events: seq<Event>, alerts: seq<nat>, threshold: int) {
    && (forall k :: k in alerts ==> k < |events|)
    && forall n :: 0 <= n < |events| ==> (n in alerts <==> Due(events, alerts, threshold, n))
  }

  /** The state against the window: where it began, what it counts, and whether an alert began it. */
  ghost predicate StateInv(events: seq<Event>, s: Option<Acct>, alerts: seq<nat>) {
    match s
    case None => events == []
    case Some(a) =>
      && events != []
      && (if |events| - 1 in alerts
          then a == Acct(events[|events| - 1].now, 0, {}, events[|events| - 1].now)
          else (a.windowStart, |events| - a.count) == WindowOf(events, alerts, |events| - 1))
      && Marked(events, a, alerts)
  }

  ghost predicate Marked(events: seq<Event>, a: Acct, alerts: seq<nat>) {
    if a.lastAlertAt == 0 then forall k :: k in alerts && k < |events| ==> events[k].now + WINDOW < a.windowStart
    else
      && a.lastAlertAt == a.windowStart
      && (exists k :: k in alerts && k < |events| && events[k].now == a.windowStart)
      && (forall k :: k in alerts && k < |events| ==> events[k].now <= a.windowStart)
  }

  lemma {:induction false} WindowOfEarlier(events: seq<Event>, e: Event, alerts: seq<nat>, more: seq<nat>, n: nat)
    requires n < |events| && forall k :: k < n ==> (k in alerts <==> k in more)
    ensures WindowOf(events + [e], more, n) == WindowOf(events, alerts, n)
  {
    if n > 0 { WindowOfEarlier(events, e, alerts, more, n - 1); }
  }

  lemma DueEarlier(events: seq<Event>, e: Event, alerts: seq<nat>, more: seq<nat>, threshold: int, n: nat)
    requires n < |events| && forall k :: k < |events| ==> (k in alerts <==> k in more)
    ensures Due(events + [e], more, threshold, n) <==> Due(events, alerts, threshold, n)
  {
    WindowOfEarlier(events, e, alerts, more, n);
    var lo := WindowOf(events, alerts, n).1;
    assert (events + [e])[lo..n + 1] == events[lo..n + 1];
  }

  /** A failure is counted in the window it falls in. */
  lemma CountedInWindow(events: seq<Event>, e: Event, s: Option<Acct>, alerts: seq<nat>)
    requires StateInv(events, s, alerts) && WindowInv(events, s, alerts) && Ordered(events + [e])
    requires forall k :: k in alerts ==> k < |events|
    ensures var a := Counted(s, e);
            (a.windowStart, |events| + 1 - a.count) == WindowOf(events + [e], alerts, |events|)
            && Marked(events, a, alerts)
  {
    LastIsLatest(events, e);
    hide Ordered, IpsOf;
    if events != [] { WindowOfEarlier(events, e, alerts, alerts, |events| - 1); }
  }

  /** The three tests of the code are the three conditions of the definition. */
  lemma TripsWhenDue(events: seq<Event>, e: Event, a: Acct, alerts: seq<nat>, threshold: int)
    requires (a.windowStart, |events| + 1 - a.count) == WindowOf(events + [e], alerts, |events|)
    requires WindowInv(events + [e], Some(a), alerts) && Marked(events, a, alerts)
    requires forall k :: k in alerts ==> k < |events|
    ensures Trips(a, threshold, e.now) <==> Due(events + [e], alerts, threshold, |events|)
  {
    var all, lo := events + [e], |events| + 1 - a.count;
    assert all[lo..|events| + 1] == all[lo..];
    hide WindowOf, IpsOf;
    if a.lastAlertAt != 0 {
      var k :| k in alerts && k < |events| && events[k].now == a.windowStart;
      assert all[k] == events[k];
    } else {
      forall k | k in alerts ensures all[|events|].now - all[k].now > WINDOW {
        assert all[k] == events[k];
      }
    }
  }

  lemma MarkedLater(events: seq<Event>, e: Event, a: Acct, alerts: seq<nat>)
    requires Marked(events, a, alerts) && forall k :: k in alerts ==> k < |events|
    ensures Marked(events + [e], a, alerts)
  {
    assert forall k :: k in alerts ==> (events + [e])[k] == events[k];
  }

  lemma MarkedByAlert(events: seq<Event>, alerts: seq<nat>)
    requires events != [] && |events| - 1 in alerts && Ordered(events) && events[|events| - 1].now > 0
    ensures var now := events[|events| - 1].now; Marked(events, Acct(now, 0, {}, now), alerts)
  {
  }

  lemma DueOneMore(events: seq<Event>, e: Event, s: Option<Acct>, alerts: seq<nat>, threshold: int)
    requires Ordered(events + [e]) && threshold >= 2
    requires WindowInv(events, s, alerts) && StateInv(events, s, alerts) && DueInv(events, alerts, threshold)
    ensures var r := Record(s, threshold, e);
            var more := if r.1 then alerts + [|events|] else alerts;
            StateInv(events + [e], Some(r.0), more) && DueInv(events + [e], more, threshold)
  {
    hide Ordered, WindowInv, Counted, Marked, Due, WindowOf, IpsOf;
    var all, a := events + [e], Counted(s, e);
    var more := if Trips(a, threshold, e.now) then alerts + [|events|] else alerts;
    CountedInWindow(events, e, s, alerts);
    CountedKeeps(events, e, s, alerts);
    TripsWhenDue(events, e, a, alerts, threshold);
    SameDue(all, alerts, more, threshold, |events|);
    forall n | 0 <= n < |events| ensures n in more <==> Due(all, more, threshold, n) {
      DueEarlier(events, e, alerts, more, threshold, n);
    }
    if Trips(a, threshold, e.now) {
      assert all[|all| - 1] == e;
      DueClock(all, alerts, threshold, |events|);
      MarkedByAlert(all, more);
    } else {
      MarkedLater(events, e, a, alerts);
    }
  }

  lemma DueClock(events: seq<Event>, alerts: seq<nat>, threshold: int, n: nat)
    requires n < |events| && Due(events, alerts, threshold, n)
    ensures events[n].now > 0
  {
  }

  lemma SameDue(events: seq<Event>, alerts: seq<nat>, more: seq<nat>, threshold: int, n: nat)
    requires n < |events| && forall k :: k < n ==> (k in alerts <==> k in more)
    ensures Due(events, alerts, threshold, n) <==> Due(events, more, threshold, n)
  {
    SameWindow(events, alerts, more, n);
  }

  lemma {:induction false} SameWindow(events: seq<Event>, alerts: seq<nat>, more: seq<nat>, n: nat)
    requires n < |events| && forall k :: k < n ==> (k in alerts <==> k in more)
    ensures WindowOf(events, alerts, n) == WindowOf(events, more, n)
  {
    if n > 0 { SameWindow(events, alerts, more, n - 1); }
  }

  lemma {:induction false} WatchDue(events: seq<Event>, threshold: int)
    requires Ordered(events) && threshold >= 2
    ensures StateInv(events, Watch(events, threshold).0, Watch(events, threshold).1)
    ensures DueInv(events, Watch(events, threshold).1, threshold)
  {
    if events == [] {
      hide Due, Marked, IpsOf;
    } else {
      var n := |events| - 1;
      var before, e := events[..n], events[n];
      OrderedBefore(events);
      hide *;
      assert before + [e] == events;
      WatchDue(before, threshold);
      WatchInv(before, threshold);
      var (s, alerts) := Watch(before, threshold);
      DueOneMore(before, e, s, alerts, threshold);
      WatchLast(events, threshold);
    }
  }

  /** In any stream of failures for one account, an alert is raised exactly where one is due. */
  lemma AlertExactlyWhenDue(events: seq<Event>, threshold: int, n: nat)
    requires Ordered(events) && threshold >= 2 && n < |events|
    ensures var alerts := Watch(events, threshold).1;
            var lo := WindowOf(events, alerts, n).1;
            n in alerts <==>
              && n + 1 - lo >= threshold
              && |IpsOf(events[lo..n + 1])| >= 2
              && events[n].now > 900000
              && (forall k :: k in alerts && k < n ==> events[n].now - events[k].now > 900000)
  {
    WatchDue(events, threshold);
    assert Due(events, Watch(events, threshold).1, threshold, n) <==> n in Watch(events, threshold).1;
    hide Watch, WindowOf, IpsOf, Ordered;
  }

  /** With no alert in between, a burst after a quiet stretch is one window. */
  lemma {:induction false} BurstIsOneWindow(events: seq<Event>, threshold: int, lo: nat, n: nat)
    requires Ordered(events) && threshold >= 2 && lo <= n < |events|
    requires lo > 0 ==> events[lo].now - events[lo - 1].now > 900000
    requires events[n].now - events[lo].now <= 900000
    requires forall k :: lo <= k < n ==> k !in Watch(events, threshold).1
    ensures WindowOf(events, Watch(events, threshold).1, n) == (events[lo].now, lo)
  {
    var alerts := Watch(events, threshold).1;
    if n == lo {
      if n > 0 { StartsEarlier(events, alerts, n - 1); }
    } else {
      assert events[n - 1].now <= events[n].now;
      BurstIsOneWindow(events, threshold, lo, n - 1);
    }
  }

  lemma {:induction false} StartsEarlier(events: seq<Event>, alerts: seq<nat>, n: nat)
    requires n < |events| && Ordered(events)
    ensures WindowOf(events, alerts, n).0 <= events[n].now
  {
    if n > 0 { StartsEarlier(events, alerts, n - 1); }
  }

  /**
   * After fifteen minutes without a failure (or at the start), failures from two addresses within
   * fifteen minutes raise an alert by the time they reach the threshold.
   */
  lemma BurstRaisesAlert(events: seq<Event>, threshold: int, lo: nat, n: nat)
    requires Ordered(events) && threshold >= 2 && lo <= n < |events|
    requires lo > 0 ==> events[lo].now - events[lo - 1].now > 900000
    requires n + 1 - lo >= threshold && |IpsOf(events[lo..n + 1])| >= 2
    requires 900000 < events[lo].now && events[n].now - events[lo].now <= 900000
    ensures exists k :: lo <= k <= n && k in Watch(events, threshold).1
  {
    var alerts := Watch(events, threshold).1;
    if forall k :: lo <= k < n ==> k !in alerts {
      BurstIsOneWindow(events, threshold, lo, n);
      AlertExactlyWhenDue(events, threshold, n);
      forall k | k in alerts && k < n ensures events[n].now - events[k].now > 900000 {
        assert k < lo && events[k].now <= events[lo - 1].now && events[lo].now <= events[n].now;
      }
    }
  }

  // ── The module's own state ──

  class Detector {
    const threshold: int
    var acctState: map<string, Acct>

    constructor (parsed: Option<int>)
      ensures threshold == Threshold(parsed) && acctState == map[]
    {
      threshold := Threshold(parsed);
      acctState := map[];
    }

    /** recordAccountFailure: one account's state moves as the stream above says, the others' stay. */
    method RecordAccountFailure(email: string, ip: Option<Ip>, now: int) returns (alert: bool)
      modifies this`acctState
      ensures var before := if email in old(acctState) then Some(old(acctState)[email]) else None;
              var r := Record(before, threshold, Event(now, ip));
              alert == r.1 && acctState == old(acctState)[email := r.0]
    {
      if email !in acctState || now - acctState[email].windowStart > WINDOW {
        acctState := acctState[email := Acct(now, 0, {}, 0)];
      }
      var s := acctState[email];
      s := s.(count := s.count + 1);
      if ip.Some? && ip.value != "" { s := s.(ips := s.ips + {ip.value}); }
      acctState := acctState[email := s];
      if s.count >= threshold && |s.ips| >= 2 && now - s.lastAlertAt > WINDOW {
        acctState := acctState[email := Acct(now, 0, {}, now)];
        return true;
      }
      return false;
    }
  }
}
