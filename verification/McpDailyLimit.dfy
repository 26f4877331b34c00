/**
 * The per-key daily call limit of dispatchTool (mcp.service.ts): two conditional updates,
 * each atomic in the database, interleaved by any number of callers whose clock readings
 * may be arbitrarily stale, and key rotation (mcp.routes.ts), which resets the counter.
 */
module McpDailyLimit {
  import opened Prelude

  const DAY: nat := 24 * 60 * 60 * 1000

  /** setUTCHours(24, 0, 0, 0): the midnight that ends the UTC day of `now` (milliseconds). */
  function NextMidnight(now: nat): (m: nat)
    ensures now < m <= now + DAY && m % DAY == 0
  {
    (now / DAY + 1) * DAY
  }

  datatype KeyRow = KeyRow(callsToday: nat, callsResetAt: Option<nat>)

  /** UPDATE ... SET callsToday = 0, callsResetAt = next WHERE callsResetAt IS NULL OR callsResetAt < now */
  function Rolled(row: KeyRow, now: nat): KeyRow {
    if row.callsResetAt.None? || row.callsResetAt.value < now then KeyRow(0, Some(NextMidnight(now))) else row
  }

  /** UPDATE ... SET callsToday = callsToday + 1 WHERE callsToday < limit; the flag says a row matched. */
  function Reserved(row: KeyRow, limit: nat): (KeyRow, bool) {
    if row.callsToday < limit then (row.(callsToday := row.callsToday + 1), true) else (row, false)
  }

  // ── The machine ──

  type Caller = nat

  /** Where a caller is between its awaits. */
  datatype Phase = WillRoll(now: nat) | WillReserve(now: nat) | Runs(now: nat) | Refused(now: nat)

  /** What happened, with the window label (the reset time in force) it happened under. */
  datatype Event = Roll(day: nat) | Call(day: nat) | Refusal(day: nat) | Rotation(day: nat)

  datatype State = State(row: KeyRow, callers: map<Caller, Phase>, log: seq<Event>)

  datatype Step = Arrive(c: Caller, now: nat) | RollStep(c: Caller) | ReserveStep(c: Caller) | RotateStep

  const FRESH := State(KeyRow(0, None), map[], [])

  predicate Can(s: State, step: Step) {
    match step
    case Arrive(c, _) => c !in s.callers
    case RollStep(c) => c in s.callers && s.callers[c].WillRoll?
    case ReserveStep(c) => c in s.callers && s.callers[c].WillReserve?
    case RotateStep => true
  }

  function Next(limit: nat, s: State, step: Step): State
    requires Can(s, step)
  {
    match step
    case Arrive(c, now) => s.(callers := s.callers[c := WillRoll(now)])
    case RollStep(c) =>
      var row := Rolled(s.row, s.callers[c].now);
      State(row, s.callers[c := WillReserve(s.callers[c].now)],
            if row.callsResetAt != s.row.callsResetAt then s.log + [Roll(row.callsResetAt.value)] else s.log)
    case ReserveStep(c) =>
      var (row, matched) := Reserved(s.row, limit);
      var day := if row.callsResetAt.Some? then row.callsResetAt.value else 0;
      State(row, s.callers[c := if matched then Runs(s.callers[c].now) else Refused(s.callers[c].now)], s.log + [if matched then Call(day) else Refusal(day)])
    case RotateStep =>
      var day := if s.row.callsResetAt.Some? then s.row.callsResetAt.value else 0;
      State(s.row.(callsToday := 0), s.callers, s.log + [Rotation(day)])
  }

  predicate Run(limit: nat, s: State, steps: seq<Step>)
    decreases steps
  {
    steps == [] || (Can(s, steps[0]) && Run(limit, Next(limit, s, steps[0]), steps[1..]))
  }

  function After(limit: nat, s: State, steps: seq<Step>): State
    requires Run(limit, s, steps)
    decreases steps
  {
    if steps == [] then s else After(limit, Next(limit, s, steps[0]), steps[1..])
  }

  // ── Counting ──

  function Calls(log: seq<Event>, day: nat): nat {
    if log == [] then 0
    else Calls(log[..|log| - 1], day) + if log[|log| - 1] == Call(day) then 1 else 0
  }

  function Rotations(log: seq<Event>, day: nat): nat {
    if log == [] then 0
    else Rotations(log[..|log| - 1], day) + if log[|log| - 1] == Rotation(day) then 1 else 0
  }

  lemma CountsGrow(log: seq<Event>, e: Event, day: nat)
    ensures Calls(log + [e], day) == Calls(log, day) + if e == Call(day) then 1 else 0
    ensures Rotations(log + [e], day) == Rotations(log, day) + if e == Rotation(day) then 1 else 0
  {
    assert (log + [e])[..|log|] == log;
  }

  /** The window label in force; 0 before the first roll. */
  function Label(row: KeyRow): nat {
    if row.callsResetAt.Some? then row.callsResetAt.value else 0
  }

  /** Rolls set midnights, each later than every roll before it. */
  ghost predicate RollsIncrease(log: seq<Event>) {
    && (forall i :: 0 <= i < |log| && log[i].Roll? ==> log[i].day % DAY == 0 && log[i].day > 0)
    && (forall i, j :: 0 <= i < j < |log| && log[i].Roll? && log[j].Roll? ==> log[i].day < log[j].day)
  }

  /** Calls allowed in a window during which the key was rotated this often. */
  function Allowed(limit: nat, rotations: nat): nat {
    limit * (1 + rotations)
  }

  lemma AllowedGrows(limit: nat)
    ensures forall r: nat :: Allowed(limit, r + 1) == Allowed(limit, r) + limit
    ensures forall r: nat :: Allowed(limit, r) >= limit
  {
    forall r: nat ensures Allowed(limit, r) >= limit {
      assert limit * (1 + r) == limit + limit * r;
    }
  }

  ghost predicate Inv(limit: nat, s: State) {
    && s.row.callsToday <= limit
    && RollsIncrease(s.log)
    && (s.row.callsResetAt.Some? ==> s.row.callsResetAt.value > 0)
    && (forall i :: 0 <= i < |s.log| ==> s.log[i].day <= Label(s.row))
    && (forall day: nat :: day > Label(s.row) ==> Calls(s.log, day) == 0 && Rotations(s.log, day) == 0)
    && (forall day: nat :: day != Label(s.row) ==> Calls(s.log, day) <= Allowed(limit, Rotations(s.log, day)))
    && Calls(s.log, Label(s.row)) + limit <= Allowed(limit, Rotations(s.log, Label(s.row))) + s.row.callsToday
    && (forall c :: c in s.callers && !s.callers[c].WillRoll? ==> s.row.callsResetAt.Some?)
  }

  lemma RollKeepsInv(limit: nat, s: State, c: Caller)
    requires Inv(limit, s) && Can(s, RollStep(c))
    ensures Inv(limit, Next(limit, s, RollStep(c)))
  {
    var t := Next(limit, s, RollStep(c));
    if t.row.callsResetAt != s.row.callsResetAt {
      forall day: nat ensures Calls(t.log, day) == Calls(s.log, day) && Rotations(t.log, day) == Rotations(s.log, day) {
        CountsGrow(s.log, Roll(Label(t.row)), day);
      }
      assert Label(t.row) > Label(s.row);
      Covered(limit, s);
    }
  }

  lemma Covered(limit: nat, s: State)
    requires Inv(limit, s)
    ensures Calls(s.log, Label(s.row)) <= Allowed(limit, Rotations(s.log, Label(s.row)))
  {
  }

  lemma ReserveKeepsInv(limit: nat, s: State, c: Caller)
    requires Inv(limit, s) && Can(s, ReserveStep(c))
    ensures Inv(limit, Next(limit, s, ReserveStep(c)))
  {
    var t := Next(limit, s, ReserveStep(c));
    var e := t.log[|s.log|];
    forall day: nat
      ensures Calls(t.log, day) == Calls(s.log, day) + if e == Call(day) then 1 else 0
      ensures Rotations(t.log, day) == Rotations(s.log, day)
    {
      CountsGrow(s.log, e, day);
    }
    hide Calls, Rotations, Allowed;
  }

  lemma RotateKeepsInv(limit: nat, s: State)
    requires Inv(limit, s)
    ensures Inv(limit, Next(limit, s, RotateStep))
  {
    var t := Next(limit, s, RotateStep);
    var e := t.log[|s.log|];
    forall day: nat
      ensures Calls(t.log, day) == Calls(s.log, day)
      ensures Rotations(t.log, day) == Rotations(s.log, day) + if e == Rotation(day) then 1 else 0
    {
      CountsGrow(s.log, e, day);
    }
    AllowedGrows(limit);
    hide Calls, Rotations, Allowed;
  }

  lemma StepKeepsInv(limit: nat, s: State, step: Step)
    requires Inv(limit, s) && Can(s, step)
    ensures Inv(limit, Next(limit, s, step))
  {
    match step
    case Arrive(_, _) =>
    case RollStep(c) => RollKeepsInv(limit, s, c);
    case ReserveStep(c) => ReserveKeepsInv(limit, s, c);
    case RotateStep => RotateKeepsInv(limit, s);
  }

  lemma {:induction false} RunKeepsInv(limit: nat, s: State, steps: seq<Step>)
    requires Inv(limit, s) && Run(limit, s, steps)
    ensures Inv(limit, After(limit, s, steps))
    decreases steps
  {
    if steps != [] {
      StepKeepsInv(limit, s, steps[0]);
      RunKeepsInv(limit, Next(limit, s, steps[0]), steps[1..]);
    }
  }

  /**
   * In every interleaving each roll sets a strictly later UTC midnight, and the handlers run
   * under one label are at most `limit` for each stretch between rotations of the key.
   */
  lemma LimitHoldsInEveryRun(limit: nat, steps: seq<Step>)
    requires Run(limit, FRESH, steps)
    ensures var log := After(limit, FRESH, steps).log;
            && RollsIncrease(log)
            && forall day: nat :: Calls(log, day) <= Allowed(limit, Rotations(log, day))
  {
    RunKeepsInv(limit, FRESH, steps);
    Covered(limit, After(limit, FRESH, steps));
  }

  /** Without a rotation of the key: at most `limit` calls a day. */
  lemma LimitWithoutRotation(limit: nat, steps: seq<Step>, day: nat)
    requires Run(limit, FRESH, steps) && RotateStep !in steps
    ensures Calls(After(limit, FRESH, steps).log, day) <= limit
  {
    LimitHoldsInEveryRun(limit, steps);
    NoRotationLogged(limit, FRESH, steps, day);
    assert Allowed(limit, 0) == limit;
  }

  lemma StepLogsNoRotation(limit: nat, s: State, step: Step, day: nat)
    requires Can(s, step) && !step.RotateStep?
    ensures Rotations(Next(limit, s, step).log, day) == Rotations(s.log, day)
  {
    hide Calls, Rotations, Rolled, Reserved;
    var t := Next(limit, s, step);
    if t.log != s.log {
      CountsGrow(s.log, t.log[|s.log|], day);
    }
  }

  lemma {:induction false} NoRotationLogged(limit: nat, s: State, steps: seq<Step>, day: nat)
    requires Run(limit, s, steps) && RotateStep !in steps
    ensures Rotations(After(limit, s, steps).log, day) == Rotations(s.log, day)
    decreases steps
  {
    if steps != [] {
      hide Next, Can, Rotations;
      StepLogsNoRotation(limit, s, steps[0], day);
      NoRotationLogged(limit, Next(limit, s, steps[0]), steps[1..], day);
    }
  }

  // ── Nobody is refused early ──

  /** Calls since the counter was last set to zero. */
  function Recent(log: seq<Event>): nat {
    if log == [] then 0
    else
      var e := log[|log| - 1];
      if e.Roll? || e.Rotation? then 0
      else Recent(log[..|log| - 1]) + if e.Call? then 1 else 0
  }

  lemma RecentGrows(log: seq<Event>, e: Event)
    ensures Recent(log + [e]) == if e.Roll? || e.Rotation? then 0 else Recent(log) + if e.Call? then 1 else 0
  {
    assert (log + [e])[..|log|] == log;
  }

  /** A window that is over is rolled: the label then lies ahead of the caller's clock, the counter at zero. */
  lemma RollOpensWindow(row: KeyRow, now: nat)
    ensures var r := Rolled(row, now);
            && r.callsResetAt.Some? && r.callsResetAt.value >= now
            && (row.callsResetAt == None || row.callsResetAt.value < now ==>
                  r.callsToday == 0 && now < r.callsResetAt.value <= now + 24 * 60 * 60 * 1000
                  && r.callsResetAt.value % (24 * 60 * 60 * 1000) == 0)
            && (row.callsResetAt.Some? && row.callsResetAt.value >= now ==> r == row)
  {
  }

  /** Labels never go back. */
  lemma LabelGrows(limit: nat, s: State, step: Step)
    requires Can(s, step)
    ensures Label(Next(limit, s, step).row) >= Label(s.row)
    ensures s.row.callsResetAt.Some? ==> Next(limit, s, step).row.callsResetAt.Some?
  {
    if step.RollStep? { RollOpensWindow(s.row, s.callers[step.c].now); }
  }

  /** Calls since the counter was last set to zero, that were made under this label. */
  function RecentUnder(log: seq<Event>, day: nat): nat {
    if log == [] then 0
    else
      var e := log[|log| - 1];
      if e.Roll? || e.Rotation? then 0
      else RecentUnder(log[..|log| - 1], day) + if e == Call(day) then 1 else 0
  }

  lemma RecentUnderGrows(log: seq<Event>, e: Event, day: nat)
    ensures RecentUnder(log + [e], day) == if e.Roll? || e.Rotation? then 0 else RecentUnder(log, day) + if e == Call(day) then 1 else 0
  {
    assert (log + [e])[..|log|] == log;
  }

  /** All recent calls were made under the label in force, and whoever has rolled has a window ahead of its clock. */
  ghost predicate Current(s: State) {
    && s.row.callsToday == Recent(s.log) == RecentUnder(s.log, Label(s.row))
    && (forall c :: c in s.callers && !s.callers[c].WillRoll? ==> s.row.callsResetAt.Some? && s.callers[c].now <= s.row.callsResetAt.value)
  }

  lemma StepKeepsCurrent(limit: nat, s: State, step: Step)
    requires Current(s) && Can(s, step)
    ensures Current(Next(limit, s, step))
  {
    var t := Next(limit, s, step);
    LabelGrows(limit, s, step);
    if step.RollStep? { RollOpensWindow(s.row, s.callers[step.c].now); }
    if t.log != s.log {
      RecentGrows(s.log, t.log[|s.log|]);
      RecentUnderGrows(s.log, t.log[|s.log|], Label(t.row));
    }
    hide Recent, RecentUnder, NextMidnight;
  }

  lemma {:induction false} RunKeepsCurrent(limit: nat, s: State, steps: seq<Step>)
    requires Current(s) && Run(limit, s, steps)
    ensures Current(After(limit, s, steps))
    decreases steps
  {
    hide Current, Next, Can;
    if steps != [] {
      StepKeepsCurrent(limit, s, steps[0]);
      RunKeepsCurrent(limit, Next(limit, s, steps[0]), steps[1..]);
    }
  }

  /**
   * A caller is refused exactly when `limit` calls were made since the window or the key last
   * changed, and all of them under one label that its own clock has not passed.
   */
  lemma RefusedOnlyAtTheLimit(limit: nat, steps: seq<Step>, c: Caller)
    requires Run(limit, FRESH, steps) && Can(After(limit, FRESH, steps), ReserveStep(c))
    ensures var s := After(limit, FRESH, steps);
            && (Next(limit, s, ReserveStep(c)).callers[c].Refused? <==> Recent(s.log) == limit)
            && (Next(limit, s, ReserveStep(c)).callers[c].Runs? <==> Recent(s.log) < limit)
            && RecentUnder(s.log, Label(s.row)) == Recent(s.log)
            && s.row.callsResetAt.Some? && s.callers[c].now <= s.row.callsResetAt.value
  {
    RunKeepsInv(limit, FRESH, steps);
    RunKeepsCurrent(limit, FRESH, steps);
  }

  /** So the first caller to arrive after a window is over is admitted, whatever happened before. */
  lemma NextDayIsOpen(limit: nat, steps: seq<Step>, c: Caller, now: nat)
    requires limit > 0 && Run(limit, FRESH, steps) && c !in After(limit, FRESH, steps).callers
    requires var row := After(limit, FRESH, steps).row; row.callsResetAt.Some? && row.callsResetAt.value < now
    ensures var s := Next(limit, After(limit, FRESH, steps), Arrive(c, now));
            && Can(s, RollStep(c)) && Can(Next(limit, s, RollStep(c)), ReserveStep(c))
            && Next(limit, Next(limit, s, RollStep(c)), ReserveStep(c)).callers[c].Runs?
  {
    RollOpensWindow(After(limit, FRESH, steps).row, now);
  }

  // ── The statements themselves ──

  class McpApiKey {
    var callsToday: nat
    var callsResetAt: Option<nat>

    function Row(): KeyRow
      reads this
    {
      KeyRow(callsToday, callsResetAt)
    }

    constructor ()
      ensures Row() == FRESH.row
    {
      callsToday, callsResetAt := 0, None;
    }

    method RollWindow(now: nat) returns (count: nat)
      modifies this
      ensures Row() == Rolled(old(Row()), now)
      ensures count == if Row() != old(Row()) then 1 else 0
      ensures callsResetAt.Some? && callsResetAt.value >= now
      ensures old(callsResetAt) == None || old(callsResetAt).value < now ==> callsToday == 0
    {
      count := 0;
      if callsResetAt.None? || callsResetAt.value < now {
        callsToday, callsResetAt := 0, Some(NextMidnight(now));
        count := 1;
      }
    }

    method ReserveCall(limit: nat) returns (count: nat)
      modifies this`callsToday
      ensures (Row(), count == 1) == Reserved(old(Row()), limit) && count <= 1
    {
      count := 0;
      if callsToday < limit {
        callsToday := callsToday + 1;
        count := 1;
      }
    }

    /** Other callers, in any number, between two awaits of this one. */
    method Yield(limit: nat)
      requires callsToday <= limit
      modifies this
      ensures callsToday <= limit && Label(Row()) >= old(Label(Row()))
      ensures old(callsResetAt).Some? ==> callsResetAt.Some?
    {
      var others: nat := *;
      while others > 0
        invariant callsToday <= limit && Label(Row()) >= old(Label(Row()))
        invariant old(callsResetAt).Some? ==> callsResetAt.Some?
      {
        var kind: nat, now: nat := *, *;
        if kind == 0 {
          var _ := RollWindow(now);
        } else if kind == 1 {
          var _ := ReserveCall(limit);
        } else {
          callsToday := 0;
        }
        others := others - 1;
      }
    }

    /** The quota part of dispatchTool: no limit, or a limit that is not positive, admits every call. */
    method Admit(dailyCallLimit: Option<int>, now: nat) returns (admitted: bool)
      requires dailyCallLimit.Some? && dailyCallLimit.value > 0 ==> callsToday <= dailyCallLimit.value
      modifies this
      ensures dailyCallLimit.None? || dailyCallLimit.value <= 0 ==> admitted && Row() == old(Row())
      ensures dailyCallLimit.Some? && dailyCallLimit.value > 0 ==>
                && (admitted ==> 0 < callsToday <= dailyCallLimit.value)
                && (!admitted ==> callsToday == dailyCallLimit.value)
                && callsResetAt.Some? && callsResetAt.value >= now
                && Label(Row()) >= old(Label(Row()))
    {
      if dailyCallLimit.Some? && dailyCallLimit.value > 0 {
        var _ := RollWindow(now);
        Yield(dailyCallLimit.value);
        var count := ReserveCall(dailyCallLimit.value);
        return count == 1;
      }
      admitted := true;
    }
  }

  /** Keeps the arguments a tool declares, with the caller's values, and no others. */
  method PickDeclaredArgs<V>(declared: seq<string>, args: map<string, V>) returns (out: map<string, V>)
    ensures out == map k | k in args && k in declared :: args[k]
  {
    out := map[];
    for i := 0 to |declared|
      invariant out == map k | k in args && k in declared[..i] :: args[k]
    {
      if declared[i] in args {
        out := out[declared[i] := args[declared[i]]];
      }
      assert declared[..i + 1] == declared[..i] + [declared[i]];
    }
    assert declared[..|declared|] == declared;
  }
}
