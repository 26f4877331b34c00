/**
 * Trust on first use of SSH host keys (`verifyHostKey` in server/src/services/ssh.service.ts) by
 * any number of concurrent connectors: read the pin, pin it if there is none, read it again.
 *
 * An epoch ends whenever the pin is cleared (an edited SSH target, "forget host key") or the
 * connection is deleted.
 */
module HostKeyPin {
  import opened Prelude

  type Key = string
  type Caller = nat

  /** The connection's row: gone, or with its sshHostKey column. An empty pin counts as none. */
  datatype Row = Gone | Row(sshHostKey: Option<Key>)

  predicate IsPinned(row: Row) {
    row.Row? && row.sshHostKey.Some? && row.sshHostKey.value != ""
  }

  /** What is stored is never the empty text. */
  predicate WellFormed(row: Row) {
    row.Row? ==> row.sshHostKey == None || row.sshHostKey.value != ""
  }

  datatype Answer = Accepted | Mismatch(expected: Key) | NotFound

  // ── The three statements ──

  /** The first read: None means go on to pin. */
  function OnRead(row: Row, received: Key): Option<Answer> {
    if row.Gone? then Some(NotFound)
    else if IsPinned(row) then Some(if row.sshHostKey.value != received then Mismatch(row.sshHostKey.value) else Accepted)
    else None
  }

  /** updateMany where sshHostKey is null: the row it leaves. */
  function OnPin(row: Row, received: Key): Row {
    if row == Row(None) then Row(Some(received)) else row
  }

  /** The read after an update that matched nothing. */
  function OnReread(row: Row, received: Key): Answer {
    if IsPinned(row) && row.sshHostKey.value != received then Mismatch(row.sshHostKey.value) else Accepted
  }

  // ── All callers together ──

  /** Where a caller stands; `since` is the epoch of its first read, `at` that of its answer. */
  datatype Phase =
    | Started
    | Pinning(since: nat)
    | Rereading(since: nat)
    | Answered(answer: Answer, since: nat, at: nat)

  datatype Call = Call(received: Key, phase: Phase)

  /** `pins` remembers, for each epoch in which a key was pinned, which one. */
  datatype State = State(row: Row, epoch: nat, pins: map<nat, Key>, calls: map<Caller, Call>)

  datatype Step = Begin(caller: Caller, received: Key) | Advance(caller: Caller) | Clear | Delete

  /** Fingerprints are never empty. A caller's statements come one at a time, in order. */
  predicate Can(s: State, step: Step) {
    match step
    case Begin(c, received) => c !in s.calls && received != ""
    case Advance(c) => c in s.calls && !s.calls[c].phase.Answered?
    case Clear => s.row.Row?
    case Delete => s.row.Row?
  }

  function Move(s: State, c: Caller, phase: Phase): State
    requires c in s.calls
  {
    s.(calls := s.calls[c := s.calls[c].(phase := phase)])
  }

  function Next(s: State, step: Step): State
    requires Can(s, step)
  {
    match step
    case Begin(c, received) => s.(calls := s.calls[c := Call(received, Started)])
    case Clear => s.(row := Row(None), epoch := s.epoch + 1)
    case Delete => s.(row := Gone, epoch := s.epoch + 1)
    case Advance(c) =>
      var call := s.calls[c];
      match call.phase
      case Started =>
        (match OnRead(s.row, call.received)
         case Some(answer) => Move(s, c, Answered(answer, s.epoch, s.epoch))
         case None => Move(s, c, Pinning(s.epoch)))
      case Pinning(since) =>
        var row := OnPin(s.row, call.received);
        if row != s.row
        then Move(s.(row := row, pins := s.pins[s.epoch := call.received]), c, Answered(Accepted, since, s.epoch))
        else Move(s, c, Rereading(since))
      case Rereading(since) => Move(s, c, Answered(OnReread(s.row, call.received), since, s.epoch))
      case Answered(_, _, _) => s
  }

  predicate Run(s: State, steps: seq<Step>)
    decreases steps
  {
    steps == [] || (Can(s, steps[0]) && Run(Next(s, steps[0]), steps[1..]))
  }

  function After(s: State, steps: seq<Step>): State
    requires Run(s, steps)
    decreases steps
  {
    if steps == [] then s else After(Next(s, steps[0]), steps[1..])
  }

  /** A connection as found, with or without a pin, and nobody connecting. */
  predicate Initial(s: State) {
    && s.calls == map[] && s.epoch == 0 && s.row.Row?
    && WellFormed(s.row)
    && s.pins == if s.row.sshHostKey.Some? then map[0 := s.row.sshHostKey.value] else map[]
  }

  /** The stored pin is the epoch's; whoever went past a pin in this epoch knows the epoch has one. */
  ghost predicate Inv(s: State) {
    && WellFormed(s.row)
    && (s.epoch in s.pins <==> IsPinned(s.row))
    && (IsPinned(s.row) ==> s.row.sshHostKey.value == s.pins[s.epoch])
    && (forall e :: e in s.pins ==> e <= s.epoch)
    && (forall c :: c in s.calls ==> CallInv(s, s.calls[c]))
  }

  ghost predicate CallInv(s: State, call: Call) {
    && call.received != ""
    && match call.phase
       case Started => true
       case Pinning(since) => since <= s.epoch && (since == s.epoch ==> s.row.Row?)
       case Rereading(since) => since <= s.epoch && (since == s.epoch ==> s.epoch in s.pins)
       case Answered(answer, since, at) =>
         && since <= at <= s.epoch
         && (answer.Accepted? && since == at ==> at in s.pins && s.pins[at] == call.received)
         && (answer.Mismatch? ==> at in s.pins && s.pins[at] == answer.expected && answer.expected != call.received)
  }

  lemma StepKeepsInv(s: State, step: Step)
    requires Inv(s) && Can(s, step)
    ensures Inv(Next(s, step))
    ensures forall e :: e in s.pins ==> e in Next(s, step).pins && Next(s, step).pins[e] == s.pins[e]
  {
    match step
    case Advance(c) =>
      assert CallInv(s, s.calls[c]);
    case _ =>
  }

  lemma {:induction false} RunKeepsInv(s: State, steps: seq<Step>)
    requires Inv(s) && Run(s, steps)
    ensures Inv(After(s, steps))
    ensures forall e :: e in s.pins ==> e in After(s, steps).pins && After(s, steps).pins[e] == s.pins[e]
    decreases steps
  {
    if steps != [] {
      StepKeepsInv(s, steps[0]);
      hide Inv, Next, Can;
      RunKeepsInv(Next(s, steps[0]), steps[1..]);
    }
  }

  /**
   * In every run: whoever is accepted without the pin having been cleared since it first looked
   * presented the one key of that epoch, and whoever is refused presented another.
   */
  lemma AcceptedMatchesEpoch(s: State, steps: seq<Step>, c: Caller)
    requires Initial(s) && Run(s, steps) && c in After(s, steps).calls && After(s, steps).calls[c].phase.Answered?
    ensures var t := After(s, steps);
            var call := t.calls[c];
            && (call.phase.answer.Accepted? && call.phase.since == call.phase.at ==>
                  call.phase.at in t.pins && t.pins[call.phase.at] == call.received)
            && (call.phase.answer.Mismatch? ==>
                  call.phase.at in t.pins && t.pins[call.phase.at] == call.phase.answer.expected != call.received)
  {
    RunKeepsInv(s, steps);
    assert CallInv(After(s, steps), After(s, steps).calls[c]);
  }

  lemma {:induction false} EpochsCountClears(s: State, steps: seq<Step>)
    requires Run(s, steps) && Clear !in steps && Delete !in steps
    ensures After(s, steps).epoch == s.epoch && (s.row.Row? ==> After(s, steps).row.Row?)
    decreases steps
  {
    if steps != [] {
      assert steps[0] in steps;
      EpochsCountClears(Next(s, steps[0]), steps[1..]);
    }
  }

  /**
   * In a run in which the pin is never cleared, all accepted callers presented the same key, and
   * it is the stored pin. Everyone else gets a mismatch.
   */
  lemma OneKeyForAll(s: State, steps: seq<Step>, c: Caller)
    requires Initial(s) && Run(s, steps) && Clear !in steps && Delete !in steps
    requires c in After(s, steps).calls && After(s, steps).calls[c].phase.Answered?
    ensures var t := After(s, steps);
            && t.row.Row? && t.row.sshHostKey.Some?
            && t.calls[c].phase.answer
               == if t.calls[c].received == t.row.sshHostKey.value then Accepted else Mismatch(t.row.sshHostKey.value)
  {
    RunKeepsInv(s, steps);
    EpochsCountClears(s, steps);
    NeverNotFound(s, steps, c);
    assert CallInv(After(s, steps), After(s, steps).calls[c]);
  }

  lemma {:induction false} NeverNotFound(s: State, steps: seq<Step>, c: Caller)
    requires Run(s, steps) && Clear !in steps && Delete !in steps && s.row.Row?
    requires forall d :: d in s.calls && s.calls[d].phase.Answered? ==> s.calls[d].phase.answer != NotFound
    requires c in After(s, steps).calls && After(s, steps).calls[c].phase.Answered?
    ensures After(s, steps).calls[c].phase.answer != NotFound
    decreases steps
  {
    if steps != [] {
      assert steps[0] in steps;
      NeverNotFound(Next(s, steps[0]), steps[1..], c);
    }
  }

  /** Once set, the pin keeps its value for the rest of such a run: it changes at most once. */
  lemma PinChangesOnce(s: State, before: seq<Step>, after: seq<Step>)
    requires Initial(s) && Run(s, before) && Run(After(s, before), after)
    requires Clear !in after && Delete !in after && IsPinned(After(s, before).row)
    ensures After(After(s, before), after).row == After(s, before).row
  {
    RunKeepsInv(s, before);
    RunKeepsInv(After(s, before), after);
    EpochsCountClears(After(s, before), after);
  }

  /** The exception: a caller beaten to the pin is accepted with any key once that pin is cleared. */
  lemma ClearedPinAcceptsAnything(s: State, c: Caller)
    requires Inv(s) && c in s.calls && s.calls[c].phase.Rereading? && s.row.Row?
    ensures Can(s, Clear) && Can(Next(s, Clear), Advance(c))
    ensures Next(Next(s, Clear), Advance(c)).calls[c].phase == Answered(Accepted, s.calls[c].phase.since, s.epoch + 1)
  {
  }

  // ── verifyHostKey, amid the others ──

  /** How a row may develop within one epoch: only from unpinned to pinned. */
  predicate OthersKept(before: Row, now: Row) {
    && (before.Gone? <==> now.Gone?)
    && (IsPinned(before) ==> now == before)
  }

  /** What a caller may rely on while it waits. */
  predicate Rely(row: Row, epoch: nat, row': Row, epoch': nat) {
    epoch <= epoch' && WellFormed(row') && (epoch' == epoch ==> OthersKept(row, row'))
  }

  lemma RelyChains(r: Row, n: nat, r': Row, n': nat, r'': Row, n'': nat)
    requires Rely(r, n, r', n') && Rely(r', n', r'', n'')
    ensures Rely(r, n, r'', n'')
  {
  }

  /** Every step of every other caller, every clear and the deletion are within it. */
  lemma StepsAreRelied(s: State, step: Step)
    requires Inv(s) && Can(s, step)
    ensures Rely(s.row, s.epoch, Next(s, step).row, Next(s, step).epoch)
  {
    if step.Advance? { assert CallInv(s, s.calls[step.caller]); }
  }

  class Connection {
    var row: Row
    var epoch: nat

    /** The statements of others that change the row. */
    method Others()
      requires WellFormed(row)
      modifies this
      ensures Rely(old(row), old(epoch), row, epoch)
    {
      var steps: nat := *;
      while steps > 0
        invariant Rely(old(row), old(epoch), row, epoch)
      {
        ghost var r, n := row, epoch;
        var kind: nat, received: Key := *, *;
        if kind == 0 && received != "" {
          row := OnPin(row, received);
        } else if kind == 1 && row.Row? {
          row, epoch := Row(None), epoch + 1;
        } else if kind == 2 && row.Row? {
          row, epoch := Gone, epoch + 1;
        }
        RelyChains(old(row), old(epoch), r, n, row, epoch);
        steps := steps - 1;
      }
    }

    /** The accepted key is the pin, unless the pin was cleared meanwhile; a refusal names the key that was pinned. */
    method VerifyHostKey(received: Key) returns (answer: Answer)
      requires received != "" && WellFormed(row)
      modifies this
      ensures Rely(old(row), old(epoch), row, epoch)
      ensures answer.Accepted? && epoch == old(epoch) ==> IsPinned(row) && row.sshHostKey.value == received
      ensures answer.Mismatch? && epoch == old(epoch) ==> IsPinned(row) && row.sshHostKey.value == answer.expected != received
      ensures answer.NotFound? && epoch == old(epoch) ==> row.Gone?
    {
      Others();
      var first := OnRead(row, received);
      Others();
      if first.Some? { return first.value; }
      var pinned := OnPin(row, received);
      var count := if pinned != row then 1 else 0;
      row := pinned;
      Others();
      if count == 1 { return Accepted; }
      answer := OnReread(row, received);
      Others();
    }
  }
}
