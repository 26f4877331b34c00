/**
 * Counting the open event streams (`streamSSE` in server/src/services/sse.service.ts). A stream
 * can end by a terminal message (one second later), the timeout, a subscribe error or the closing
 * of its socket, in any order and more than once.
 */
module SseStreams {
  import opened Prelude

  type StreamId = nat

  const MAX: int := 50

  /** `closers` are the delayed closings a stream's terminal messages have set up; `timer` its timeout. */
  datatype Stream = Stream(cleaned: bool, timer: bool, closers: nat)

  /** `releases` counts, per stream, how often its cleanup gave a connection back. */
  datatype State = State(active: int, streams: map<StreamId, Stream>, releases: map<StreamId, nat>)

  const EMPTY := State(0, map[], map[])

  datatype Step =
    | Open(id: StreamId)
    | TerminalMessage(id: StreamId)
    | CloserFires(id: StreamId)
    | TimeoutFires(id: StreamId)
    | SubscribeError(id: StreamId)
    | SocketClosed(id: StreamId)

  predicate Can(s: State, step: Step) {
    match step
    case Open(id) => id !in s.streams
    case CloserFires(id) => id in s.streams && s.streams[id].closers > 0
    case TimeoutFires(id) => id in s.streams && s.streams[id].timer
    case _ => step.id in s.streams
  }

  function Cleanup(s: State, id: StreamId): State
    requires id in s.streams && id in s.releases
  {
    if s.streams[id].cleaned then s
    else State(s.active - 1, s.streams[id := s.streams[id].(cleaned := true)], s.releases[id := s.releases[id] + 1])
  }

  /** An opening past the limit is refused and leaves everything as it was. */
  function Next(s: State, step: Step): State
    requires Can(s, step) && s.streams.Keys == s.releases.Keys
  {
    match step
    case Open(id) =>
      if s.active >= MAX then s
      else State(s.active + 1, s.streams[id := Stream(false, true, 0)], s.releases[id := 0])
    case TerminalMessage(id) => s.(streams := s.streams[id := s.streams[id].(closers := s.streams[id].closers + 1)])
    case CloserFires(id) => Cleanup(s.(streams := s.streams[id := s.streams[id].(closers := s.streams[id].closers - 1)]), id)
    case TimeoutFires(id) => Cleanup(s.(streams := s.streams[id := s.streams[id].(timer := false)]), id)
    case SubscribeError(id) => Cleanup(s, id)
    case SocketClosed(id) => Cleanup(s.(streams := s.streams[id := s.streams[id].(timer := false)]), id)
  }

  predicate Run(s: State, steps: seq<Step>)
    requires s.streams.Keys == s.releases.Keys
    decreases steps
  {
    steps == [] || (Can(s, steps[0]) && Run(Next(s, steps[0]), steps[1..]))
  }

  function After(s: State, steps: seq<Step>): (t: State)
    requires s.streams.Keys == s.releases.Keys && Run(s, steps)
    ensures t.streams.Keys == t.releases.Keys
    decreases steps
  {
    if steps == [] then s else After(Next(s, steps[0]), steps[1..])
  }

  function OpenStreams(s: State): set<StreamId> {
    set id | id in s.streams && !s.streams[id].cleaned
  }

  ghost predicate Inv(s: State) {
    && s.streams.Keys == s.releases.Keys
    && s.active == |OpenStreams(s)| && s.active <= MAX
    && (forall id :: id in s.streams ==> s.releases[id] == if s.streams[id].cleaned then 1 else 0)
  }

  lemma CleanupKeepsInv(s: State, id: StreamId)
    requires Inv(s) && id in s.streams
    ensures Inv(Cleanup(s, id))
    ensures OpenStreams(Cleanup(s, id)) == OpenStreams(s) - {id}
  {
    assert OpenStreams(Cleanup(s, id)) == OpenStreams(s) - {id};
  }

  lemma TouchKeepsInv(s: State, id: StreamId, stream: Stream)
    requires Inv(s) && id in s.streams && stream.cleaned == s.streams[id].cleaned
    ensures Inv(s.(streams := s.streams[id := stream]))
    ensures OpenStreams(s.(streams := s.streams[id := stream])) == OpenStreams(s)
  {
    assert OpenStreams(s.(streams := s.streams[id := stream])) == OpenStreams(s);
  }

  /** What each step does to the set of open streams. */
  lemma StepKeepsInv(s: State, step: Step)
    requires Inv(s) && Can(s, step)
    ensures Inv(Next(s, step))
    ensures OpenStreams(Next(s, step)) ==
            match step
            case Open(id) => if |OpenStreams(s)| < 50 then OpenStreams(s) + {id} else OpenStreams(s)
            case TerminalMessage(id) => OpenStreams(s)
            case _ => OpenStreams(s) - {step.id}
  {
    match step
    case Open(id) =>
      if s.active < MAX { assert OpenStreams(Next(s, step)) == OpenStreams(s) + {id}; }
    case TerminalMessage(id) => TouchKeepsInv(s, id, s.streams[id].(closers := s.streams[id].closers + 1));
    case CloserFires(id) =>
      var stream := s.streams[id].(closers := s.streams[id].closers - 1);
      TouchKeepsInv(s, id, stream);
      CleanupKeepsInv(s.(streams := s.streams[id := stream]), id);
    case SubscribeError(id) => CleanupKeepsInv(s, id);
    case _ =>
      var stream := s.streams[step.id].(timer := false);
      TouchKeepsInv(s, step.id, stream);
      CleanupKeepsInv(s.(streams := s.streams[step.id := stream]), step.id);
  }

  lemma {:induction false} RunKeepsInv(s: State, steps: seq<Step>)
    requires Inv(s) && Run(s, steps)
    ensures Inv(After(s, steps))
    decreases steps
  {
    if steps != [] {
      StepKeepsInv(s, steps[0]);
      RunKeepsInv(Next(s, steps[0]), steps[1..]);
    }
  }

  /**
   * In every order of messages, timeouts, errors and closings over any number of streams, the
   * counter is the number of streams opened and not yet cleaned up, never leaves 0..50, and each
   * stream gives its connection back once, when it is cleaned up.
   */
  lemma CounterIsExact(steps: seq<Step>, id: StreamId)
    requires Run(EMPTY, steps)
    ensures var s := After(EMPTY, steps);
            && s.active == |OpenStreams(s)| && 0 <= s.active <= 50
            && (id in s.streams ==> id in s.releases && s.releases[id] == if s.streams[id].cleaned then 1 else 0)
  {
    assert OpenStreams(EMPTY) == {};
    RunKeepsInv(EMPTY, steps);
  }

  ghost predicate TimersInv(s: State) {
    s.streams.Keys == s.releases.Keys && forall id :: id in s.streams && !s.streams[id].cleaned ==> s.streams[id].timer
  }

  lemma {:induction false} RunKeepsTimers(s: State, steps: seq<Step>)
    requires TimersInv(s) && Run(s, steps)
    ensures TimersInv(After(s, steps))
    decreases steps
  {
    if steps != [] { RunKeepsTimers(Next(s, steps[0]), steps[1..]); }
  }

  /**
   * No open stream is held for good: in every run its timeout is still to come, and a terminal
   * message sets up a closing; either one, when it fires, frees its place.
   */
  lemma EveryStreamCanEnd(steps: seq<Step>, id: StreamId)
    requires Run(EMPTY, steps) && id in OpenStreams(After(EMPTY, steps))
    ensures var s := After(EMPTY, steps);
            && Can(s, TimeoutFires(id)) && Next(s, TimeoutFires(id)).active == s.active - 1
            && Can(s, TerminalMessage(id))
            && var t := Next(s, TerminalMessage(id));
               Can(t, CloserFires(id)) && Next(t, CloserFires(id)).active == s.active - 1
  {
    RunKeepsTimers(EMPTY, steps);
    hide Run, After, Inv;
  }

  // ── The module's own counter and flags ──

  class SseService {
    var active: int
    var cleaned: map<StreamId, bool>

    /** The counter and the flags, as they stand in a state. */
    ghost predicate Shows(s: State)
      reads this
    {
      active == s.active && cleaned == map id | id in s.streams :: s.streams[id].cleaned
    }

    /** streamSSE up to the registration of its callbacks. */
    method StreamSse(id: StreamId, ghost s: State) returns (accepted: bool)
      requires Inv(s) && Shows(s) && Can(s, Open(id))
      modifies this
      ensures Shows(Next(s, Open(id)))
      ensures accepted <==> |OpenStreams(s)| < 50
      ensures active == |OpenStreams(s)| + if accepted then 1 else 0
    {
      if active >= MAX { return false; }
      active := active + 1;
      cleaned := cleaned[id := false];
      return true;
    }

    method RunCleanup(id: StreamId, ghost s: State)
      requires Inv(s) && Shows(s) && id in s.streams
      modifies this
      ensures Shows(Cleanup(s, id))
      ensures active == |OpenStreams(s) - {id}|
    {
      CleanupKeepsInv(s, id);
      if cleaned[id] { return; }
      cleaned := cleaned[id := true];
      active := active - 1;
    }
  }
}
