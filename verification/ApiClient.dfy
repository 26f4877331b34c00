/**
 * The browser client's 401 handling (client/src/lib/api.ts): one shared refresh, every waiting
 * request retried once; and that client in one tab against the server's single-use tokens.
 *
 * A promise settles and its waiters resume before anything else runs, so delivering a refresh
 * answer is one step.
 */
module ApiClient {
  import opened Prelude
  import RefreshRotation

  type Token = RefreshRotation.Token
  type Access = nat
  type Req = nat

  /** `sends` counts transmissions; `retried` is the mark the interceptor leaves on the request. */
  datatype Request = Request(sends: nat, retried: bool, phase: Phase)

  datatype Phase = InFlight(bearer: Option<Access>) | Waiting | Answered | Rejected

  datatype Client = Client(accessToken: Option<Access>, refreshing: bool, waiters: seq<Req>, requests: map<Req, Request>)

  predicate InFlightIn(c: Client, r: Req) {
    r in c.requests && c.requests[r].phase.InFlight?
  }

  function WithPhase(c: Client, r: Req, phase: Phase): Client
    requires r in c.requests
  {
    c.(requests := c.requests[r := c.requests[r].(phase := phase)])
  }

  /** The interceptor on a 401: the first one starts a refresh, later ones join it, a retry gives up. */
  function OnUnauthorized(c: Client, r: Req): Client
    requires InFlightIn(c, r)
  {
    if c.requests[r].retried then WithPhase(c, r, Rejected)
    else
      var marked := c.requests[r].(retried := true, phase := Waiting);
      c.(refreshing := true,
         waiters := if c.refreshing then c.waiters + [r] else [r],
         requests := c.requests[r := marked])
  }

  function Resend(requests: map<Req, Request>, waiters: seq<Req>, access: Access): map<Req, Request> {
    map r | r in requests ::
      if r in waiters then requests[r].(sends := requests[r].sends + 1, phase := InFlight(Some(access))) else requests[r]
  }

  function Drop(requests: map<Req, Request>, waiters: seq<Req>): map<Req, Request> {
    map r | r in requests :: if r in waiters then requests[r].(phase := Rejected) else requests[r]
  }

  function OnRefreshed(c: Client, access: Access): Client {
    Client(Some(access), false, [], Resend(c.requests, c.waiters, access))
  }

  function OnRefreshFailed(c: Client): Client {
    Client(None, false, [], Drop(c.requests, c.waiters))
  }

  // ── Client, network and server together ──

  /** A refresh request on its way to the server, or its answer on its way back. */
  datatype Call = Sent(presented: Option<Token>) | Granted(successor: Token, access: Access) | Refused(clearsCookie: bool)

  /**
   * `calls` are the refresh requests in flight. `reused`: the server has been shown a token that
   * was redeemed before. `lost`: an answer that granted a refresh never reached the client.
   */
  datatype State = State(
    client: Client, cookie: Option<Token>, calls: seq<Call>,
    sessions: map<Token, RefreshRotation.Session>, issued: set<Token>, redeemed: set<Token>,
    reused: bool, lost: bool)

  const EMPTY := State(Client(None, false, [], map[]), None, [], map[], {}, {}, false, false)

  datatype Step =
    | SignIn(token: Token, session: RefreshRotation.Session, access: Access)
    | Send(r: Req)
    | Succeed(r: Req)
    | Unauthorized(r: Req)
    | Handle(accepted: bool, successor: Token, access: Access, expiresAt: nat)
    | Break
    | Revoke(token: Token)
    | Lose
    | Deliver

  predicate Can(s: State, step: Step) {
    match step
    case SignIn(token, _, _) => token !in s.issued
    case Send(r) => r !in s.client.requests
    case Succeed(r) => InFlightIn(s.client, r)
    case Unauthorized(r) => InFlightIn(s.client, r)
    case Handle(_, successor, _, _) => s.calls != [] && s.calls[0].Sent? && successor !in s.issued
    case Break => s.calls != [] && s.calls[0].Sent?
    case Revoke(_) => true
    case Lose => s.calls != [] && s.calls[0].Granted?
    case Deliver => s.calls != [] && !s.calls[0].Sent?
  }

  function Next(s: State, step: Step): State
    requires Can(s, step)
  {
    match step
    case SignIn(token, session, access) =>
      s.(cookie := Some(token), sessions := s.sessions[token := session], issued := s.issued + {token},
         client := s.client.(accessToken := Some(access)))
    case Send(r) =>
      s.(client := s.client.(requests := s.client.requests[r := Request(1, false, InFlight(s.client.accessToken))]))
    case Succeed(r) => s.(client := WithPhase(s.client, r, Answered))
    case Unauthorized(r) =>
      var client := OnUnauthorized(s.client, r);
      s.(client := client, calls := if client.refreshing && !s.client.refreshing then s.calls + [Sent(s.cookie)] else s.calls)
    case Handle(accepted, successor, access, expiresAt) =>
      var p := s.calls[0].presented;
      var shown := s.(reused := s.reused || (p.Some? && p.value in s.redeemed));
      if accepted && p.Some? && p.value in s.sessions then
        shown.(sessions := (s.sessions - {p.value})[successor := RefreshRotation.Session(s.sessions[p.value].user, expiresAt)],
               issued := s.issued + {successor}, redeemed := s.redeemed + {p.value},
               calls := s.calls[0 := Granted(successor, access)])
      else shown.(calls := s.calls[0 := Refused(p.Some?)])
    case Break =>
      // the handler fails with something other than a 401: its transaction is undone, the cookie stays
      var p := s.calls[0].presented;
      s.(reused := s.reused || (p.Some? && p.value in s.redeemed), calls := s.calls[0 := Refused(false)])
    case Revoke(token) => s.(sessions := s.sessions - {token})
    case Lose => s.(calls := s.calls[0 := Refused(false)], lost := true)
    case Deliver =>
      var rest := s.calls[1..];
      match s.calls[0]
      case Granted(successor, access) => s.(calls := rest, cookie := Some(successor), client := OnRefreshed(s.client, access))
      case Refused(clears) => s.(calls := rest, cookie := if clears then None else s.cookie, client := OnRefreshFailed(s.client))
      case Sent(_) => s
  }

  predicate Run(s: State, steps: seq<Step>)
    decreases steps
  {
    steps == [] || (Can(s, steps[0]) && Run(Next(s, steps[0]), steps[1..]))
  }

  function After(s: State, steps: seq<Step>): State
    requires Run(s, steps)
    decreases steps
  {
    if steps == [] then s else After(Next(s, steps[0]), steps[1..])
  }

  // ── Invariants ──

  /** One refresh at most; the waiters are exactly the waiting requests; nothing is sent a third time. */
  ghost predicate ClientInv(s: State) {
    && |s.calls| == (if s.client.refreshing then 1 else 0)
    && (forall r :: r in s.client.waiters <==> r in s.client.requests && s.client.requests[r].phase.Waiting?)
    && (!s.client.refreshing ==> s.client.waiters == [])
    && (forall r :: r in s.client.requests ==>
          var q := s.client.requests[r];
          && q.sends <= 2
          && (q.phase.Waiting? ==> q.sends == 1 && q.retried)
          && (!q.retried ==> q.sends == 1))
  }

  /** What may be in the cookie or on its way to the server has not been redeemed, unless an answer got lost. */
  ghost predicate TokenInv(s: State) {
    && s.redeemed <= s.issued
    && s.sessions.Keys <= s.issued
    && s.redeemed !! s.sessions.Keys
    && (s.cookie.Some? ==> s.cookie.value in s.issued)
    && (s.calls != [] && s.calls[0].Granted? ==> s.calls[0].successor in s.issued && s.calls[0].successor !in s.redeemed)
    && (!s.lost ==>
          && !s.reused
          && (s.calls != [] && s.calls[0].Sent? && s.calls[0].presented.Some? ==>
                s.calls[0].presented.value !in s.redeemed && s.calls[0].presented.value in s.issued)
          && (s.cookie.Some? && s.cookie.value in s.redeemed ==> s.calls != [] && s.calls[0].Granted?))
  }

  lemma StepKeepsClientInv(s: State, step: Step)
    requires ClientInv(s) && Can(s, step)
    ensures ClientInv(Next(s, step))
  {
    var t := Next(s, step);
    match step
    case Unauthorized(r) =>
      if !s.client.requests[r].retried {
        assert t.client.waiters == s.client.waiters + [r];
      }
    case _ =>
  }

  lemma StepKeepsTokenInv(s: State, step: Step)
    requires ClientInv(s) && TokenInv(s) && Can(s, step)
    ensures TokenInv(Next(s, step))
  {
  }

  lemma {:induction false} RunKeepsInv(s: State, steps: seq<Step>)
    requires ClientInv(s) && TokenInv(s) && Run(s, steps)
    ensures ClientInv(After(s, steps)) && TokenInv(After(s, steps))
    decreases steps
  {
    if steps != [] {
      StepKeepsClientInv(s, steps[0]);
      StepKeepsTokenInv(s, steps[0]);
      RunKeepsInv(Next(s, steps[0]), steps[1..]);
    }
  }

  /** In every run at most one refresh is in flight and no request is sent more than twice. */
  lemma SingleFlight(steps: seq<Step>)
    requires Run(EMPTY, steps)
    ensures var s := After(EMPTY, steps);
            && |s.calls| <= 1
            && forall r :: r in s.client.requests ==> s.client.requests[r].sends <= 2
  {
    RunKeepsInv(EMPTY, steps);
  }

  /**
   * At every point of every run, the first 401 on a request leaves it waiting on exactly one refresh:
   * the one under way, if there is one, and otherwise one that presents the cookie. The second 401 on
   * a request rejects it. Nothing else changes.
   */
  lemma UnauthorizedJoinsRefresh(steps: seq<Step>, r: Req)
    requires Run(EMPTY, steps) && Can(After(EMPTY, steps), Unauthorized(r))
    ensures var s := After(EMPTY, steps);
            var t := Next(s, Unauthorized(r));
            && r in s.client.requests && r in t.client.requests
            && (if s.client.requests[r].retried
                then t.client.requests[r].phase == Rejected && t.calls == s.calls && t.client.waiters == s.client.waiters
                else && t.client.requests[r] == Request(1, true, Waiting) && r in t.client.waiters
                     && t.client.refreshing && |t.calls| == 1
                     && t.calls == (if s.calls == [] then [Sent(s.cookie)] else s.calls)
                     && forall q :: q in s.client.waiters ==> q in t.client.waiters)
            && (forall q :: q in s.client.requests && q != r ==> q in t.client.requests && t.client.requests[q] == s.client.requests[q])
            && t.cookie == s.cookie && t.client.accessToken == s.client.accessToken && t.sessions == s.sessions
  {
    RunKeepsInv(EMPTY, steps);
    StepKeepsClientInv(After(EMPTY, steps), Unauthorized(r));
  }

  /** It goes on waiting until an answer to the refresh is delivered. */
  lemma {:induction false} WaitsForDelivery(s: State, steps: seq<Step>, r: Req)
    requires ClientInv(s) && Run(s, steps) && r in s.client.requests && s.client.requests[r].phase.Waiting? && Deliver !in steps
    ensures var t := After(s, steps); r in t.client.requests && t.client.requests[r] == s.client.requests[r] && |t.calls| == 1
    decreases steps
  {
    if steps != [] {
      assert steps[0] in steps;
      StepKeepsClientInv(s, steps[0]);
      OtherStepWaits(s, steps[0], r);
      hide ClientInv, Next, Can;
      WaitsForDelivery(Next(s, steps[0]), steps[1..], r);
    } else {
      assert s.client.refreshing;
    }
  }

  lemma OtherStepWaits(s: State, step: Step, r: Req)
    requires ClientInv(s) && Can(s, step) && !step.Deliver? && r in s.client.requests && s.client.requests[r].phase.Waiting?
    ensures r in Next(s, step).client.requests && Next(s, step).client.requests[r] == s.client.requests[r]
  {
  }

  /** Every request that waited on one refresh is sent again with the one token it brought; nobody else is. */
  lemma WaitersShareOneToken(steps: seq<Step>, r: Req)
    requires Run(EMPTY, steps) && Can(After(EMPTY, steps), Deliver) && After(EMPTY, steps).calls[0].Granted?
    requires r in After(EMPTY, steps).client.requests
    ensures var s := After(EMPTY, steps);
            var before, after := s.client.requests[r], Next(s, Deliver).client.requests[r];
            && (if before.phase.Waiting? then after == Request(2, true, InFlight(Some(s.calls[0].access))) else after == before)
            && Next(s, Deliver).client.accessToken == Some(s.calls[0].access) && Next(s, Deliver).cookie == Some(s.calls[0].successor)
            && !Next(s, Deliver).client.refreshing && Next(s, Deliver).client.waiters == []
  {
    RunKeepsInv(EMPTY, steps);
  }

  /** A refresh that fails rejects everyone who waited on it, and nobody is left waiting. */
  lemma FailureRejectsWaiters(steps: seq<Step>, r: Req)
    requires Run(EMPTY, steps) && Can(After(EMPTY, steps), Deliver) && After(EMPTY, steps).calls[0].Refused?
    requires r in After(EMPTY, steps).client.requests
    ensures var s := After(EMPTY, steps);
            var t := Next(s, Deliver);
            && t.client.accessToken == None && !t.client.refreshing && t.client.waiters == []
            && t.cookie == (if s.calls[0].clearsCookie then None else s.cookie)
            && (s.client.requests[r].phase.Waiting? ==> t.client.requests[r].phase == Rejected)
            && (!s.client.requests[r].phase.Waiting? ==> t.client.requests[r] == s.client.requests[r])
  {
    RunKeepsInv(EMPTY, steps);
  }

  /** The server is never shown a redeemed token, in any run in which no granted answer is lost. */
  lemma NoReuseUnlessLost(steps: seq<Step>)
    requires Run(EMPTY, steps)
    ensures After(EMPTY, steps).reused ==> Lose in steps
  {
    RunKeepsInv(EMPTY, steps);
    LostNeedsLose(EMPTY, steps);
  }

  lemma {:induction false} LostNeedsLose(s: State, steps: seq<Step>)
    requires Run(s, steps) && !s.lost
    ensures After(s, steps).lost ==> Lose in steps
    decreases steps
  {
    if steps != [] && steps[0] != Lose {
      LostNeedsLose(Next(s, steps[0]), steps[1..]);
    }
  }

  /** What the server does with an accepted refresh is the atomic redemption its handlers refine. */
  lemma HandleRedeems(s: State, step: Step)
    requires TokenInv(s) && step.Handle? && Can(s, step)
    ensures var t := Next(s, step);
            var p := s.calls[0].presented;
            if t.redeemed == s.redeemed then t.sessions == s.sessions
            else p.Some? && RefreshRotation.Redeems(s.sessions, t.sessions, p.value, step.successor)
  {
    var p := s.calls[0].presented;
    if step.accepted && p.Some? && p.value in s.sessions {
      assert p.value !in s.redeemed;
    }
  }

  /** A refresh presenting the live cookie is granted, and its answer gets lost. */
  function LosingSteps(successor: Token, access: Access): seq<Step> {
    [Handle(true, successor, access, 0), Lose, Deliver]
  }

  /** A new request runs into a 401 and its refresh reaches the server. */
  function RefreshingSteps(r: Req, successor: Token, access: Access): seq<Step> {
    [Send(r), Unauthorized(r), Handle(false, successor, access, 0)]
  }

  lemma ThreeSteps(s: State, steps: seq<Step>)
    requires |steps| == 3
    requires Can(s, steps[0]) && Can(Next(s, steps[0]), steps[1])
    requires Can(Next(Next(s, steps[0]), steps[1]), steps[2])
    ensures Run(s, steps) && After(s, steps) == Next(Next(Next(s, steps[0]), steps[1]), steps[2])
  {
    hide Can, Next;
    var s1 := Next(s, steps[0]);
    var s2 := Next(s1, steps[1]);
    assert steps[1..][0] == steps[1] && steps[1..][1..] == steps[2..] && steps[2..][0] == steps[2];
    assert Run(s2, steps[2..]) && After(s2, steps[2..]) == Next(s2, steps[2]);
    assert Run(s1, steps[1..]) && After(s1, steps[1..]) == Next(s2, steps[2]);
  }

  lemma LosingKeepsRedeemedCookie(s: State, successor: Token, access: Access)
    requires |s.calls| == 1 && s.calls[0] == Sent(s.cookie) && s.cookie.Some? && s.cookie.value in s.sessions
    requires successor !in s.issued
    ensures Run(s, LosingSteps(successor, access))
    ensures var t := After(s, LosingSteps(successor, access));
            && t.calls == [] && !t.client.refreshing && t.cookie == s.cookie && s.cookie.value in t.redeemed
            && t.client.requests.Keys == s.client.requests.Keys && t.issued == s.issued + {successor}
  {
    ThreeSteps(s, LosingSteps(successor, access));
  }

  lemma RedeemedCookieIsShown(s: State, r: Req, successor: Token, access: Access)
    requires s.calls == [] && !s.client.refreshing && s.cookie.Some? && s.cookie.value in s.redeemed
    requires r !in s.client.requests && successor !in s.issued
    ensures Run(s, RefreshingSteps(r, successor, access)) && After(s, RefreshingSteps(r, successor, access)).reused
  {
    ThreeSteps(s, RefreshingSteps(r, successor, access));
  }

  /**
   * The condition is needed: whatever state a refresh starts from, when its granted answer gets lost,
   * the next refresh shows the server a redeemed token.
   */
  lemma LostAnswerLeadsToReuse(s: State, r: Req, successor: Token, next: Token, access: Access) returns (t: State)
    requires |s.calls| == 1 && s.calls[0] == Sent(s.cookie) && s.cookie.Some? && s.cookie.value in s.sessions
    requires r !in s.client.requests && successor !in s.issued && next !in s.issued && next != successor
    ensures Run(s, LosingSteps(successor, access)) && t == After(s, LosingSteps(successor, access))
    ensures Run(t, RefreshingSteps(r, next, access)) && After(t, RefreshingSteps(r, next, access)).reused
  {
    hide *;
    LosingKeepsRedeemedCookie(s, successor, access);
    t := After(s, LosingSteps(successor, access));
    RedeemedCookieIsShown(t, r, next, access);
  }

  /** A refresh is granted exactly when the server accepts a token that is stored; a 401 clears the cookie that was shown. */
  lemma HandleAnswers(s: State, step: Step)
    requires step.Handle? && Can(s, step)
    ensures var t := Next(s, step);
            var p := s.calls[0].presented;
            && |t.calls| == |s.calls|
            && (if step.accepted && p.Some? && p.value in s.sessions
                then t.calls[0] == Granted(step.successor, step.access) && step.successor in t.sessions && p.value in t.redeemed
                else t.calls[0] == Refused(p.Some?) && t.sessions == s.sessions && t.redeemed == s.redeemed)
  {
  }

  // ── The interceptor's own code ──

  class Interceptor {
    var accessToken: Option<Access>
    var refreshing: bool
    var waiters: seq<Req>
    var requests: map<Req, Request>

    function C(): Client
      reads this
    {
      Client(accessToken, refreshing, waiters, requests)
    }

    /** The response interceptor up to `await doRefresh()`; the result says whether it posts a refresh. */
    method HandleUnauthorized(r: Req) returns (posts: bool)
      requires InFlightIn(C(), r)
      modifies this
      ensures C() == OnUnauthorized(old(C()), r)
      ensures posts <==> !old(requests)[r].retried && !old(refreshing)
      ensures !old(requests)[r].retried ==>
                && refreshing && waiters == (if old(refreshing) then old(waiters) + [r] else [r])
                && requests == old(requests)[r := old(requests)[r].(retried := true, phase := Waiting)]
      ensures old(requests)[r].retried ==>
                && refreshing == old(refreshing) && waiters == old(waiters)
                && requests == old(requests)[r := old(requests)[r].(phase := Rejected)]
    {
      posts := false;
      if !requests[r].retried {
        requests := requests[r := requests[r].(retried := true, phase := Waiting)];
        if refreshing {
          waiters := waiters + [r];
        } else {
          refreshing, waiters, posts := true, [r], true;
        }
      } else {
        requests := requests[r := requests[r].(phase := Rejected)];
      }
    }

    /** The refresh resolves: the promise is cleared, then each waiter is sent again. */
    method ResolveRefresh(access: Access)
      requires forall r :: r in waiters ==> r in requests
      requires forall i, j :: 0 <= i < j < |waiters| ==> waiters[i] != waiters[j]
      modifies this
      ensures C() == OnRefreshed(old(C()), access)
    {
      accessToken := Some(access);
      refreshing := false;
      var resumed := waiters;
      waiters := [];
      for i := 0 to |resumed|
        invariant accessToken == Some(access) && !refreshing && waiters == []
        invariant requests == Resend(old(requests), resumed[..i], access)
      {
        var r := resumed[i];
        requests := requests[r := requests[r].(sends := requests[r].sends + 1, phase := InFlight(accessToken))];
        assert resumed[..i + 1] == resumed[..i] + [r];
      }
      assert resumed[..|resumed|] == resumed;
    }

    /** The refresh fails: sign out, reject every waiter. */
    method FailRefresh()
      requires forall r :: r in waiters ==> r in requests
      modifies this
      ensures C() == OnRefreshFailed(old(C()))
    {
      accessToken := None;
      refreshing := false;
      var resumed := waiters;
      waiters := [];
      for i := 0 to |resumed|
        invariant accessToken == None && !refreshing && waiters == []
        invariant requests == Drop(old(requests), resumed[..i])
      {
        var r := resumed[i];
        requests := requests[r := requests[r].(phase := Rejected)];
        assert resumed[..i + 1] == resumed[..i] + [r];
      }
      assert resumed[..|resumed|] == resumed;
    }
  }
}
