/**
 * The session controller of the accessory as a state machine: the connect
 * chain (src/DacpAccessory.js:155-166), the update loop (93-110), the
 * client-error handler (133-153) and the discovery triggers (82-91).
 *
 * Promises become explicit completion events. Every promise chain that the
 * source has running is one outstanding request in `inFlight`, listed in the
 * order the requests were issued; a completion names its request by position,
 * retires it, and whatever the chain does next is appended. Timers all wait
 * the same 120 seconds, so they fire in the order they were scheduled.
 * `effects` records, in order, every call the controller makes on the client
 * and on the projectors, and every timer it schedules.
 */
module Session {
  import opened Wrappers
  import opened Endpoints
  import opened Updates
  import opened RetryPolicy

  /** An outstanding client request, one per running promise chain. */
  datatype Request = LoginRequest | ServerInfoRequest | UpdateRequest

  datatype Effect =
    | Login(remote: Option<Endpoint>, pairing: string)  // the client receives `host: LoginHost(remote)`
    | Logout
    | GetServerInfo
    | GetUpdate
    | UpdateNowPlaying(nowPlaying: NowPlaying)
    | UpdatePlayerState(controls: PlayerState)
    | SpeakerUpdate
    | SetTimeout(delayMs: nat)

  /** A server-info response; `msrv` carries the advertised device name. */
  datatype ServerInfo = ServerInfo(msrv: Option<string>)

  datatype Event =
    | ServiceUp(host: string, port: nat)
    | ServiceDown
    | LoginOk(i: nat)
    | LoginFail(i: nat)
    | ServerInfoOk(i: nat, info: ServerInfo)
    | ServerInfoFail(i: nat)
    | UpdateOk(i: nat, response: UpdateResponse)
    | UpdateFail(i: nat)
    | ClientError
    | TimerFired

  /**
   * The controller's state: the configured pairing code, whether a speaker
   * service exists, the discovered endpoint, the client-error counter, the
   * outstanding requests, the pending reconnect timers and the effect log.
   */
  datatype State = State(
    pairing: string,
    speaker: bool,
    remote: Option<Endpoint>,
    errors: nat,
    inFlight: seq<Request>,
    timers: seq<nat>,
    effects: seq<Effect>)

  function Initial(pairing: string, speaker: bool): State {
    State(pairing, speaker, None, 0, [], [], [])
  }

  predicate Outstanding(s: State, i: nat, q: Request) {
    i < |s.inFlight| && s.inFlight[i] == q
  }

  /** A completion can only arrive for a request of its kind that is outstanding; a timer only when one is pending. */
  predicate Enabled(s: State, e: Event) {
    match e
    case LoginOk(i) => Outstanding(s, i, LoginRequest)
    case LoginFail(i) => Outstanding(s, i, LoginRequest)
    case ServerInfoOk(i, _) => Outstanding(s, i, ServerInfoRequest)
    case ServerInfoFail(i) => Outstanding(s, i, ServerInfoRequest)
    case UpdateOk(i, _) => Outstanding(s, i, UpdateRequest)
    case UpdateFail(i) => Outstanding(s, i, UpdateRequest)
    case TimerFired => s.timers != []
    case _ => true
  }

  /** The events that reach the catch of the connect chain (lines 160-165). */
  predicate ConnectFailure(e: Event) {
    e.LoginFail? || e.ServerInfoFail? || (e.ServerInfoOk? && e.info.msrv.None?)
  }

  /** The events that start a new connect chain. */
  predicate StartsChain(e: Event) {
    e.ServiceUp? || e.TimerFired?
  }

  function Retire(s: State, i: nat): (r: State)
    requires i < |s.inFlight|
    ensures |r.inFlight| == |s.inFlight| - 1
  {
    s.(inFlight := s.inFlight[..i] + s.inFlight[i + 1..])
  }

  /** Chain `i` goes on with its next request `q`, after the calls `calls`. */
  function Continue(s: State, i: nat, q: Request, calls: seq<Effect>): (r: State)
    requires i < |s.inFlight|
    ensures |r.inFlight| == |s.inFlight|
  {
    var t := Retire(s, i);
    t.(inFlight := t.inFlight + [q], effects := s.effects + calls)
  }

  /**
   * A connect failure on chain `i` (lines 155-165): log out, then log in again
   * at once against the endpoint known now.
   */
  function Relogin(s: State, i: nat): State
    requires i < |s.inFlight|
  {
    Continue(s, i, LoginRequest, [Logout, Login(s.remote, s.pairing)])
  }

  /**
   * The projector calls for one update response (lines 96-105): the now-playing
   * and player-controls slices when the response has a status record, then the
   * speaker tick when a speaker service exists.
   */
  function PollEffects(response: UpdateResponse, speaker: bool): seq<Effect> {
    var slices :=
      match SlicesOf(response)
      case None => []
      case Some(sl) => [UpdateNowPlaying(sl.nowPlaying), UpdatePlayerState(sl.controls)];
    var tick := if speaker then [SpeakerUpdate] else [];
    slices + tick
  }

  /**
   * Without a status record only the speaker tick (if any) happens; with one,
   * the now-playing slice of `cmst` goes out first, then a player-controls
   * slice with the same play status, then the speaker tick (if any).
   */
  lemma PollEffectsShape(response: UpdateResponse, speaker: bool)
    ensures var r := PollEffects(response, speaker);
      (response.cmst.None? ==> r == if speaker then [SpeakerUpdate] else []) &&
      (response.cmst.Some? ==>
        |r| >= 2 &&
        r[0] == UpdateNowPlaying(NowPlayingOf(response.cmst.value)) &&
        r[1] == UpdatePlayerState(PlayerState(r[0].nowPlaying.playerState)) &&
        r[2..] == if speaker then [SpeakerUpdate] else [])
  {
  }

  /** The number of timers recorded in an effect log. */
  function TimersScheduled(effects: seq<Effect>): nat
    decreases |effects|
  {
    if effects == [] then 0
    else TimersScheduled(effects[..|effects| - 1]) + (if effects[|effects| - 1].SetTimeout? then 1 else 0)
  }

  lemma {:induction false} TimersScheduledAppend(a: seq<Effect>, b: seq<Effect>)
    ensures TimersScheduled(a + b) == TimersScheduled(a) + TimersScheduled(b)
    decreases |b|
  {
    if b == [] {
      assert a + b == a;
    } else {
      assert (a + b)[..|a + b| - 1] == a + b[..|b| - 1];
      assert (a + b)[|a + b| - 1] == b[|b| - 1];
      TimersScheduledAppend(a, b[..|b| - 1]);
    }
  }

  /**
   * One event. A discovery event or a timer logs in against the endpoint known
   * then and starts a chain. A completion retires its request, and the chain
   * goes on with its next request: the server info after a login, polling
   * after the server info, the next poll after an update (whose projections
   * are forwarded first), and a logout and new login after a connect failure
   * (lines 155-165). A failed update ends its chain. A client error logs out
   * and may schedule a reconnect.
   */
  function Next(s: State, e: Event): State
    requires Enabled(s, e)
  {
    match e
    case ServiceUp(host, port) =>
      var remote := Some(Endpoint(host, port));
      s.(remote := remote, inFlight := s.inFlight + [LoginRequest],
         effects := s.effects + [Login(remote, s.pairing)])
    case ServiceDown => s.(effects := s.effects + [Logout])
    case LoginOk(i) => Continue(s, i, ServerInfoRequest, [GetServerInfo])
    case LoginFail(i) => Relogin(s, i)
    case ServerInfoOk(i, info) =>
      if info.msrv.Some? then Continue(s, i, UpdateRequest, [GetUpdate]) else Relogin(s, i)
    case ServerInfoFail(i) => Relogin(s, i)
    case UpdateOk(i, response) =>
      Continue(s, i, UpdateRequest, PollEffects(response, s.speaker) + [GetUpdate])
    case UpdateFail(i) => Retire(s, i)
    case ClientError =>
      var step := OnFailure(s.errors);
      (match step.decision
       case Reconnect(delay) =>
         s.(errors := step.errors, timers := s.timers + [delay],
            effects := s.effects + [Logout, SetTimeout(delay)])
       case GiveUp => s.(errors := step.errors, effects := s.effects + [Logout]))
    case TimerFired =>
      s.(timers := s.timers[1..], inFlight := s.inFlight + [LoginRequest],
         effects := s.effects + [Login(s.remote, s.pairing)])
  }

  /**
   * Only a discovery event or a reconnect timer starts a promise chain, and
   * only a failed update ends one; every other event continues or restarts the
   * chain it completes, so the number of outstanding requests stays the same.
   */
  lemma StepRequests(s: State, e: Event)
    requires Enabled(s, e)
    ensures |Next(s, e).inFlight| + (if e.UpdateFail? then 1 else 0) ==
      |s.inFlight| + (if StartsChain(e) then 1 else 0)
  {
    match e
    case LoginOk(i) =>
    case LoginFail(i) =>
    case ServerInfoOk(i, _) =>
    case ServerInfoFail(i) =>
    case UpdateOk(i, _) =>
    case UpdateFail(i) =>
    case _ =>
  }

  /**
   * The pairing code and the speaker never change; only a discovery event
   * changes the endpoint, only a client error changes the counter, and the
   * effect log only grows.
   */
  lemma StepFrame(s: State, e: Event)
    requires Enabled(s, e)
    ensures Next(s, e).pairing == s.pairing && Next(s, e).speaker == s.speaker
    ensures Next(s, e).remote == if e.ServiceUp? then Some(Endpoint(e.host, e.port)) else s.remote
    ensures Next(s, e).errors == if e.ClientError? then s.errors + 1 else s.errors
    ensures s.effects <= Next(s, e).effects
  {
  }

  /**
   * A discovery event or a reconnect timer: exactly one login, against the
   * endpoint known after the event, with the configured pairing code, and one
   * new chain; a timer that fires is the oldest pending one and leaves the
   * list. The counter is untouched.
   */
  lemma StepStartsChain(s: State, e: Event)
    requires Enabled(s, e) && StartsChain(e)
    ensures Next(s, e).effects == s.effects + [Login(Next(s, e).remote, s.pairing)]
    ensures Next(s, e).inFlight == s.inFlight + [LoginRequest]
    ensures Next(s, e).timers == (if e.TimerFired? then s.timers[1..] else s.timers)
    ensures Next(s, e).errors == s.errors
  {
  }

  /** A loss of the service logs out once and changes nothing else (lines 89-91). */
  lemma StepServiceDown(s: State)
    ensures Next(s, ServiceDown) == s.(effects := s.effects + [Logout])
  {
  }

  /**
   * A successful login moves its chain on to the server info; a server info
   * with its `msrv` record moves it on to polling. Each makes exactly that one
   * call, and the endpoint, the counter and the timers are untouched.
   */
  lemma StepConnectProgress(s: State, e: Event)
    requires Enabled(s, e) && (e.LoginOk? || (e.ServerInfoOk? && e.info.msrv.Some?))
    ensures e.LoginOk? ==>
      Next(s, e).effects == s.effects + [GetServerInfo] &&
      Next(s, e).inFlight == Retire(s, e.i).inFlight + [ServerInfoRequest]
    ensures e.ServerInfoOk? ==>
      Next(s, e).effects == s.effects + [GetUpdate] &&
      Next(s, e).inFlight == Retire(s, e.i).inFlight + [UpdateRequest]
    ensures Next(s, e).remote == s.remote && Next(s, e).errors == s.errors && Next(s, e).timers == s.timers
  {
  }

  /**
   * A failed login, a failed server-info request, or a server-info response
   * without its `msrv` record: one logout, then at once a new login against the
   * same endpoint; the counter, the endpoint and the timers are untouched.
   */
  lemma StepConnectFailure(s: State, e: Event)
    requires Enabled(s, e) && ConnectFailure(e)
    ensures Next(s, e).effects == s.effects + [Logout, Login(s.remote, s.pairing)]
    ensures Next(s, e).errors == s.errors && Next(s, e).remote == s.remote && Next(s, e).timers == s.timers
  {
  }

  /**
   * A successful update forwards the projections and only then requests the
   * next update; a failed update ends its chain and does nothing else.
   */
  lemma StepUpdate(s: State, e: Event)
    requires Enabled(s, e) && (e.UpdateOk? || e.UpdateFail?)
    ensures e.UpdateOk? ==>
      Next(s, e).effects == s.effects + PollEffects(e.response, s.speaker) + [GetUpdate] &&
      Next(s, e).inFlight == Retire(s, e.i).inFlight + [UpdateRequest]
    ensures e.UpdateFail? ==>
      Next(s, e).effects == s.effects && Next(s, e).inFlight == Retire(s, e.i).inFlight
    ensures Next(s, e).errors == s.errors && Next(s, e).timers == s.timers
  {
  }

  /**
   * A client error logs out, and schedules one reconnect after 120 seconds
   * exactly when the new count is below five.
   */
  lemma StepClientError(s: State)
    ensures Next(s, ClientError).effects ==
      s.effects + [Logout] + (if s.errors + 1 < MaxFailures then [SetTimeout(RetryDelayMs)] else [])
    ensures Next(s, ClientError).timers ==
      s.timers + (if s.errors + 1 < MaxFailures then [RetryDelayMs] else [])
    ensures Next(s, ClientError).inFlight == s.inFlight
  {
  }

  lemma {:induction false} NoTimers(effects: seq<Effect>)
    requires forall k :: 0 <= k < |effects| ==> !effects[k].SetTimeout?
    ensures TimersScheduled(effects) == 0
    decreases |effects|
  {
    if effects != [] {
      NoTimers(effects[..|effects| - 1]);
    }
  }

  /** Calls without a timer leave the number of recorded timers as it was. */
  lemma AppendNoTimers(log: seq<Effect>, calls: seq<Effect>)
    requires forall k :: 0 <= k < |calls| ==> !calls[k].SetTimeout?
    ensures TimersScheduled(log + calls) == TimersScheduled(log)
  {
    TimersScheduledAppend(log, calls);
    NoTimers(calls);
  }

  /** Only a client error below the limit schedules a reconnect timer. */
  lemma StepTimers(s: State, e: Event)
    requires Enabled(s, e)
    ensures TimersScheduled(Next(s, e).effects) ==
      TimersScheduled(s.effects) + (if e.ClientError? && s.errors + 1 < MaxFailures then 1 else 0)
  {
    match e
    case ClientError =>
      if s.errors + 1 < MaxFailures {
        assert Next(s, e).effects == (s.effects + [Logout]) + [SetTimeout(RetryDelayMs)];
        AppendNoTimers(s.effects, [Logout]);
      } else {
        AppendNoTimers(s.effects, [Logout]);
      }
    case UpdateOk(i, response) =>
      var calls := PollEffects(response, s.speaker) + [GetUpdate];
      assert Next(s, e).effects == s.effects + calls;
      AppendNoTimers(s.effects, calls);
    case ServiceUp(host, port) =>
      AppendNoTimers(s.effects, [Login(Some(Endpoint(host, port)), s.pairing)]);
    case ServiceDown =>
      AppendNoTimers(s.effects, [Logout]);
    case LoginOk(_) =>
      AppendNoTimers(s.effects, [GetServerInfo]);
    case LoginFail(_) =>
      AppendNoTimers(s.effects, [Logout, Login(s.remote, s.pairing)]);
    case ServerInfoOk(_, info) =>
      AppendNoTimers(s.effects, [GetUpdate]);
      AppendNoTimers(s.effects, [Logout, Login(s.remote, s.pairing)]);
    case ServerInfoFail(_) =>
      AppendNoTimers(s.effects, [Logout, Login(s.remote, s.pairing)]);
    case UpdateFail(_) =>
    case TimerFired =>
      AppendNoTimers(s.effects, [Login(s.remote, s.pairing)]);
  }

  /** A scheduled reconnect joins the pending timers; a firing timer leaves them. */
  lemma StepPendingTimers(s: State, e: Event)
    requires Enabled(s, e)
    ensures |Next(s, e).timers| + (if e.TimerFired? then 1 else 0) ==
      |s.timers| + (if e.ClientError? && s.errors + 1 < MaxFailures then 1 else 0)
  {
  }

  // ---- Runs of events -----------------------------------------------------

  /** Every event of the run can happen when it arrives. */
  predicate Feasible(s: State, es: seq<Event>)
    decreases |es|
  {
    es == [] || (Enabled(s, es[0]) && Feasible(Next(s, es[0]), es[1..]))
  }

  /** The state after a run of events. */
  function Run(s: State, es: seq<Event>): State
    requires Feasible(s, es)
    decreases |es|
  {
    if es == [] then s else Run(Next(s, es[0]), es[1..])
  }

  function ClientErrors(es: seq<Event>): nat
    decreases |es|
  {
    if es == [] then 0 else (if es[0].ClientError? then 1 else 0) + ClientErrors(es[1..])
  }

  function ChainStarts(es: seq<Event>): nat
    decreases |es|
  {
    if es == [] then 0 else (if StartsChain(es[0]) then 1 else 0) + ChainStarts(es[1..])
  }

  function UpdateFailures(es: seq<Event>): nat
    decreases |es|
  {
    if es == [] then 0 else (if es[0].UpdateFail? then 1 else 0) + UpdateFailures(es[1..])
  }

  /**
   * Over any run, the counter grows by the number of client errors, and the
   * reconnect timers scheduled are exactly those the retry rule grants to that
   * many successive failures from the starting count.
   */
  lemma {:induction false} ReconnectsOverRun(s: State, es: seq<Event>)
    requires Feasible(s, es)
    ensures Run(s, es).errors == s.errors + ClientErrors(es)
    ensures TimersScheduled(Run(s, es).effects) ==
      TimersScheduled(s.effects) + Reconnects(s.errors, ClientErrors(es))
    decreases |es|
  {
    if es != [] {
      StepFrame(s, es[0]);
      StepTimers(s, es[0]);
      ReconnectsOverRun(Next(s, es[0]), es[1..]);
    }
  }

  /** Once four failures have been counted, no run schedules another reconnect. */
  lemma GivesUpForGood(s: State, es: seq<Event>)
    requires Feasible(s, es) && s.errors + 1 >= MaxFailures
    ensures TimersScheduled(Run(s, es).effects) == TimersScheduled(s.effects)
  {
    ReconnectsOverRun(s, es);
    ReconnectsClosedForm(s.errors, ClientErrors(es));
  }

  /** Over the accessory's whole life at most four reconnects are ever scheduled. */
  lemma AtMostFourReconnects(pairing: string, speaker: bool, es: seq<Event>)
    requires Feasible(Initial(pairing, speaker), es)
    ensures TimersScheduled(Run(Initial(pairing, speaker), es).effects) <= MaxFailures - 1
  {
    ReconnectsOverRun(Initial(pairing, speaker), es);
    ReconnectsClosedForm(0, ClientErrors(es));
  }

  /**
   * Outstanding requests are accounted for exactly: each discovery event or
   * reconnect timer adds one chain, each failed update ends one, and nothing
   * else changes their number.
   */
  lemma {:induction false} RequestsOverRun(s: State, es: seq<Event>)
    requires Feasible(s, es)
    ensures |Run(s, es).inFlight| + UpdateFailures(es) == |s.inFlight| + ChainStarts(es)
    decreases |es|
  {
    if es != [] {
      StepRequests(s, es[0]);
      RequestsOverRun(Next(s, es[0]), es[1..]);
    }
  }

  /**
   * With a single chain running and no new discovery event or timer, at most
   * one request (and so at most one `getUpdate`) is ever outstanding.
   */
  lemma SingleChainStaysSingle(s: State, es: seq<Event>)
    requires Feasible(s, es) && |s.inFlight| <= 1 && ChainStarts(es) == 0
    ensures |Run(s, es).inFlight| <= 1
  {
    RequestsOverRun(s, es);
  }

  /** One round of the update loop: the projections of a response, then the next request. */
  function Round(response: UpdateResponse, speaker: bool): seq<Effect> {
    PollEffects(response, speaker) + [GetUpdate]
  }

  /** The effects of successive rounds, in the order the responses arrived. */
  function Rounds(responses: seq<UpdateResponse>, speaker: bool): seq<Effect>
    decreases |responses|
  {
    if responses == [] then [] else Round(responses[0], speaker) + Rounds(responses[1..], speaker)
  }

  /** Each response completes the single outstanding update. */
  function Polls(responses: seq<UpdateResponse>): seq<Event>
    decreases |responses|
  {
    if responses == [] then [] else [UpdateOk(0, responses[0])] + Polls(responses[1..])
  }

  /** A run that starts with `e` is `e` followed by the rest of the run. */
  lemma RunCons(s: State, e: Event, rest: seq<Event>)
    requires Enabled(s, e) && Feasible(Next(s, e), rest)
    ensures Feasible(s, [e] + rest)
    ensures Run(s, [e] + rest) == Run(Next(s, e), rest)
  {
    assert ([e] + rest)[1..] == rest;
  }

  /** A run of `a` then `b` is the run of `b` from where the run of `a` ends. */
  lemma {:induction false} RunAppend(s: State, a: seq<Event>, b: seq<Event>)
    requires Feasible(s, a) && Feasible(Run(s, a), b)
    ensures Feasible(s, a + b) && Run(s, a + b) == Run(Run(s, a), b)
    decreases |a|
  {
    if a == [] {
      assert a + b == b;
    } else {
      assert (a + b)[0] == a[0] && (a + b)[1..] == a[1..] + b;
      RunAppend(Next(s, a[0]), a[1..], b);
    }
  }

  /** One round on the single outstanding update. */
  lemma PollStep(s: State, response: UpdateResponse)
    requires s.inFlight == [UpdateRequest]
    ensures Enabled(s, UpdateOk(0, response))
    ensures Next(s, UpdateOk(0, response)) == s.(effects := s.effects + Round(response, s.speaker))
  {
    StepFrame(s, UpdateOk(0, response));
    StepUpdate(s, UpdateOk(0, response));
  }

  /** A round on the single outstanding update, followed by the rest of a run. */
  lemma PollCons(s: State, response: UpdateResponse, rest: seq<Event>)
    requires s.inFlight == [UpdateRequest]
    requires Feasible(s.(effects := s.effects + Round(response, s.speaker)), rest)
    ensures Feasible(s, [UpdateOk(0, response)] + rest)
    ensures Run(s, [UpdateOk(0, response)] + rest)
         == Run(s.(effects := s.effects + Round(response, s.speaker)), rest)
  {
    PollStep(s, response);
    RunCons(s, UpdateOk(0, response), rest);
  }

  /**
   * The update loop is sequential: with one update outstanding, successive
   * responses each forward their projections and then issue exactly one new
   * `getUpdate`, in the order the responses arrived, and nothing else changes.
   */
  lemma {:induction false} PollingIsSequential(s: State, responses: seq<UpdateResponse>)
    requires s.inFlight == [UpdateRequest]
    ensures Feasible(s, Polls(responses))
    ensures Run(s, Polls(responses)) == s.(effects := s.effects + Rounds(responses, s.speaker))
    decreases |responses|
  {
    if responses != [] {
      var rest := Polls(responses[1..]);
      assert Polls(responses) == [UpdateOk(0, responses[0])] + rest;
      var t := s.(effects := s.effects + Round(responses[0], s.speaker));
      PollingIsSequential(t, responses[1..]);
      PollCons(s, responses[0], rest);
      assert t.effects + Rounds(responses[1..], s.speaker) == s.effects + Rounds(responses, s.speaker);
    }
  }

  // ---- Scenarios ----------------------------------------------------------

  /**
   * Discovery of 10.0.0.5:3689, then a successful login and server-info: the
   * client sees the login for that endpoint (whose host string is
   * "10.0.0.5:3689", `Endpoints.LoginHostExample`), the server-info request and
   * then one `getUpdate`.
   */
  lemma ConnectScenario(pairing: string, speaker: bool, name: string)
    ensures var es := [ServiceUp("10.0.0.5", 3689), LoginOk(0), ServerInfoOk(0, ServerInfo(Some(name)))];
      var endpoint := Some(Endpoint("10.0.0.5", 3689));
      Feasible(Initial(pairing, speaker), es) &&
      Run(Initial(pairing, speaker), es).effects == [Login(endpoint, pairing), GetServerInfo, GetUpdate] &&
      Run(Initial(pairing, speaker), es).inFlight == [UpdateRequest]
  {
    var endpoint := Some(Endpoint("10.0.0.5", 3689));
    var es := [ServiceUp("10.0.0.5", 3689), LoginOk(0), ServerInfoOk(0, ServerInfo(Some(name)))];
    var s0 := Initial(pairing, speaker);
    var s1 := Next(s0, es[0]);
    assert s1.inFlight == [LoginRequest] && s1.effects == [Login(endpoint, pairing)];
    var s2 := Next(s1, es[1]);
    assert s2.inFlight == [ServerInfoRequest] && s2.effects == [Login(endpoint, pairing), GetServerInfo];
    var s3 := Next(s2, es[2]);
    assert s3.inFlight == [UpdateRequest] && s3.effects == [Login(endpoint, pairing), GetServerInfo, GetUpdate];
    RunCons(s2, es[2], []);
    assert [es[2]] + [] == es[2..];
    RunCons(s1, es[1], es[2..]);
    assert [es[1]] + es[2..] == es[1..];
    RunCons(s0, es[0], es[1..]);
    assert [es[0]] + es[1..] == es;
  }

  /**
   * While a poll chain is alive (as after `ConnectScenario`), a second
   * discovery event followed through login and server info starts a second
   * poll chain: two `getUpdate` requests are then outstanding at once. Nothing
   * in the source prevents it (lines 82-87 start a chain unconditionally, as
   * does the timer at line 144).
   */
  lemma SecondDiscoveryPollsTwice(s: State, host: string, port: nat, name: string)
    requires s.inFlight == [UpdateRequest]
    ensures var es := [ServiceUp(host, port), LoginOk(1), ServerInfoOk(1, ServerInfo(Some(name)))];
      Feasible(s, es) &&
      Run(s, es).inFlight == [UpdateRequest, UpdateRequest] &&
      Run(s, es).effects == s.effects + [Login(Some(Endpoint(host, port)), s.pairing), GetServerInfo, GetUpdate]
  {
    var login := Login(Some(Endpoint(host, port)), s.pairing);
    var es := [ServiceUp(host, port), LoginOk(1), ServerInfoOk(1, ServerInfo(Some(name)))];
    var s1 := Next(s, es[0]);
    assert s1.inFlight == [UpdateRequest, LoginRequest] && s1.effects == s.effects + [login];
    var s2 := Next(s1, es[1]);
    assert s2.inFlight == [UpdateRequest, ServerInfoRequest] && s2.effects == s.effects + [login, GetServerInfo];
    var s3 := Next(s2, es[2]);
    assert s3.inFlight == [UpdateRequest, UpdateRequest] && s3.effects == s.effects + [login, GetServerInfo, GetUpdate];
    RunCons(s2, es[2], []);
    assert [es[2]] + [] == es[2..];
    RunCons(s1, es[1], es[2..]);
    assert [es[1]] + es[2..] == es[1..];
    RunCons(s, es[0], es[1..]);
    assert [es[0]] + es[1..] == es;
  }

  /**
   * The same from the initial state: one discovery polls, a second discovery of
   * the same endpoint polls too, and two updates are outstanding.
   */
  lemma TwoDiscoveriesPollTwice(pairing: string, speaker: bool, name: string)
    ensures var info := ServerInfo(Some(name));
      var es := [ServiceUp("10.0.0.5", 3689), LoginOk(0), ServerInfoOk(0, info),
                 ServiceUp("10.0.0.5", 3689), LoginOk(1), ServerInfoOk(1, info)];
      Feasible(Initial(pairing, speaker), es) &&
      Run(Initial(pairing, speaker), es).inFlight == [UpdateRequest, UpdateRequest]
  {
    var info := ServerInfo(Some(name));
    var a := [ServiceUp("10.0.0.5", 3689), LoginOk(0), ServerInfoOk(0, info)];
    var b := [ServiceUp("10.0.0.5", 3689), LoginOk(1), ServerInfoOk(1, info)];
    var s0 := Initial(pairing, speaker);
    ConnectScenario(pairing, speaker, name);
    SecondDiscoveryPollsTwice(Run(s0, a), "10.0.0.5", 3689, name);
    RunAppend(s0, a, b);
    assert a + b == [ServiceUp("10.0.0.5", 3689), LoginOk(0), ServerInfoOk(0, info),
                     ServiceUp("10.0.0.5", 3689), LoginOk(1), ServerInfoOk(1, info)];
  }

  /**
   * A client error below the limit, then its timer: exactly one logout lies
   * between the error and the next login, which targets the same endpoint.
   */
  lemma ErrorThenReconnect(s: State)
    requires s.errors + 1 < MaxFailures && s.timers == []
    ensures Feasible(s, [ClientError, TimerFired])
    ensures Run(s, [ClientError, TimerFired]).effects ==
      s.effects + [Logout, SetTimeout(RetryDelayMs), Login(s.remote, s.pairing)]
    ensures Run(s, [ClientError, TimerFired]).timers == []
  {
    var s1 := Next(s, ClientError);
    assert [ClientError, TimerFired][1..] == [TimerFired];
    assert Run(s1, [TimerFired]) == Next(s1, TimerFired);
  }

  /**
   * With three failures counted, a fourth schedules a reconnect and a fifth,
   * arriving before that timer fires, gives up: a logout and no timer.
   */
  lemma FifthErrorGivesUp(s: State)
    requires s.errors == 3
    ensures Feasible(s, [ClientError, ClientError])
    ensures Run(s, [ClientError, ClientError]).errors == MaxFailures
    ensures Run(s, [ClientError, ClientError]).effects ==
      s.effects + [Logout, SetTimeout(RetryDelayMs), Logout]
    ensures Run(s, [ClientError, ClientError]).timers == s.timers + [RetryDelayMs]
  {
    var s1 := Next(s, ClientError);
    assert [ClientError, ClientError][1..] == [ClientError];
    assert Run(s1, [ClientError]) == Next(s1, ClientError);
  }
}
