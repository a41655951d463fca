/** The connection driver as a pure state machine: one function per
    handler, each a guarded transition from the driver's state to the next
    one, outputs appended to `output`. The class in module Driver is proved
    to perform exactly these transitions. */
module Machine {
  import opened Command
  import opened Wire
  import Health

  datatype ConnectionState = Init | Connecting | Connected | Closed

  datatype Phase = Reconnecting | EndpointDiscovery | Establishing | Authentication | Identification

  /** A reconnection attempt: when it started and how many retries it made. */
  datatype Attempt = Attempt(started: Instant, tries: U32)

  /** The outstanding authentication or identification request. */
  datatype InitReq = InitReq(correlation: Uuid, started: Instant)

  datatype Report = Continue | Quit

  /** What the driver is configured with; durations in milliseconds. */
  datatype Settings = Settings(
    connectionName: Option<string>,
    defaultUser: Option<Credentials>,
    operationTimeout: nat,
    maxReconnect: U32,
    operationCheckPeriod: nat,
    heartbeatDelay: nat,
    heartbeatTimeout: nat)

  /** Wait between reconnection attempts: three seconds. */
  const ReconnectDelay: nat := 3000

  datatype State = State(
    tracker: Health.TrackerState,
    candidate: Option<Connection>,
    attempt: Option<Attempt>,
    state: ConnectionState,
    phase: Phase,
    lastEndpoint: Option<Endpoint>,
    initReq: Option<InitReq>,
    lastOperationCheck: Instant,
    nextId: nat,            // source of fresh identifiers
    output: seq<Effect>)

  /** `Driver::new`: not yet started, nothing pending, no output. */
  function Initial(now: Instant): (r: State)
    ensures r.state == Init && r.phase == Reconnecting
    ensures r.candidate.None? && r.attempt.None? && r.initReq.None? && r.lastEndpoint.None?
    ensures r.tracker == Health.TrackerState(0, Health.Init)
    ensures r.lastOperationCheck == now && r.output == []
  {
    State(Health.TrackerState(0, Health.Init), None, None, Init, Reconnecting,
          None, None, now, 0, [])
  }

  /** The identifier the next generated package or connection gets. */
  function NewId(s: State): Uuid {
    Uuid(s.nextId)
  }

  /** Send `pkg` on the connection, if there is one. */
  function SendOn(c: Option<Connection>, pkg: Pkg): seq<Effect> {
    if c.Some? then [Enqueue(c.value.id, pkg)] else []
  }

  function ResetTracker(s: State): State {
    s.(tracker := s.tracker.(status := Health.Init))
  }

  function Discover(s: State): (r: State)
    ensures r != s <==> s.state == Connecting && s.phase == Reconnecting
    ensures r != s ==>
              r == s.(phase := EndpointDiscovery,
                      tracker := s.tracker.(status := Health.Init),
                      output := s.output + [DiscoverEndpoint(s.lastEndpoint)])
  {
    if s.state == Connecting && s.phase == Reconnecting then
      ResetTracker(s.(phase := EndpointDiscovery,
                      output := s.output + [DiscoverEndpoint(s.lastEndpoint)]))
    else s
  }

  /** `start`: a fresh attempt, the ticker, then discovery at once. */
  function Start(s: State, now: Instant): (r: State)
    ensures r.state == Connecting && r.phase == EndpointDiscovery
    ensures r.attempt == Some(Attempt(now, 0))
    ensures r.tracker == s.tracker.(status := Health.Init)
    ensures r.output == s.output + [SpawnTicker, DiscoverEndpoint(s.lastEndpoint)]
    ensures r.candidate == s.candidate && r.initReq == s.initReq
    ensures r == s.(attempt := Some(Attempt(now, 0)), state := Connecting, phase := EndpointDiscovery,
                    tracker := s.tracker.(status := Health.Init),
                    output := s.output + [SpawnTicker, DiscoverEndpoint(s.lastEndpoint)])
  {
    Discover(s.(attempt := Some(Attempt(now, 0)), state := Connecting, phase := Reconnecting,
                output := s.output + [SpawnTicker]))
  }

  /** `on_establish`: the discovered endpoint gets a new candidate connection. */
  function OnEstablish(s: State, endpoint: Endpoint): (r: State)
    ensures r != s <==> s.state == Connecting && s.phase == EndpointDiscovery
    ensures r != s ==>
              r.phase == Establishing && r.lastEndpoint == Some(endpoint)
              && r.candidate == Some(Connection(NewId(s), endpoint.addr))
              && r.nextId == s.nextId + 1 && r.output == s.output
    ensures r != s ==>
              r == s.(phase := Establishing, candidate := Some(Connection(NewId(s), endpoint.addr)),
                      nextId := s.nextId + 1, lastEndpoint := Some(endpoint))
  {
    if s.state == Connecting && s.phase == EndpointDiscovery then
      s.(phase := Establishing,
         candidate := Some(Connection(NewId(s), endpoint.addr)),
         nextId := s.nextId + 1,
         lastEndpoint := Some(endpoint))
    else s
  }

  function Authenticate(s: State, creds: Credentials, now: Instant): (r: State)
    ensures r != s <==> s.state == Connecting && s.phase == Establishing
    ensures r != s ==>
              r.phase == Authentication && r.initReq == Some(InitReq(NewId(s), now))
              && r.output == s.output + SendOn(s.candidate, AuthenticatePkg(creds, NewId(s)))
    ensures r != s ==>
              r == s.(initReq := r.initReq, phase := Authentication, nextId := s.nextId + 1, output := r.output)
  {
    if s.state == Connecting && s.phase == Establishing then
      s.(initReq := Some(InitReq(NewId(s), now)),
         phase := Authentication,
         nextId := s.nextId + 1,
         output := s.output + SendOn(s.candidate, AuthenticatePkg(creds, NewId(s))))
    else s
  }

  function IdentifyClient(st: Settings, s: State, now: Instant): (r: State)
    ensures r != s <==> s.state == Connecting && s.phase in {Authentication, Establishing}
    ensures r != s ==>
              r.phase == Identification && r.initReq == Some(InitReq(NewId(s), now))
              && r.output == s.output + SendOn(s.candidate, IdentifyClientPkg(st.connectionName, NewId(s)))
    ensures r != s ==>
              r == s.(initReq := r.initReq, phase := Identification, nextId := s.nextId + 1, output := r.output)
  {
    if s.state == Connecting && (s.phase == Authentication || s.phase == Establishing) then
      s.(initReq := Some(InitReq(NewId(s), now)),
         phase := Identification,
         nextId := s.nextId + 1,
         output := s.output + SendOn(s.candidate, IdentifyClientPkg(st.connectionName, NewId(s))))
    else s
  }

  /** `is_same_connection`: `id` names the candidate; without a candidate
      no id does. */
  predicate IsSameConnection(s: State, id: Uuid)
    ensures IsSameConnection(s, id) ==> s.candidate.Some?
  {
    s.candidate.Some? && s.candidate.value.id == id
  }

  /** At most one connection id is the candidate's. */
  lemma SameConnectionUnique(s: State, a: Uuid, b: Uuid)
    requires IsSameConnection(s, a)
    ensures IsSameConnection(s, b) <==> a == b
  {
  }

  /** `on_established`: only for the candidate's own connection; then
      authentication when a default user is set, identification otherwise. */
  function OnEstablished(st: Settings, s: State, id: Uuid, now: Instant): (r: State)
    ensures r != s <==> s.state == Connecting && s.phase == Establishing && IsSameConnection(s, id)
    ensures r != s && st.defaultUser.Some? ==> r.phase == Authentication
    ensures r != s && st.defaultUser.None? ==> r.phase == Identification
    ensures r != s ==> r.tracker.status == Health.Init
    // the handshake starts: a new init request and its package on the candidate
    ensures r != s ==>
              r == s.(tracker := s.tracker.(status := Health.Init), initReq := Some(InitReq(NewId(s), now)),
                      phase := r.phase, nextId := s.nextId + 1, output := r.output)
    ensures r != s && st.defaultUser.Some? ==>
              r.output == s.output + [Enqueue(s.candidate.value.id, AuthenticatePkg(st.defaultUser.value, NewId(s)))]
    ensures r != s && st.defaultUser.None? ==>
              r.output == s.output + [Enqueue(s.candidate.value.id, IdentifyClientPkg(st.connectionName, NewId(s)))]
  {
    if s.state == Connecting && s.phase == Establishing && IsSameConnection(s, id) then
      var s1 := ResetTracker(s);
      match st.defaultUser
      case Some(creds) => Authenticate(s1, creds, now)
      case None => IdentifyClient(st, s1, now)
    else s
  }

  /** `tcp_connection_close`: back to reconnecting; a connection that was up
      starts a fresh attempt, one still connecting keeps its attempt. */
  function TcpConnectionClose(s: State, now: Instant): (r: State)
    ensures s.state == Connected ==>
              r == s.(attempt := Some(Attempt(now, 0)), state := Connecting, phase := Reconnecting)
    ensures s.state == Connecting ==> r == s.(phase := Reconnecting)
    ensures s.state in {Init, Closed} ==> r == s
  {
    match s.state
    case Connected => s.(attempt := Some(Attempt(now, 0)), state := Connecting, phase := Reconnecting)
    case Connecting => s.(state := Connecting, phase := Reconnecting)
    case _ => s
  }

  function OnConnectionClosed(s: State, id: Uuid, now: Instant): (r: State)
    ensures r != s ==> IsSameConnection(s, id) && s.state in {Connected, Connecting}
    ensures IsSameConnection(s, id) && s.state == Connected ==> r.state == Connecting && r.phase == Reconnecting
    ensures IsSameConnection(s, id) ==> r == TcpConnectionClose(s, now)
    ensures !IsSameConnection(s, id) ==> r == s
  {
    if IsSameConnection(s, id) then TcpConnectionClose(s, now) else s
  }

  /** The reply to a heartbeat request: its headers with the response command. */
  function HeartbeatResponseTo(pkg: Pkg): Pkg {
    HeadersOnly(pkg).(cmd := HeartbeatResponse)
  }

  /** `on_package_arrived`. */
  function OnPackageArrived(st: Settings, s: State, pkg: Pkg, now: Instant): (r: State)
    // every package counts for the heartbeat
    ensures r.tracker.pkgNum == WrappingIncr(s.tracker.pkgNum)
    ensures r.tracker == s.tracker.(pkgNum := WrappingIncr(s.tracker.pkgNum))
    // the connection comes up only on the matching identification reply
    ensures r.state == Connected && s.state != Connected <==>
              Equal(pkg.cmd, ClientIdentified) && s.state == Connecting && s.phase == Identification
              && s.initReq.Some? && s.initReq.value.correlation == pkg.correlation
    ensures r.state == Connected && s.state != Connected ==> r.attempt.None?
    // an identification reply consumes the request whatever its correlation
    ensures (Equal(pkg.cmd, ClientIdentified) && s.state == Connecting && s.phase == Identification)
              ==> r.initReq.None?
    // authenticated or not, a matching reply moves on to identification
    ensures ((Equal(pkg.cmd, Authenticated) || Equal(pkg.cmd, NotAuthenticated))
              && s.state == Connecting && s.phase == Authentication
              && s.initReq.Some? && s.initReq.value.correlation == pkg.correlation)
              ==> r.phase == Identification && r.initReq == Some(InitReq(NewId(s), now))
    ensures ((Equal(pkg.cmd, Authenticated) || Equal(pkg.cmd, NotAuthenticated))
              && s.state == Connecting && s.phase == Authentication
              && !(s.initReq.Some? && s.initReq.value.correlation == pkg.correlation))
              ==> r.phase == Authentication && r.initReq.None?
    // a heartbeat request on a live connection gets exactly one response
    ensures (s.state == Connected && pkg.cmd == HeartbeatRequest && s.candidate.Some?)
              ==> r.output == s.output + [Enqueue(s.candidate.value.id, HeartbeatResponseTo(pkg))]
    ensures (s.state != Connected && !(s.state == Connecting && s.phase in {Authentication, Identification}))
              ==> r == s.(tracker := r.tracker)
    // the handshake replies, stated as whole new states
    ensures (Equal(pkg.cmd, ClientIdentified) && s.state == Connecting && s.phase == Identification
             && s.initReq.Some? && s.initReq.value.correlation == pkg.correlation)
              ==> r == s.(tracker := r.tracker, initReq := None, attempt := None,
                          lastOperationCheck := now, state := Connected)
    ensures (Equal(pkg.cmd, ClientIdentified) && s.state == Connecting && s.phase == Identification
             && !(s.initReq.Some? && s.initReq.value.correlation == pkg.correlation))
              ==> r == s.(tracker := r.tracker, initReq := None)
    ensures ((Equal(pkg.cmd, Authenticated) || Equal(pkg.cmd, NotAuthenticated))
              && s.state == Connecting && s.phase == Authentication
              && s.initReq.Some? && s.initReq.value.correlation == pkg.correlation)
              ==> r == s.(tracker := r.tracker, initReq := Some(InitReq(NewId(s), now)),
                          phase := Identification, nextId := s.nextId + 1,
                          output := s.output + SendOn(s.candidate, IdentifyClientPkg(st.connectionName, NewId(s))))
    ensures ((Equal(pkg.cmd, Authenticated) || Equal(pkg.cmd, NotAuthenticated))
              && s.state == Connecting && s.phase == Authentication
              && !(s.initReq.Some? && s.initReq.value.correlation == pkg.correlation))
              ==> r == s.(tracker := r.tracker, initReq := None)
    // any other package while handshaking only counts for the heartbeat
    ensures (s.state == Connecting && s.phase == Identification && !Equal(pkg.cmd, ClientIdentified))
              ==> r == s.(tracker := r.tracker)
    ensures (s.state == Connecting && s.phase == Authentication
             && !Equal(pkg.cmd, Authenticated) && !Equal(pkg.cmd, NotAuthenticated))
              ==> r == s.(tracker := r.tracker)
    // a connected driver stays as it is: heartbeat responses are absorbed,
    // everything else goes to the registry on the candidate
    ensures s.state == Connected ==> r == s.(tracker := r.tracker, output := r.output)
    ensures s.state == Connected && pkg.cmd.HeartbeatResponse? ==> r.output == s.output
    ensures (s.state == Connected && s.candidate.Some?
             && !pkg.cmd.HeartbeatRequest? && !pkg.cmd.HeartbeatResponse?)
              ==> r.output == s.output + [RegistryHandle(pkg, s.candidate.value.id)]
  {
    var s1 := s.(tracker := s.tracker.(pkgNum := WrappingIncr(s.tracker.pkgNum)));
    if Equal(pkg.cmd, ClientIdentified) && s1.state == Connecting && s1.phase == Identification then
      var s2 := s1.(initReq := None);
      if s1.initReq.Some? && s1.initReq.value.correlation == pkg.correlation then
        s2.(attempt := None, lastOperationCheck := now, state := Connected)
      else s2
    else if (Equal(pkg.cmd, Authenticated) || Equal(pkg.cmd, NotAuthenticated))
         && s1.state == Connecting && s1.phase == Authentication then
      var s2 := s1.(initReq := None);
      if s1.initReq.Some? && s1.initReq.value.correlation == pkg.correlation then
        IdentifyClient(st, s2, now)
      else s2
    else if s1.state == Connected then
      match pkg.cmd
      case HeartbeatRequest =>
        s1.(output := s1.output + SendOn(s1.candidate, HeartbeatResponseTo(pkg)))
      case HeartbeatResponse => s1
      case _ =>
        if s1.candidate.Some? then
          s1.(output := s1.output + [RegistryHandle(pkg, s1.candidate.value.id)])
        else s1
    else s1
  }

  /** `on_new_op`: the registry gets the connection only when it is up. */
  function OnNewOp(s: State, op: Exchange): (r: State)
    ensures s.state == Connected && s.candidate.Some? ==>
              r.output == s.output + [RegistryRegister(op, Some(s.candidate.value.id))]
    ensures s.state != Connected ==> r.output == s.output + [RegistryRegister(op, None)]
    ensures !(s.state == Connected && s.candidate.Some?) ==> r.output == s.output + [RegistryRegister(op, None)]
    ensures r == s.(output := r.output)
  {
    var connOpt := if s.state == Connected && s.candidate.Some? then Some(s.candidate.value.id) else None;
    s.(output := s.output + [RegistryRegister(op, connOpt)])
  }

  /** `has_init_req_timeout`: the outstanding request has been waiting
      `operation_timeout`; never without a request. */
  predicate HasInitReqTimeout(st: Settings, s: State, now: Instant)
    ensures s.initReq.None? ==> !HasInitReqTimeout(st, s, now)
    ensures s.initReq.Some? && st.operationTimeout > 0 ==>
              (HasInitReqTimeout(st, s, now) <==> now >= s.initReq.value.started + st.operationTimeout)
    ensures s.initReq.Some? && st.operationTimeout == 0 ==> HasInitReqTimeout(st, s, now)
  {
    s.initReq.Some? && Elapsed(s.initReq.value.started, now) >= st.operationTimeout
  }

  /** `conn_has_timeout`: the attempt has been running for the reconnect
      delay; never without an attempt. */
  predicate ConnHasTimeout(s: State, now: Instant)
    ensures ConnHasTimeout(s, now) <==>
              s.attempt.Some? && now >= s.attempt.value.started + ReconnectDelay
  {
    s.attempt.Some? && Elapsed(s.attempt.value.started, now) >= ReconnectDelay
  }

  /** `start_new_attempt`: one more try, allowed while within the budget. */
  function StartNewAttempt(st: Settings, s: State, now: Instant): (r: (State, bool))
    ensures s.attempt.None? ==> r == (s, false)
    ensures s.attempt.Some? ==>
              r.0 == s.(attempt := Some(Attempt(now, WrappingIncr(s.attempt.value.tries))))
              && (r.1 <==> WrappingIncr(s.attempt.value.tries) <= st.maxReconnect)
  {
    match s.attempt
    case None => (s, false)
    case Some(att) =>
      var tries := WrappingIncr(att.tries);
      (s.(attempt := Some(Attempt(now, tries))), tries <= st.maxReconnect)
  }

  function CloseConnection(s: State): (r: State)
    ensures r.state == Closed && r == s.(state := r.state)
  {
    s.(state := Closed)
  }

  /** `manage_heartbeat` of the driver: on failure the candidate is dropped
      and the connection is treated as closed. */
  function ManageHeartbeat(st: Settings, s: State, now: Instant): (r: State)
    ensures s.candidate.None? ==> r == s
    ensures s.candidate.Some? ==>
              var d := Health.Manage(s.tracker, now, st.heartbeatDelay, st.heartbeatTimeout);
              && r.tracker == s.tracker.(status := d.status)
              && r.output == s.output + (if d.requestSent then [Enqueue(s.candidate.value.id, HeartbeatRequestPkg(NewId(s)))] else [])
              && r.nextId == (if d.requestSent then s.nextId + 1 else s.nextId)
              && (d.heartbeat == Health.Failure ==>
                    r.candidate.None?
                    && (s.state in {Connected, Connecting} ==> r.state == Connecting && r.phase == Reconnecting)
                    && (s.state !in {Connected, Connecting} ==> r.state == s.state && r.phase == s.phase))
              && (d.heartbeat == Health.Failure && s.state == Connected ==> r.attempt == Some(Attempt(now, 0)))
              && (d.heartbeat == Health.Failure && s.state != Connected ==> r.attempt == s.attempt)
              && (d.heartbeat == Health.Valid ==>
                    r.candidate == s.candidate && r.state == s.state && r.phase == s.phase
                    && r.attempt == s.attempt)
              && (d.heartbeat == Health.Valid ==>
                    r == s.(tracker := r.tracker, output := r.output, nextId := r.nextId))
    // the handshake request, the endpoint and the operation-check clock are kept
    ensures r.initReq == s.initReq && r.lastEndpoint == s.lastEndpoint
            && r.lastOperationCheck == s.lastOperationCheck
  {
    match s.candidate
    case None => s
    case Some(conn) =>
      var d := Health.Manage(s.tracker, now, st.heartbeatDelay, st.heartbeatTimeout);
      var s1 := s.(tracker := s.tracker.(status := d.status),
                   output := s.output + (if d.requestSent then [Enqueue(conn.id, HeartbeatRequestPkg(NewId(s)))] else []),
                   nextId := if d.requestSent then s.nextId + 1 else s.nextId);
      if d.heartbeat == Health.Failure then TcpConnectionClose(s1.(candidate := None), now)
      else s1
  }

  /** The operation check of a connected tick: once `operation_check_period`
      has passed since the last one, the registry retries on the candidate. */
  function CheckOperations(st: Settings, s: State, now: Instant): (r: State)
    ensures (s.candidate.Some?
             && (st.operationCheckPeriod == 0 || now >= s.lastOperationCheck + st.operationCheckPeriod))
              ==> r == s.(output := s.output + [RegistryCheckAndRetry(s.candidate.value.id)],
                          lastOperationCheck := now)
    ensures s.candidate.None? ==> r == s
    ensures (st.operationCheckPeriod > 0 && now < s.lastOperationCheck + st.operationCheckPeriod) ==> r == s
  {
    if s.candidate.Some? && Elapsed(s.lastOperationCheck, now) >= st.operationCheckPeriod then
      s.(output := s.output + [RegistryCheckAndRetry(s.candidate.value.id)], lastOperationCheck := now)
    else s
  }

  /** `on_tick`. */
  function OnTick(st: Settings, s: State, now: Instant): (r: (State, Report))
    ensures s.state in {Init, Closed} ==> r == (s, Continue)
    ensures r.1 == Quit <==>
              s.state == Connecting
              && ((s.phase == Reconnecting && ConnHasTimeout(s, now)
                   && WrappingIncr(s.attempt.value.tries) > st.maxReconnect)
                  || (s.phase == Identification && HasInitReqTimeout(st, s, now)))
    ensures r.1 == Quit && s.phase == Identification ==> r.0 == s
    ensures (s.state == Connecting && s.phase == Authentication && HasInitReqTimeout(st, s, now))
              ==> r.0.initReq == Some(InitReq(NewId(s), now))
                  && (r.0.phase == Identification || r.0.candidate.None?)
    // reconnecting: retry and rediscover within the budget; a refused retry
    // still counts its try
    ensures (s.state == Connecting && s.phase == Reconnecting && ConnHasTimeout(s, now)
             && WrappingIncr(s.attempt.value.tries) <= st.maxReconnect)
              ==> r.0 == s.(attempt := Some(Attempt(now, WrappingIncr(s.attempt.value.tries))),
                            phase := EndpointDiscovery, tracker := s.tracker.(status := Health.Init),
                            output := s.output + [DiscoverEndpoint(s.lastEndpoint)])
    ensures (s.state == Connecting && s.phase == Reconnecting && r.1 == Quit)
              ==> r.0 == s.(attempt := Some(Attempt(now, WrappingIncr(s.attempt.value.tries))))
    ensures (s.state == Connecting
             && ((s.phase == Reconnecting && !ConnHasTimeout(s, now))
                 || s.phase in {EndpointDiscovery, Establishing}))
              ==> r == (s, Continue)
    // handshaking: the heartbeat is checked on the candidate
    ensures (s.state == Connecting && s.phase == Authentication)
              ==> r == (ManageHeartbeat(st, if HasInitReqTimeout(st, s, now) then IdentifyClient(st, s, now) else s, now),
                        Continue)
    ensures (s.state == Connecting && s.phase == Identification && !HasInitReqTimeout(st, s, now))
              ==> r == (ManageHeartbeat(st, s, now), Continue)
    // connected: operations are checked when due, then the heartbeat
    ensures s.state == Connected ==> r == (ManageHeartbeat(st, CheckOperations(st, s, now), now), Continue)
  {
    if s.state == Init || s.state == Closed then (s, Continue)
    else if s.state == Connecting then
      if s.phase == Reconnecting then
        if ConnHasTimeout(s, now) then
          var (s1, ok) := StartNewAttempt(st, s, now);
          if ok then (Discover(s1), Continue) else (s1, Quit)
        else (s, Continue)
      else if s.phase == Authentication then
        var s1 := if HasInitReqTimeout(st, s, now) then IdentifyClient(st, s, now) else s;
        (ManageHeartbeat(st, s1, now), Continue)
      else if s.phase == Identification then
        if HasInitReqTimeout(st, s, now) then (s, Quit)
        else (ManageHeartbeat(st, s, now), Continue)
      else (s, Continue)
    else
      (ManageHeartbeat(st, CheckOperations(st, s, now), now), Continue)
  }

  /** `on_send_pkg`: packages go out only on a live connection. */
  function OnSendPkg(s: State, pkg: Pkg): (r: State)
    ensures r != s <==> s.state == Connected && s.candidate.Some?
    ensures r != s ==> r == s.(output := s.output + [Enqueue(s.candidate.value.id, pkg)])
  {
    if s.state == Connected && s.candidate.Some? then
      s.(output := s.output + [Enqueue(s.candidate.value.id, pkg)])
    else s
  }
}
