/** Runs of the driver: the messages it handles, one after another, each
    with the clock reading at which it is handled. Every reachable state
    keeps the driver's invariant, in particular the candidate connection is
    always present while the driver is connected. */
module Runs {
  import Command
  import opened Wire
  import Health
  import opened Machine

  /** The messages the driver is driven by. */
  datatype Event =
    | StartMsg
    | EstablishMsg(endpoint: Endpoint)
    | EstablishedMsg(id: Uuid)
    | ConnectionClosedMsg(id: Uuid)
    | ArrivedMsg(pkg: Pkg)
    | NewOpMsg(op: Exchange)
    | TickMsg
    | SendMsg(pkg: Pkg)
    | ShutdownMsg

  datatype Timed = Timed(now: Instant, event: Event)

  function Step(st: Settings, s: State, e: Timed): State {
    match e.event
    case StartMsg => Start(s, e.now)
    case EstablishMsg(endpoint) => OnEstablish(s, endpoint)
    case EstablishedMsg(id) => OnEstablished(st, s, id, e.now)
    case ConnectionClosedMsg(id) => OnConnectionClosed(s, id, e.now)
    case ArrivedMsg(pkg) => OnPackageArrived(st, s, pkg, e.now)
    case NewOpMsg(op) => OnNewOp(s, op)
    case TickMsg => OnTick(st, s, e.now).0
    case SendMsg(pkg) => OnSendPkg(s, pkg)
    case ShutdownMsg => CloseConnection(s)
  }

  function Run(st: Settings, s: State, es: seq<Timed>): State
    decreases |es|
  {
    if es == [] then s else Run(st, Step(st, s, es[0]), es[1..])
  }

  /** The driver's invariant. A connected driver is in the identification
      phase, has no attempt running and holds its connection; a connecting
      driver has an attempt; once a connection is being established it is
      held until the driver goes back to reconnecting. */
  predicate Inv(s: State) {
    && (s.state == Connected ==>
          s.phase == Identification && s.attempt.None? && s.candidate.Some?)
    && (s.state == Connecting ==> s.attempt.Some?)
    && (s.state == Connecting && s.phase in {Establishing, Authentication, Identification} ==>
          s.candidate.Some?)
  }

  /** Every handler keeps the invariant. */
  lemma StepKeepsInv(st: Settings, s: State, e: Timed)
    requires Inv(s)
    ensures Inv(Step(st, s, e))
  {
  }

  lemma {:induction false} RunKeepsInv(st: Settings, s: State, es: seq<Timed>)
    requires Inv(s)
    ensures Inv(Run(st, s, es))
    decreases |es|
  {
    if es != [] {
      StepKeepsInv(st, s, es[0]);
      RunKeepsInv(st, Step(st, s, es[0]), es[1..]);
    }
  }

  /** In every state reachable from a new driver, a connected driver holds
      its connection, so a package that arrives or an operation that is
      registered while connected always finds it. */
  lemma {:induction false} ConnectedHoldsCandidate(st: Settings, now: Instant, es: seq<Timed>)
    ensures var s := Run(st, Initial(now), es);
            s.state == Connected ==> s.candidate.Some? && s.attempt.None?
    ensures var s := Run(st, Initial(now), es);
            s.state == Connecting ==> s.attempt.Some?
  {
    RunKeepsInv(st, Initial(now), es);
  }

  /** Outputs are only ever appended: a run never takes back an effect. */
  lemma {:induction false} RunExtendsOutput(st: Settings, s: State, es: seq<Timed>)
    ensures s.output <= Run(st, s, es).output
    decreases |es|
  {
    if es != [] {
      var s1 := Step(st, s, es[0]);
      assert s.output <= s1.output by {
        match es[0].event
        case TickMsg =>
          TickExtendsOutput(st, s, es[0].now);
        case _ =>
      }
      RunExtendsOutput(st, s1, es[1..]);
    }
  }

  lemma TickExtendsOutput(st: Settings, s: State, now: Instant)
    ensures s.output <= OnTick(st, s, now).0.output
  {
  }

  /** Packages leave on a connection only from a handler that is allowed to
      send: nothing is sent while the driver is new or closed. */
  lemma {:induction false} QuietWhenIdle(st: Settings, s: State, e: Timed)
    requires s.state in {Init, Closed}
    requires !e.event.StartMsg?
    ensures var r := Step(st, s, e);
            forall k :: |s.output| <= k < |r.output| ==> !r.output[k].Enqueue?
  {
  }

  /** The handshake without a default user: start, establish on the
      discovered endpoint, the connection reports itself established, the
      identification request goes out and its matching reply arrives. */
  lemma HandshakeWithoutUser(st: Settings, ep: Endpoint)
    requires st.defaultUser.None?
    ensures var s := Run(st, Initial(0), [
                       Timed(0, StartMsg),
                       Timed(1, EstablishMsg(ep)),
                       Timed(2, EstablishedMsg(Uuid(0))),
                       Timed(3, ArrivedMsg(Pkg(Command.ClientIdentified, Uuid(1), NoBody)))]);
            && s.state == Connected
            && s.candidate == Some(Connection(Uuid(0), ep.addr))
            && s.output == [SpawnTicker, DiscoverEndpoint(None),
                            Enqueue(Uuid(0), IdentifyClientPkg(st.connectionName, Uuid(1)))]
  {
    var s0 := Initial(0);
    var s1 := Step(st, s0, Timed(0, StartMsg));
    var s2 := Step(st, s1, Timed(1, EstablishMsg(ep)));
    var s3 := Step(st, s2, Timed(2, EstablishedMsg(Uuid(0))));
    var s4 := Step(st, s3, Timed(3, ArrivedMsg(Pkg(Command.ClientIdentified, Uuid(1), NoBody))));
    assert s3.phase == Identification;
    assert s4.state == Connected;
    var es := [Timed(0, StartMsg),
               Timed(1, EstablishMsg(ep)),
               Timed(2, EstablishedMsg(Uuid(0))),
               Timed(3, ArrivedMsg(Pkg(Command.ClientIdentified, Uuid(1), NoBody)))];
    assert Run(st, s0, es) == Run(st, s1, es[1..]);
    assert Run(st, s1, es[1..]) == Run(st, s2, es[2..]);
    assert Run(st, s2, es[2..]) == Run(st, s3, es[3..]);
    assert Run(st, s3, es[3..]) == Run(st, s4, []);
  }

  /** A reply to identification with the wrong correlation consumes the
      request: the driver stays in identification with no request left,
      so the identification timeout can no longer end the run. */
  lemma MismatchedIdentification(st: Settings, s: State, pkg: Pkg, now: Instant, later: Instant)
    requires s.state == Connecting && s.phase == Identification
    requires Command.Equal(pkg.cmd, Command.ClientIdentified)
    requires s.initReq.Some? && s.initReq.value.correlation != pkg.correlation
    ensures var r := OnPackageArrived(st, s, pkg, now);
            && r.state == Connecting && r.phase == Identification && r.initReq.None?
            && OnTick(st, r, later).1 == Continue
  {
  }
}
