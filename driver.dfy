/** The connection driver as the object the client runs: its fields are
    updated in place by one method per handler. Each method is proved to
    perform the transition of the same name in module Machine, and the
    public ones to keep the invariant of module Runs. */
module Driver {
  import opened Wire
  import Health
  import M = Machine
  import Runs

  class Driver {
    const settings: M.Settings
    const tracker: Health.HealthTracker
    var candidate: Option<Connection>
    var attempt: Option<M.Attempt>
    var state: M.ConnectionState
    var phase: M.Phase
    var lastEndpoint: Option<Endpoint>
    var initReq: Option<M.InitReq>
    var lastOperationCheck: Instant
    var nextId: nat
    var output: seq<Effect>

    /** The driver's fields, as a value of the state machine. */
    function Snapshot(): M.State
      reads this, tracker
    {
      M.State(tracker.Snapshot(), candidate, attempt, state, phase,
              lastEndpoint, initReq, lastOperationCheck, nextId, output)
    }

    /** The tracker runs with the heartbeat delays of the settings. */
    ghost predicate Wired()
      reads this, tracker
    {
      tracker.heartbeatDelay == settings.heartbeatDelay
      && tracker.heartbeatTimeout == settings.heartbeatTimeout
    }

    ghost predicate Valid()
      reads this, tracker
    {
      Wired() && Runs.Inv(Snapshot())
    }

    constructor (settings: M.Settings, now: Instant)
      ensures Valid() && this.settings == settings
      ensures fresh(tracker)
      ensures Snapshot() == M.Initial(now)
    {
      this.settings := settings;
      tracker := new Health.HealthTracker(settings.heartbeatDelay, settings.heartbeatTimeout);
      candidate := None;
      attempt := None;
      state := M.Init;
      phase := M.Reconnecting;
      lastEndpoint := None;
      initReq := None;
      lastOperationCheck := now;
      nextId := 0;
      output := [];
    }

    method Start(now: Instant)
      requires Valid()
      modifies this, tracker
      ensures Valid()
      ensures Snapshot() == M.Start(old(Snapshot()), now)
    {
      attempt := Some(M.Attempt(now, 0));
      state := M.Connecting;
      phase := M.Reconnecting;
      output := output + [SpawnTicker];
      Discover();
      Runs.StepKeepsInv(settings, old(Snapshot()), Runs.Timed(now, Runs.StartMsg));
    }

    method Discover()
      requires Wired()
      modifies this, tracker
      ensures Wired()
      ensures Snapshot() == M.Discover(old(Snapshot()))
    {
      if state == M.Connecting && phase == M.Reconnecting {
        output := output + [DiscoverEndpoint(lastEndpoint)];
        phase := M.EndpointDiscovery;
        tracker.Reset();
      }
    }

    method OnEstablish(endpoint: Endpoint)
      requires Valid()
      modifies this
      ensures Valid()
      ensures Snapshot() == M.OnEstablish(old(Snapshot()), endpoint)
    {
      if state == M.Connecting && phase == M.EndpointDiscovery {
        phase := M.Establishing;
        candidate := Some(Connection(Uuid(nextId), endpoint.addr));
        nextId := nextId + 1;
        lastEndpoint := Some(endpoint);
      }
      // this handler does not read the clock
      Runs.StepKeepsInv(settings, old(Snapshot()), Runs.Timed(0, Runs.EstablishMsg(endpoint)));
    }

    method Authenticate(creds: Credentials, now: Instant)
      requires Wired()
      modifies this
      ensures Wired()
      ensures Snapshot() == M.Authenticate(old(Snapshot()), creds, now)
    {
      if state == M.Connecting && phase == M.Establishing {
        var pkg := AuthenticatePkg(creds, Uuid(nextId));
        nextId := nextId + 1;
        initReq := Some(M.InitReq(pkg.correlation, now));
        phase := M.Authentication;
        if candidate.Some? {
          output := output + [Enqueue(candidate.value.id, pkg)];
        }
      }
    }

    method IdentifyClient(now: Instant)
      requires Wired()
      modifies this
      ensures Wired()
      ensures Snapshot() == M.IdentifyClient(settings, old(Snapshot()), now)
    {
      if state == M.Connecting && (phase == M.Authentication || phase == M.Establishing) {
        var pkg := IdentifyClientPkg(settings.connectionName, Uuid(nextId));
        nextId := nextId + 1;
        initReq := Some(M.InitReq(pkg.correlation, now));
        phase := M.Identification;
        if candidate.Some? {
          output := output + [Enqueue(candidate.value.id, pkg)];
        }
      }
    }

    method OnEstablished(id: Uuid, now: Instant)
      requires Valid()
      modifies this, tracker
      ensures Valid()
      ensures Snapshot() == M.OnEstablished(settings, old(Snapshot()), id, now)
    {
      if state == M.Connecting && phase == M.Establishing {
        var sameConnection := M.IsSameConnection(Snapshot(), id);
        if sameConnection {
          tracker.Reset();
          match settings.defaultUser
          case Some(creds) => Authenticate(creds, now);
          case None => IdentifyClient(now);
        }
      }
      Runs.StepKeepsInv(settings, old(Snapshot()), Runs.Timed(now, Runs.EstablishedMsg(id)));
    }

    method OnConnectionClosed(id: Uuid, now: Instant)
      requires Valid()
      modifies this
      ensures Valid()
      ensures Snapshot() == M.OnConnectionClosed(old(Snapshot()), id, now)
    {
      if M.IsSameConnection(Snapshot(), id) {
        TcpConnectionClose(now);
      }
      Runs.StepKeepsInv(settings, old(Snapshot()), Runs.Timed(now, Runs.ConnectionClosedMsg(id)));
    }

    method TcpConnectionClose(now: Instant)
      requires Wired()
      modifies this
      ensures Wired()
      ensures Snapshot() == M.TcpConnectionClose(old(Snapshot()), now)
    {
      match state
      case Connected =>
        attempt := Some(M.Attempt(now, 0));
        state := M.Connecting;
        phase := M.Reconnecting;
      case Connecting =>
        state := M.Connecting;
        phase := M.Reconnecting;
      case _ =>
    }

    method OnPackageArrived(pkg: Pkg, now: Instant)
      requires Valid()
      modifies this, tracker
      ensures Valid()
      ensures Snapshot() == M.OnPackageArrived(settings, old(Snapshot()), pkg, now)
    {
      tracker.IncrPkgNum();
      if M.Command.Equal(pkg.cmd, M.Command.ClientIdentified)
         && state == M.Connecting && phase == M.Identification
      {
        var req := initReq;
        initReq := None;
        if req.Some? && req.value.correlation == pkg.correlation {
          attempt := None;
          lastOperationCheck := now;
          state := M.Connected;
        }
      } else if (M.Command.Equal(pkg.cmd, M.Command.Authenticated)
                 || M.Command.Equal(pkg.cmd, M.Command.NotAuthenticated))
                && state == M.Connecting && phase == M.Authentication
      {
        var req := initReq;
        initReq := None;
        if req.Some? && req.value.correlation == pkg.correlation {
          IdentifyClient(now);
        }
      } else if state == M.Connected {
        match pkg.cmd
        case HeartbeatRequest =>
          if candidate.Some? {
            output := output + [Enqueue(candidate.value.id, M.HeartbeatResponseTo(pkg))];
          }
        case HeartbeatResponse =>
        case _ =>
          if candidate.Some? {
            output := output + [RegistryHandle(pkg, candidate.value.id)];
          }
      }
      Runs.StepKeepsInv(settings, old(Snapshot()), Runs.Timed(now, Runs.ArrivedMsg(pkg)));
    }

    method OnNewOp(op: Exchange)
      requires Valid()
      modifies this
      ensures Valid()
      ensures Snapshot() == M.OnNewOp(old(Snapshot()), op)
    {
      var connOpt := if state == M.Connected && candidate.Some? then Some(candidate.value.id) else None;
      output := output + [RegistryRegister(op, connOpt)];
      // this handler does not read the clock
      Runs.StepKeepsInv(settings, old(Snapshot()), Runs.Timed(0, Runs.NewOpMsg(op)));
    }

    method StartNewAttempt(now: Instant) returns (ok: bool)
      requires Wired()
      modifies this
      ensures Wired()
      ensures (Snapshot(), ok) == M.StartNewAttempt(settings, old(Snapshot()), now)
    {
      match attempt
      case Some(att) =>
        var tries := WrappingIncr(att.tries);
        attempt := Some(M.Attempt(now, tries));
        ok := tries <= settings.maxReconnect;
      case None =>
        ok := false;
    }

    method CloseConnection()
      requires Valid()
      modifies this
      ensures Valid()
      ensures Snapshot() == M.CloseConnection(old(Snapshot()))
    {
      state := M.Closed;
      // this handler does not read the clock
      Runs.StepKeepsInv(settings, old(Snapshot()), Runs.Timed(0, Runs.ShutdownMsg));
    }

    method ManageHeartbeat(now: Instant)
      requires Wired()
      modifies this, tracker
      ensures Wired()
      ensures Snapshot() == M.ManageHeartbeat(settings, old(Snapshot()), now)
    {
      if candidate.Some? {
        var conn := candidate.value;
        var heartbeat, requestSent := tracker.ManageHeartbeat(now);
        if requestSent {
          output := output + [Enqueue(conn.id, HeartbeatRequestPkg(Uuid(nextId)))];
          nextId := nextId + 1;
        }
        if heartbeat == Health.Failure {
          candidate := None;
          TcpConnectionClose(now);
        }
      }
    }

    method OnTick(now: Instant) returns (report: M.Report)
      requires Valid()
      modifies this, tracker
      ensures Valid()
      ensures (Snapshot(), report) == M.OnTick(settings, old(Snapshot()), now)
    {
      report := M.Continue;
      if state == M.Init || state == M.Closed {
      } else if state == M.Connecting {
        if phase == M.Reconnecting {
          if M.ConnHasTimeout(Snapshot(), now) {
            var ok := StartNewAttempt(now);
            if ok {
              Discover();
            } else {
              report := M.Quit;
            }
          }
        } else if phase == M.Authentication {
          if M.HasInitReqTimeout(settings, Snapshot(), now) {
            IdentifyClient(now);
          }
          ManageHeartbeat(now);
        } else if phase == M.Identification {
          if M.HasInitReqTimeout(settings, Snapshot(), now) {
            report := M.Quit;
          } else {
            ManageHeartbeat(now);
          }
        }
      } else {
        if candidate.Some? && Elapsed(lastOperationCheck, now) >= settings.operationCheckPeriod {
          output := output + [RegistryCheckAndRetry(candidate.value.id)];
          lastOperationCheck := now;
        }
        ManageHeartbeat(now);
      }
      Runs.StepKeepsInv(settings, old(Snapshot()), Runs.Timed(now, Runs.TickMsg));
    }

    method OnSendPkg(pkg: Pkg)
      requires Valid()
      modifies this
      ensures Valid()
      ensures Snapshot() == M.OnSendPkg(old(Snapshot()), pkg)
    {
      if state == M.Connected && candidate.Some? {
        output := output + [Enqueue(candidate.value.id, pkg)];
      }
      // this handler does not read the clock
      Runs.StepKeepsInv(settings, old(Snapshot()), Runs.Timed(0, Runs.SendMsg(pkg)));
    }
  }
}
