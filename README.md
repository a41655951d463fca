# EventStore TCP client: command codec and connection driver

This project models, in Dafny, the connection core of the EventStore TCP
client library (`eventstore-rs`):

- **The command byte codec** (`src/internal/command.rs`). `Cmd` is a closed
  set of seventeen named commands plus `Unknown(u8)`. `to_u8` and `from_u8`
  convert between a command and its wire byte. Two commands are equal when
  their bytes are equal (module `Command`).
- **The heartbeat tracker** (`HealthTracker` in `src/internal/driver.rs`). It
  counts arrived packages and, on each tick, restarts its delay, sends one
  heartbeat request, or declares the connection dead (module `Health`).
- **The connection driver** (`Driver` in `src/internal/driver.rs`). It has a
  connection state (Init, Connecting, Connected, Closed), a phase
  (Reconnecting, EndpointDiscovery, Establishing, Authentication,
  Identification), a reconnection attempt with its retry counter, the
  outstanding authentication or identification request, and the candidate
  connection. It is modelled twice:
  - as pure transitions, one function per handler (module `Machine`);
  - as a class whose methods update its fields in place (module `Driver`).

  Each class method is proved to perform exactly its `Machine` transition.
  The public methods also keep the driver's invariant (module `Runs`).

How the model stands in for what it leaves out:

- The clock is an integer `now` (milliseconds) passed to every handler that
  reads it. `Elapsed` is `now - start`, and never negative.
- Identifiers are generated from a counter (`nextId`). This covers the
  correlation of every package the driver builds and the id of every new
  connection. So generated ids are fresh and pairwise distinct.
- I/O is recorded, in order, in the `output` sequence instead of being
  performed:
  - the ticker the driver spawns;
  - each call to discovery, with the `Establish` message it posts;
  - every package enqueued on a connection;
  - every call into the registry.
- `u32` counters (`pkg_num`, `tries`) wrap around on overflow, as a release
  build does.

Main results:

- `Runs.ConnectedHoldsCandidate` proves what the source's comments at
  `driver.rs` lines 365 and 378 assume. In every reachable state, a
  connected driver holds its candidate connection and has no attempt
  running.
- `Health.QuietFailure` proves a timing bound for the tracker. If no package
  arrives, a heartbeat failure is declared only after exactly one heartbeat
  request went out. It also needs at least `heartbeat_delay +
  heartbeat_timeout` to have passed since the first tick.
- `Command.FromU8` and `Command.DecodeEncode` give the codec's round trips.
  Encoding then decoding gives back the same value only for canonical
  commands: `Unknown(0x01)` comes back as `HeartbeatRequest`.

The code sometimes compares commands with the custom equality
(`pkg.cmd == Cmd::ClientIdentified`) and sometimes by pattern (`match
pkg.cmd`). The model keeps that distinction:
- `Command.Equal` stands for the custom equality;
- a structural `match` stands for the pattern.
`Command.EqualOnCanonical` shows that the two agree on every decoded command.

## Model

| member | source | states |
|---|---|---|
| `Command.ToU8` | src/internal/command.rs:32-53 | Encoding is total. An `Unknown` command encodes as its own byte, and every named command encodes to one of the assigned bytes. |
| `Command.FromU8` | src/internal/command.rs:55-76 | Encoding undoes decoding on all 256 bytes. The result is `Unknown(b)` exactly when `b` is not one of the seventeen assigned bytes, and the result is always canonical. |
| `Command.Equal` | src/internal/command.rs:23-27 | Two commands are equal exactly when they decode to the same command, i.e. when their bytes agree. |
| `Command.DecodeEncode` | src/internal/command.rs:23-27 | Decoding after encoding gives a command equal to the original. It gives the very same value exactly when the original is canonical. |
| `Command.FromU8Injective` | src/internal/command.rs:55-76 | Distinct bytes decode to distinct commands. |
| `Command.NamedCodesDistinct` | src/internal/command.rs:34-50 | No two named commands share a byte, so encoding is injective on named commands. |
| `Command.EqualIsEquivalence` | src/internal/command.rs:23-29 | Command equality (equality of bytes) is reflexive, symmetric and transitive. |
| `Command.EqualOnCanonical` | src/internal/command.rs:23-27 | On canonical commands, byte equality coincides with structural equality. |
| `Command.UnknownAliasesNamed` | src/internal/command.rs:23-27 | `Unknown(0x01)` equals `HeartbeatRequest` and decodes back as it, not as itself. `Unknown(0xF6)` equals `ClientIdentified`. |
| `Health.Manage` | src/internal/driver.rs:57-101 | From `Init`, the tracker moves to `Delay(pkg_num, now)`. A changed package count goes back to `Delay`. A heartbeat request is sent exactly when a quiet `Delay` has lasted `heartbeat_delay`, and the tracker then moves to `Timeout`. `Failure` is returned exactly when a quiet `Timeout` has lasted `heartbeat_timeout`. |
| `Health.QuietRun` | src/internal/driver.rs:57-101 | A sequence of heartbeat checks with no package in between, one decision per tick. This is the iteration `Health.QuietFailure` reasons about; its own contract only fixes the length. |
| `Health.QuietRunFrom` | src/internal/driver.rs:58-99 | The induction behind `Health.QuietFailure`: from a `Delay` or `Timeout` begun at `t0` with a given number of requests already sent, a quiet failure comes at least `heartbeat_delay + heartbeat_timeout` after `t0`, with exactly one request sent in total. |
| `Health.QuietFailure` | src/internal/driver.rs:58-99 | After a reset, with no package arriving, a failure happens only after exactly one heartbeat request went out and at least `heartbeat_delay + heartbeat_timeout` has passed since the first tick. |
| `Health.HealthTracker.constructor` | src/internal/driver.rs:40-47 | A new tracker has `pkg_num == 0`, state `Init` and the configured delays. |
| `Health.HealthTracker.IncrPkgNum` | src/internal/driver.rs:49-51 | `pkg_num` goes up by exactly one (wrapping at 2^32). The state does not change. |
| `Health.HealthTracker.Reset` | src/internal/driver.rs:53-55 | The state becomes `Init` and `pkg_num` does not change. |
| `Health.HealthTracker.ManageHeartbeat` | src/internal/driver.rs:57-101 | Performs `Health.Manage` in place. `pkg_num` does not change. |
| `Wire.WrappingIncr` | src/internal/driver.rs:49-51 | The `u32` `+= 1` of `pkg_num` and of `tries` (line 406): one more below `u32::MAX`, zero at `u32::MAX`. |
| `Machine.Initial` | src/internal/driver.rs:183-204 | A new driver is in Init, phase Reconnecting, with no candidate, attempt, endpoint or init request, a tracker at `pkg_num == 0` in `Init`, the operation-check clock at `now`, and no output. |
| `Machine.IsSameConnection` | src/internal/driver.rs:291-296 | Only the candidate's id is the same connection; without a candidate no id is. |
| `Machine.SameConnectionUnique` | src/internal/driver.rs:291-296 | At most one id is the same connection as the candidate. |
| `Machine.HasInitReqTimeout` | src/internal/driver.rs:388-394 | False without an init request. With one, true exactly once `now` has reached its start plus `operation_timeout` (always, for a zero timeout). |
| `Machine.ConnHasTimeout` | src/internal/driver.rs:396-402 | True exactly when there is an attempt and `now` has reached its start plus the three-second reconnect delay. |
| `Machine.Discover` | src/internal/driver.rs:223-235 | Acts only in Connecting/Reconnecting. It then moves to EndpointDiscovery, resets the tracker and records one discovery with the last endpoint. |
| `Machine.Start` | src/internal/driver.rs:206-221 | Starting sets the full new state. The driver is Connecting with a fresh attempt (`tries == 0`) started now. The ticker is spawned and discovery runs at once, so the phase is EndpointDiscovery, the tracker is reset, and the output gains the ticker and one discovery with the last endpoint. Candidate and init request are unchanged. |
| `Machine.OnEstablish` | src/internal/driver.rs:237-243 | Acts only in Connecting/EndpointDiscovery. It then moves to Establishing, records the endpoint, makes a new candidate connection with the next id on its address, advances the id counter by one and changes nothing else. |
| `Machine.Authenticate` | src/internal/driver.rs:245-256 | Acts only in Connecting/Establishing. It then moves to Authentication, records a new init request started now, sends the authenticate package with that correlation on the candidate, advances the id counter by one and changes nothing else. |
| `Machine.IdentifyClient` | src/internal/driver.rs:258-269 | Acts only in Connecting with phase Authentication or Establishing. It then moves to Identification, records a new init request started now, sends the identify package with the connection name on the candidate, advances the id counter by one and changes nothing else. |
| `Machine.OnEstablished` | src/internal/driver.rs:271-289 | Acts only in Connecting/Establishing and only for the candidate's own id. It then resets the tracker and starts the handshake: a new init request started now, and either the authenticate package with the default user's credentials (phase Authentication) or the identify package (phase Identification) enqueued on the candidate. Nothing else changes. |
| `Machine.TcpConnectionClose` | src/internal/driver.rs:305-322 | From Connected: Connecting/Reconnecting with a fresh attempt. From Connecting: Reconnecting, keeping the attempt. Init and Closed: unchanged. |
| `Machine.OnConnectionClosed` | src/internal/driver.rs:298-303 | When the candidate's own connection closes, the driver takes the `tcp_connection_close` transition: from Connected back to Connecting/Reconnecting with a fresh attempt started now, from Connecting to Reconnecting keeping its attempt. Any other id changes nothing. |
| `Machine.OnPackageArrived` | src/internal/driver.rs:324-373 | Every package increments `pkg_num` and leaves the tracker's heartbeat status as it was. A `ClientIdentified` in Connecting/Identification consumes the request; with a matching correlation the driver becomes Connected, the attempt is cleared and the operation-check clock restarts, and this is the only way to become Connected. A matching `Authenticated` or `NotAuthenticated` moves on to identification with a new request and the identify package on the candidate; a non-matching one only consumes the request. Other packages during the handshake only count. A connected driver stays as it is: a `HeartbeatRequest` gets exactly one `HeartbeatResponse` with the same headers, a `HeartbeatResponse` is absorbed, and every other package goes to the registry on the candidate. |
| `Machine.OnNewOp` | src/internal/driver.rs:375-386 | The operation is always registered. The registry gets the candidate's connection exactly when the driver is connected and holds one, and `None` otherwise. Nothing but the output changes. |
| `Machine.StartNewAttempt` | src/internal/driver.rs:404-413 | With an attempt, `tries` goes up by one and the attempt restarts now. The result is whether the new `tries` is within `max_reconnect`. Without an attempt, nothing changes and the result is false. |
| `Machine.CloseConnection` | src/internal/driver.rs:415-417 | The state becomes Closed and nothing else changes. |
| `Machine.ManageHeartbeat` | src/internal/driver.rs:419-435 | Without a candidate, nothing happens. Otherwise the tracker decides. A heartbeat request is enqueued on the candidate when the tracker sends one. The id counter advances exactly when a request is sent. On failure the candidate is dropped and the `tcp_connection_close` transition applies: a connected driver goes to Connecting/Reconnecting with a fresh attempt started now, a connecting one to Reconnecting keeping its attempt, and Init or Closed keep their state. Without failure only the tracker status, the output and the id counter change. On both branches the init request, the last endpoint and the operation-check clock are kept. |
| `Machine.CheckOperations` | src/internal/driver.rs:469-474 | Once `operation_check_period` has passed since the last check (always, for a zero period), and there is a candidate, the registry retries on it and the check clock restarts at now. Before that, or without a candidate, nothing changes. |
| `Machine.OnTick` | src/internal/driver.rs:437-481 | In Init or Closed nothing changes and the result is Continue. Quit is returned exactly in two cases: in Reconnecting once the retry that the reconnect delay allows would exceed `max_reconnect` (the attempt then still records the try), and in Identification once the init request has expired (nothing changes). Within the budget the retry restarts the attempt and rediscovers. Before the reconnect delay, and in EndpointDiscovery or Establishing, nothing changes. Authentication re-identifies on an expired request and then checks the heartbeat; Identification checks the heartbeat; Connected runs the operation check and then the heartbeat. |
| `Machine.OnSendPkg` | src/internal/driver.rs:483-489 | The package is enqueued on the candidate only when connected. Otherwise nothing changes. |
| `Runs.StepKeepsInv` | src/internal/driver.rs:206-489 | Every handler keeps the driver's invariant. A connected driver is identified, has no attempt and holds its candidate. A connecting driver has an attempt. From Establishing on, a connecting driver holds its candidate. |
| `Runs.RunKeepsInv` | src/internal/driver.rs:206-489 | Any sequence of handled messages keeps the invariant. |
| `Runs.ConnectedHoldsCandidate` | src/internal/driver.rs:365-367 | In every state reachable from a new driver, a connected driver holds its candidate and has no attempt, and a connecting driver has an attempt. |
| `Runs.TickExtendsOutput` | src/internal/driver.rs:437-481 | A tick only appends to the output. |
| `Runs.RunExtendsOutput` | src/internal/driver.rs:206-489 | Outputs are only ever appended: no run takes back an effect. |
| `Runs.QuietWhenIdle` | src/internal/driver.rs:324-489 | A new or closed driver enqueues no package on any connection, whatever message it handles other than `start`. |
| `Runs.HandshakeWithoutUser` | src/internal/driver.rs:206-338 | Without a default user, the sequence start, establish, established and a matching `ClientIdentified` connects the driver. The only output on the wire is the identify package. |
| `Runs.MismatchedIdentification` | src/internal/driver.rs:327-338 | A `ClientIdentified` with the wrong correlation leaves the driver identifying with no request left. The identification timeout then no longer makes a tick return Quit. |
| `Driver.Driver.constructor` | src/internal/driver.rs:183-204 | A new driver has the state `Machine.Initial(now)`, satisfies the invariant, and owns a freshly allocated tracker. |
| `Driver.Driver.Start` | src/internal/driver.rs:206-221 | Performs `Machine.Start` in place and keeps the invariant. |
| `Driver.Driver.Discover` | src/internal/driver.rs:223-235 | Performs `Machine.Discover` in place. |
| `Driver.Driver.OnEstablish` | src/internal/driver.rs:237-243 | Performs `Machine.OnEstablish` in place and keeps the invariant. |
| `Driver.Driver.Authenticate` | src/internal/driver.rs:245-256 | Performs `Machine.Authenticate` in place. |
| `Driver.Driver.IdentifyClient` | src/internal/driver.rs:258-269 | Performs `Machine.IdentifyClient` in place. |
| `Driver.Driver.OnEstablished` | src/internal/driver.rs:271-289 | Performs `Machine.OnEstablished` in place and keeps the invariant. |
| `Driver.Driver.OnConnectionClosed` | src/internal/driver.rs:298-303 | Performs `Machine.OnConnectionClosed` in place and keeps the invariant. |
| `Driver.Driver.TcpConnectionClose` | src/internal/driver.rs:305-322 | Performs `Machine.TcpConnectionClose` in place. |
| `Driver.Driver.OnPackageArrived` | src/internal/driver.rs:324-373 | Performs `Machine.OnPackageArrived` in place and keeps the invariant. |
| `Driver.Driver.OnNewOp` | src/internal/driver.rs:375-386 | Performs `Machine.OnNewOp` in place and keeps the invariant. |
| `Driver.Driver.StartNewAttempt` | src/internal/driver.rs:404-413 | Performs `Machine.StartNewAttempt` in place and returns its verdict. |
| `Driver.Driver.CloseConnection` | src/internal/driver.rs:415-417 | Performs `Machine.CloseConnection` in place and keeps the invariant. |
| `Driver.Driver.ManageHeartbeat` | src/internal/driver.rs:419-435 | Performs `Machine.ManageHeartbeat` in place. |
| `Driver.Driver.OnTick` | src/internal/driver.rs:437-481 | Performs `Machine.OnTick` in place, returns its report and keeps the invariant. |
| `Driver.Driver.OnSendPkg` | src/internal/driver.rs:483-489 | Performs `Machine.OnSendPkg` in place and keeps the invariant. |

## Left out

- The tokio plumbing is not modelled: the interval timer, `handle.spawn` and the `Sender<Msg>` channel. The ticker and the `Establish` message are recorded as effects instead.
- `Connection` internals and `conn.enqueue` (socket I/O) are not modelled. `src/internal/connection.rs` is not part of this model. An enqueue is an appended `Enqueue` effect.
- `Registry::handle`, `register` and `check_and_retry` are recorded as effects only. `src/internal/registry.rs` is not part of this model.
- `Discovery::discover` is recorded as an effect carrying the last endpoint. The discovery source is not part of this model. The endpoint it finds reaches the driver as the argument of `on_establish`.
- Package construction and serialisation are not modelled. `src/internal/package.rs` is not part of this model. A package is its command, its correlation and an abstract body, and `copy_headers_only` keeps the command and the correlation.
- Random `Uuid` generation is replaced by a counter, which keeps generated ids distinct.
- `Instant` and `Duration` are replaced by integer milliseconds passed in by the caller. Nothing in the model has real-time semantics.
- `println!` logging and the `Error` value given to `on_connection_closed` are not modelled; the source only prints them.
- `Retry::to_u32` is not modelled (`src/types.rs` is not part of this model). `max_reconnect` is a setting given directly.
- Driver.Driver.constructor: takes the settings and the clock reading only. The registry, discovery, channel and reactor handle of `Driver::new` are left out along with their sources.
- Health.HealthTracker.ManageHeartbeat: returns whether a heartbeat request is due, and the driver's `ManageHeartbeat` enqueues it. In the source the tracker enqueues it itself, on the connection passed in; the order of effects is the same.
- Health.HealthTracker.IncrPkgNum: a debug build would panic on `u32` overflow. The model follows a release build, which wraps around.
- Concurrency is not modelled. The driver handles one message at a time from a single event loop.
- The repository's CI workflow files are not modelled.
