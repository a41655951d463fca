/** Value types shared by the heartbeat tracker and the connection driver:
    the clock, identifiers, packages and the outputs the driver produces
    instead of performing I/O. */
module Wire {
  import opened Command

  datatype Option<T> = None | Some(value: T)

  /** An unsigned 32-bit counter; `+= 1` wraps around (release build). */
  type U32 = x: int | 0 <= x < 0x1_0000_0000

  const U32_MAX: U32 := 0xFFFF_FFFF

  function WrappingIncr(x: U32): (r: U32)
    ensures x < U32_MAX ==> r == x + 1
    ensures x == U32_MAX ==> r == 0
  {
    (x + 1) % 0x1_0000_0000
  }

  /** A point of the monotonic clock, in milliseconds. */
  type Instant = int

  /** `start.elapsed()` read at `now`: never negative. */
  function Elapsed(start: Instant, now: Instant): nat {
    if now >= start then now - start else 0
  }

  /** The identifier of a connection or of a request's correlation. */
  datatype Uuid = Uuid(n: nat)

  datatype Credentials = Credentials(login: string, password: string)

  datatype Endpoint = Endpoint(addr: string)

  /** A connection the driver holds: its identifier and its address. */
  datatype Connection = Connection(id: Uuid, addr: string)

  /** An operation handed to the registry. */
  datatype Exchange = Exchange(op: nat)

  /** What a package carries besides its header (command and correlation). */
  datatype Body =
    | NoBody
    | CredentialsBody(creds: Credentials)
    | ClientNameBody(name: Option<string>)
    | Payload(bytes: seq<U8>)

  datatype Pkg = Pkg(cmd: Cmd, correlation: Uuid, body: Body)

  function HeartbeatRequestPkg(correlation: Uuid): Pkg {
    Pkg(HeartbeatRequest, correlation, NoBody)
  }

  function AuthenticatePkg(creds: Credentials, correlation: Uuid): Pkg {
    Pkg(Authenticate, correlation, CredentialsBody(creds))
  }

  function IdentifyClientPkg(name: Option<string>, correlation: Uuid): Pkg {
    Pkg(IdentifyClient, correlation, ClientNameBody(name))
  }

  /** `copy_headers_only`: same command and correlation, nothing else. */
  function HeadersOnly(pkg: Pkg): Pkg {
    Pkg(pkg.cmd, pkg.correlation, NoBody)
  }

  /** The driver's outputs, recorded in order instead of being performed. */
  datatype Effect =
    | SpawnTicker                                 // the 200 ms timer posting Tick
    | DiscoverEndpoint(last: Option<Endpoint>)    // ask discovery, post Establish
    | Enqueue(conn: Uuid, pkg: Pkg)               // send on a connection
    | RegistryHandle(pkg: Pkg, conn: Uuid)        // hand a reply to the registry
    | RegistryRegister(op: Exchange, connOpt: Option<Uuid>)
    | RegistryCheckAndRetry(conn: Uuid)
}
