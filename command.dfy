/** The command byte of the TCP protocol: a closed set of seventeen named
    commands plus `Unknown(code)` for every other byte. Two commands are
    equal exactly when their bytes are equal, so `Unknown(0xF6)` and
    `ClientIdentified` are the same command for the driver. */
module Command {

  type U8 = b: int | 0 <= b < 0x100

  datatype Cmd =
    | HeartbeatRequest
    | HeartbeatResponse
    | IdentifyClient
    | ClientIdentified
    | Authenticate
    | Authenticated
    | NotAuthenticated
    | WriteEvents
    | WriteEventsCompleted
    | ReadEvent
    | ReadEventCompleted
    | TransactionStart
    | TransactionStartCompleted
    | TransactionWrite
    | TransactionWriteCompleted
    | TransactionCommit
    | TransactionCommitCompleted
    | Unknown(code: U8)

  /** The protocol's table of assigned command bytes, one per named command. */
  const NamedCodes: set<U8> :=
    {0x01, 0x02, 0xF5, 0xF6, 0xF2, 0xF3, 0xF4, 0x82, 0x83,
     0xB0, 0xB1, 0x84, 0x85, 0x86, 0x87, 0x88, 0x89}

  /** Encoding: total, an `Unknown` command carries its own byte. */
  function ToU8(c: Cmd): (b: U8)
    ensures c.Unknown? ==> b == c.code
    ensures !c.Unknown? ==> b in NamedCodes
  {
    match c
    case HeartbeatRequest           => 0x01
    case HeartbeatResponse          => 0x02
    case IdentifyClient             => 0xF5
    case ClientIdentified           => 0xF6
    case Authenticate               => 0xF2
    case Authenticated              => 0xF3
    case NotAuthenticated           => 0xF4
    case WriteEvents                => 0x82
    case WriteEventsCompleted       => 0x83
    case ReadEvent                  => 0xB0
    case ReadEventCompleted         => 0xB1
    case TransactionStart           => 0x84
    case TransactionStartCompleted  => 0x85
    case TransactionWrite           => 0x86
    case TransactionWriteCompleted  => 0x87
    case TransactionCommit          => 0x88
    case TransactionCommitCompleted => 0x89
    case Unknown(code)              => code
  }

  /** A command is canonical when it is the one decoding yields for its
      byte: named, or `Unknown` of a byte no named command uses. */
  predicate Canonical(c: Cmd) {
    c.Unknown? ==> c.code !in NamedCodes
  }

  /** Decoding: total over all 256 bytes; encoding undoes it, it yields
      `Unknown(b)` exactly for the unassigned bytes, and its result is
      always canonical. */
  function FromU8(b: U8): (c: Cmd)
    ensures ToU8(c) == b
    ensures c.Unknown? <==> b !in NamedCodes
    ensures Canonical(c)
  {
    match b
    case 0x01 => HeartbeatRequest
    case 0x02 => HeartbeatResponse
    case 0xF5 => IdentifyClient
    case 0xF6 => ClientIdentified
    case 0xF2 => Authenticate
    case 0xF3 => Authenticated
    case 0xF4 => NotAuthenticated
    case 0x82 => WriteEvents
    case 0x83 => WriteEventsCompleted
    case 0xB0 => ReadEvent
    case 0xB1 => ReadEventCompleted
    case 0x84 => TransactionStart
    case 0x85 => TransactionStartCompleted
    case 0x86 => TransactionWrite
    case 0x87 => TransactionWriteCompleted
    case 0x88 => TransactionCommit
    case 0x89 => TransactionCommitCompleted
    case _    => Unknown(b)
  }

  /** The command equality of the protocol: equality of the bytes, that is,
      two commands are equal exactly when they decode to the same command. */
  predicate Equal(a: Cmd, b: Cmd)
    ensures Equal(a, b) <==> FromU8(ToU8(a)) == FromU8(ToU8(b))
  {
    ToU8(a) == ToU8(b)
  }

  /** Decoding after encoding gives back an equal command, and gives back
      the very same value exactly when that value is canonical. */
  lemma DecodeEncode(c: Cmd)
    ensures Equal(FromU8(ToU8(c)), c)
    ensures FromU8(ToU8(c)) == c <==> Canonical(c)
  {
  }

  /** Decoding is injective: distinct bytes decode to distinct commands. */
  lemma FromU8Injective(a: U8, b: U8)
    ensures FromU8(a) == FromU8(b) ==> a == b
  {
  }

  /** Distinct named commands have distinct bytes. */
  lemma NamedCodesDistinct(a: Cmd, b: Cmd)
    requires !a.Unknown? && !b.Unknown?
    ensures ToU8(a) == ToU8(b) ==> a == b
  {
  }

  /** Equality of commands is an equivalence relation. */
  lemma EqualIsEquivalence(a: Cmd, b: Cmd, c: Cmd)
    ensures Equal(a, a)
    ensures Equal(a, b) ==> Equal(b, a)
    ensures Equal(a, b) && Equal(b, c) ==> Equal(a, c)
  {
  }

  /** On canonical commands the protocol's equality is structural equality. */
  lemma EqualOnCanonical(a: Cmd, b: Cmd)
    requires Canonical(a) && Canonical(b)
    ensures Equal(a, b) <==> a == b
  {
  }

  /** A non-canonical command: `Unknown(0x01)` equals `HeartbeatRequest`
      and decodes back as `HeartbeatRequest`, not as itself; likewise
      `Unknown(0xF6)` equals `ClientIdentified`. */
  lemma UnknownAliasesNamed()
    ensures FromU8(ToU8(Unknown(0x01))) == HeartbeatRequest != Unknown(0x01)
    ensures Equal(Unknown(0x01), HeartbeatRequest)
    ensures Equal(Unknown(0xF6), ClientIdentified)
  {
  }
}
