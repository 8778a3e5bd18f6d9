/**
 * The socket commands of the SIM7020 modem: create a socket (AT+CSOC), connect it to a
 * remote host (AT+CSOCON), send data through it (AT+CSOSEND) and close it (AT+CSOCL).
 * Each command is encoded into an AT command line and, where it has its own parser,
 * the modem's reply is decoded into a typed outcome.
 */
module Socket {
  import opened Wrappers
  import opened AtCommands

  // ---------------------------------------------------------------------------
  // Socket vocabulary

  /** Address family of the socket. */
  datatype Domain = IPv4 | IPv6

  /** Connection type of the socket; `UPD` is the datagram type (UDP), spelled as the driver spells it. */
  datatype Type = TCP | UPD | RAW

  /** Protocol underneath the socket. */
  datatype Protocol = IP | ICMP | UDPLITE

  function DomainCode(d: Domain): (c: u8)
    ensures 1 <= c <= 2
    ensures DomainFromCode(c as int) == Some(d)
  {
    match d
    case IPv4 => 1
    case IPv6 => 2
  }

  function TypeCode(t: Type): (c: u8)
    ensures 1 <= c <= 3
    ensures TypeFromCode(c as int) == Some(t)
  {
    match t
    case TCP => 1
    case UPD => 2
    case RAW => 3
  }

  function ProtocolCode(p: Protocol): (c: u8)
    ensures 1 <= c <= 3
    ensures ProtocolFromCode(c as int) == Some(p)
  {
    match p
    case IP => 1
    case ICMP => 2
    case UDPLITE => 3
  }

  /** The domain a code stands for; every other code stands for none. */
  function DomainFromCode(c: int): Option<Domain>
  {
    if c == 1 then Some(IPv4) else if c == 2 then Some(IPv6) else None
  }

  function TypeFromCode(c: int): Option<Type>
  {
    if c == 1 then Some(TCP) else if c == 2 then Some(UPD) else if c == 3 then Some(RAW) else None
  }

  function ProtocolFromCode(c: int): Option<Protocol>
  {
    if c == 1 then Some(IP) else if c == 2 then Some(ICMP) else if c == 3 then Some(UDPLITE) else None
  }

  // ---------------------------------------------------------------------------
  // Commands

  /** Create a socket; `cid` names a packet-data context, or is absent for the modem's default. */
  datatype CreateSocket = CreateSocket(domain: Domain, connectionType: Type, protocol: Protocol, cid: Option<i32>)

  /** Connect socket `socketId` to `remoteAddress` (the bytes of the address text) on `port`. */
  datatype ConnectSocketToRemote = ConnectSocketToRemote(socketId: u8, port: u16, remoteAddress: seq<u8>, connectionType: Type)

  /** Send `data` through socket `socketId`; `dataLen` is written as given. */
  datatype SendSocketMessage = SendSocketMessage(socketId: u8, dataLen: u16, data: seq<u8>)

  /** Close socket `socketId`. */
  datatype CloseSocket = CloseSocket(socketId: u8)

  const CSOC: seq<u8> := [0x2b, 0x43, 0x53, 0x4f, 0x43]  // "+CSOC"
  const CSOCON: seq<u8> := [0x2b, 0x43, 0x53, 0x4f, 0x43, 0x4f, 0x4e]  // "+CSOCON"
  const CSOSEND: seq<u8> := [0x2b, 0x43, 0x53, 0x4f, 0x53, 0x45, 0x4e, 0x44]  // "+CSOSEND"
  const CSOCL: seq<u8> := [0x2b, 0x43, 0x53, 0x4f, 0x43, 0x4c]  // "+CSOCL"

  /** The parameters of AT+CSOC: domain, type and protocol codes, then the context id only when present. */
  function CreateSocketParams(c: CreateSocket): seq<Param>
  {
    [Int(DomainCode(c.domain) as i32), Int(TypeCode(c.connectionType) as i32), Int(ProtocolCode(c.protocol) as i32)]
    + (if c.cid.Some? then [Int(c.cid.value)] else [])
  }

  function CreateSocketCommand(c: CreateSocket): seq<u8>
  {
    CommandLine(CSOC, CreateSocketParams(c))
  }

  function ConnectSocketToRemoteParams(c: ConnectSocketToRemote): seq<Param>
  {
    [Int(c.socketId as i32), Int(c.port as i32), Str(c.remoteAddress), Int(TypeCode(c.connectionType) as i32)]
  }

  /** The port must be nonzero: the driver refuses to encode a connection to port 0. */
  function ConnectSocketToRemoteCommand(c: ConnectSocketToRemote): seq<u8>
    requires c.port > 0
  {
    CommandLine(CSOCON, ConnectSocketToRemoteParams(c))
  }

  function SendSocketMessageParams(c: SendSocketMessage): seq<Param>
  {
    [Int(c.socketId as i32), Int(c.dataLen as i32), Raw(c.data)]
  }

  function SendSocketMessageCommand(c: SendSocketMessage): seq<u8>
  {
    CommandLine(CSOSEND, SendSocketMessageParams(c))
  }

  function CloseSocketCommand(c: CloseSocket): seq<u8>
  {
    CommandLine(CSOCL, [Int(c.socketId as i32)])
  }

  // ---------------------------------------------------------------------------
  // Encoding into the caller's buffer

  method CreateSocketGetCommand(c: CreateSocket, buffer: array<u8>) returns (r: Result<nat, nat>)
    modifies buffer
    ensures Finished(CreateSocketCommand(c), old(buffer[..]), buffer[..], r)
  {
    var builder := new CommandBuilder.CreateSet(buffer);
    builder.Named(CSOC);
    builder.WithIntParameter(DomainCode(c.domain) as i32);
    builder.WithIntParameter(TypeCode(c.connectionType) as i32);
    builder.WithIntParameter(ProtocolCode(c.protocol) as i32);
    if c.cid.Some? {
      builder.WithIntParameter(c.cid.value);
    }
    assert builder.params == CreateSocketParams(c);
    r := builder.Finish();
  }

  method ConnectSocketToRemoteGetCommand(c: ConnectSocketToRemote, buffer: array<u8>) returns (r: Result<nat, nat>)
    requires c.port > 0
    modifies buffer
    ensures Finished(ConnectSocketToRemoteCommand(c), old(buffer[..]), buffer[..], r)
  {
    var builder := new CommandBuilder.CreateSet(buffer);
    builder.Named(CSOCON);
    builder.WithIntParameter(c.socketId as i32);
    builder.WithIntParameter(c.port as i32);
    builder.WithStringParameter(c.remoteAddress);
    builder.WithIntParameter(TypeCode(c.connectionType) as i32);
    assert builder.params == ConnectSocketToRemoteParams(c);
    r := builder.Finish();
  }

  method SendSocketMessageGetCommand(c: SendSocketMessage, buffer: array<u8>) returns (r: Result<nat, nat>)
    modifies buffer
    ensures Finished(SendSocketMessageCommand(c), old(buffer[..]), buffer[..], r)
  {
    var builder := new CommandBuilder.CreateSet(buffer);
    builder.Named(CSOSEND);
    builder.WithIntParameter(c.socketId as i32);
    builder.WithIntParameter(c.dataLen as i32);
    builder.WithRawParameter(c.data);
    assert builder.params == SendSocketMessageParams(c);
    r := builder.Finish();
  }

  method CloseSocketGetCommand(c: CloseSocket, buffer: array<u8>) returns (r: Result<nat, nat>)
    modifies buffer
    ensures Finished(CloseSocketCommand(c), old(buffer[..]), buffer[..], r)
  {
    var builder := new CommandBuilder.CreateSet(buffer);
    builder.Named(CSOCL);
    builder.WithIntParameter(c.socketId as i32);
    assert builder.params == [Int(c.socketId as i32)];
    r := builder.Finish();
  }

  // ---------------------------------------------------------------------------
  // Replies

  /** The successful outcomes of the socket commands. */
  datatype AtResponse = Ok | SocketCreated(socketId: u8)

  /** A reply that does not match the expected pattern. */
  datatype AtError = ParseError

  const CSOC_REPLY_PREFIX: seq<u8> := [0x2b, 0x43, 0x53, 0x4f, 0x43, 0x3a, 0x20]  // "+CSOC: "
  const CSOC_REPLY_SUFFIX: seq<u8> := [0x0d, 0x0a, 0x0d, 0x0a, 0x4f, 0x4b, 0x0d, 0x0a]  // "\r\n\r\nOK\r\n"
  const OK_REPLY: seq<u8> := [0x4f, 0x4b, 0x0d, 0x0a]  // "OK\r\n"

  /** The low 8 bits of a 32-bit integer, as a cast to an unsigned byte keeps them. */
  function TruncateToU8(i: i32): (b: u8)
    ensures (b as int - i as int) % 0x100 == 0
  {
    (i as int % 0x100) as u8
  }

  /** Reads `+CSOC: <id>\r\n\r\nOK\r\n`; the id is cut down to its low 8 bits. */
  function ParseCreateSocketResponse(data: seq<u8>): Result<AtResponse, AtError>
  {
    var socketId := (
      var afterPrefix :- ExpectIdentifier(data, CSOC_REPLY_PREFIX);
      var parsed :- ExpectIntParameter(afterPrefix);
      var rest :- ExpectIdentifier(parsed.1, CSOC_REPLY_SUFFIX);
      Finish(rest, parsed.0));
    match socketId
    case Some(i) => Success(SocketCreated(TruncateToU8(i)))
    case None => Failure(ParseError)
  }

  /** The reply shared by AT+CSOCON and AT+CSOSEND: exactly `OK\r\n`. */
  function ParseOkReply(data: seq<u8>): (r: Result<AtResponse, AtError>)
    ensures r.Success? <==> data == OK_REPLY
    ensures r.Success? ==> r.value == Ok
  {
    var done := (
      var rest :- ExpectIdentifier(data, OK_REPLY);
      Finish(rest, ()));
    if done.Some? then Success(Ok) else Failure(ParseError)
  }

  function ParseConnectSocketToRemoteResponse(data: seq<u8>): (r: Result<AtResponse, AtError>)
    ensures r == (if data == OK_REPLY then Success(Ok) else Failure(ParseError))
  {
    ParseOkReply(data)
  }

  function ParseSendSocketMessageResponse(data: seq<u8>): (r: Result<AtResponse, AtError>)
    ensures r == (if data == OK_REPLY then Success(Ok) else Failure(ParseError))
  {
    ParseOkReply(data)
  }
}
