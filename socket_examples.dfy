/** The wire forms the driver's own tests fix, restated against the model. */
module SocketExamples {
  import opened Wrappers
  import opened AtCommands
  import opened Socket
  import opened SocketProperties

  lemma EnumCodes()
    ensures DomainCode(IPv4) == 1 && DomainCode(IPv6) == 2
    ensures TypeCode(TCP) == 1 && TypeCode(UPD) == 2 && TypeCode(RAW) == 3
    ensures ProtocolCode(IP) == 1 && ProtocolCode(ICMP) == 2 && ProtocolCode(UDPLITE) == 3
  {
  }

  lemma DecimalExamples()
    ensures Decimal(0) == Ascii("0") && Decimal(1) == Ascii("1") && Decimal(1111) == Ascii("1111")
  {
  }

  lemma CreateSocketWithCid()
    ensures CreateSocketCommand(CreateSocket(IPv4, TCP, IP, Some(3))) == Ascii("AT+CSOC=1,1,1,3\r\n")
  {
  }

  lemma CreateSocketWithoutCid()
    ensures CreateSocketCommand(CreateSocket(IPv6, RAW, ICMP, None)) == Ascii("AT+CSOC=2,3,2\r\n")
  {
  }

  /** Writing the AT+CSOC example into a 512-byte buffer succeeds and leaves the line at its front. */
  method CreateSocketIntoBuffer() returns (r: Result<nat, nat>, written: seq<u8>)
    ensures r == Success(17)
    ensures written == Ascii("AT+CSOC=1,1,1,3\r\n")
  {
    var buffer := new u8[512];
    var c := CreateSocket(IPv4, TCP, IP, Some(3));
    CreateSocketWithCid();
    r := CreateSocketGetCommand(c, buffer);
    written := buffer[..r.value];
  }

  lemma CreateSocketResponse()
    ensures ParseCreateSocketResponse(Ascii("+CSOC: 5\r\n\r\nOK\r\n")) == Success(SocketCreated(5))
  {
    assert Ascii("+CSOC: 5\r\n\r\nOK\r\n") == CreateSocketReply(5) by {
      assert Decimal(5) == Ascii("5");
    }
    CreateSocketReplyRoundTrip(5);
  }

  // The AT+CSOCON example spelled out as bytes. Comparing the encoder's output with these
  // lists, and the string literals with them in a lemma of their own, keeps each proof
  // about the 32-byte line small.

  // "127.0.0.1"
  const EXAMPLE_ADDRESS: seq<u8> := [0x31, 0x32, 0x37, 0x2e, 0x30, 0x2e, 0x30, 0x2e, 0x31]
  // 1,1111,"127.0.0.1",1
  const EXAMPLE_FIELDS: seq<u8> :=
    [0x31, 0x2c, 0x31, 0x31, 0x31, 0x31, 0x2c, 0x22, 0x31, 0x32, 0x37, 0x2e, 0x30, 0x2e, 0x30, 0x2e, 0x31, 0x22, 0x2c, 0x31]
  // AT+CSOCON=1,1111,"127.0.0.1",1\r\n
  const EXAMPLE_LINE: seq<u8> :=
    [0x41, 0x54, 0x2b, 0x43, 0x53, 0x4f, 0x43, 0x4f, 0x4e, 0x3d, 0x31, 0x2c, 0x31, 0x31, 0x31, 0x31, 0x2c, 0x22,
     0x31, 0x32, 0x37, 0x2e, 0x30, 0x2e, 0x30, 0x2e, 0x31, 0x22, 0x2c, 0x31, 0x0d, 0x0a]

  lemma ExampleTexts()
    ensures Ascii("127.0.0.1") == EXAMPLE_ADDRESS
    ensures Ascii("AT+CSOCON=1,1111,\"127.0.0.1\",1\r\n") == EXAMPLE_LINE
  {
  }

  lemma ExampleLineLayout()
    ensures AT + CSOCON + [EQUALS] + EXAMPLE_FIELDS + CRLF == EXAMPLE_LINE
  {
  }

  /**
   * The parameter text of the example connection, for any connection whose fields print
   * as the example's do. Stating the fields through their decimal forms, rather than as
   * the literal command, lets the solver join the four fields without re-evaluating the
   * digits of 1111 inside the same proof, which keeps this proof small.
   */
  lemma ConnectSocketToRemoteExampleFields(c: ConnectSocketToRemote)
    requires Decimal(c.socketId as int) == [0x31]  // "1"
    requires Decimal(c.port as int) == [0x31, 0x31, 0x31, 0x31]  // "1111"
    requires Decimal(TypeCode(c.connectionType) as int) == [0x31]  // "1"
    requires c.remoteAddress == EXAMPLE_ADDRESS
    ensures JoinParams(ConnectSocketToRemoteParams(c)) == EXAMPLE_FIELDS
  {
    ConnectSocketToRemoteFields(c);
  }

  lemma ConnectSocketToRemoteExample()
    ensures ConnectSocketToRemoteCommand(ConnectSocketToRemote(1, 1111, Ascii("127.0.0.1"), TCP))
      == Ascii("AT+CSOCON=1,1111,\"127.0.0.1\",1\r\n")
  {
    ExampleTexts();
    ExampleLineLayout();
    assert Decimal(1111) == [0x31, 0x31, 0x31, 0x31];
    assert Decimal(1) == [0x31];
    ConnectSocketToRemoteExampleFields(ConnectSocketToRemote(1, 1111, EXAMPLE_ADDRESS, TCP));
  }

  lemma CloseSocketExample()
    ensures CloseSocketCommand(CloseSocket(0)) == Ascii("AT+CSOCL=0\r\n")
  {
  }
}
