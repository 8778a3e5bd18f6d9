/**
 * What the socket commands promise: a reference decoder for the command-line grammar
 * (which also accepts integers in non-canonical form, such as `00`) reads each command
 * line back into the command it was made from, so no field is lost or reordered; the
 * optional context id is appended only when present; and the reply parsers accept
 * exactly the replies of the expected shape.
 */
module SocketProperties {
  import opened Wrappers
  import opened AtCommands
  import opened Socket

  // ---------------------------------------------------------------------------
  // A reference decoder for the command-line grammar. It reads integer fields with the
  // reply parser's integer grammar, so it also accepts non-canonical forms such as `00`.

  predicate NoComma(s: seq<u8>) { forall i :: 0 <= i < |s| ==> s[i] != COMMA }

  /** The parameter text of a command line with the given name, if the line has that shape. */
  function StripCommandLine(line: seq<u8>, name: seq<u8>): Option<seq<u8>>
  {
    var header := AT + name + [EQUALS];
    if |line| >= |header| + 2 && line[..|header|] == header && line[|line| - 2..] == CRLF
    then Some(line[|header|..|line| - 2])
    else None
  }

  /** The field before the first comma and the text after it. */
  function SplitFirstComma(s: seq<u8>): Option<(seq<u8>, seq<u8>)>
    decreases |s|
  {
    if s == [] then None
    else if s[0] == COMMA then Some(([], s[1..]))
    else match SplitFirstComma(s[1..])
      case None => None
      case Some(split) => Some(([s[0]] + split.0, split.1))
  }

  /** The text before the last comma and the field after it. */
  function SplitLastComma(s: seq<u8>): Option<(seq<u8>, seq<u8>)>
    decreases |s|
  {
    if s == [] then None
    else if s[|s| - 1] == COMMA then Some((s[..|s| - 1], []))
    else match SplitLastComma(s[..|s| - 1])
      case None => None
      case Some(split) => Some((split.0, split.1 + [s[|s| - 1]]))
  }

  function ToU8(i: i32): Option<u8>
  {
    if 0 <= i < 0x100 then Some(i as u8) else None
  }

  function ToU16(i: i32): Option<u16>
  {
    if 0 <= i < 0x1_0000 then Some(i as u16) else None
  }

  /** The integer field `f`, read as a code of the given enumeration. */
  function DomainField(f: seq<u8>): Option<Domain>
  {
    var i :- ParseInt(f);
    DomainFromCode(i as int)
  }

  function TypeField(f: seq<u8>): Option<Type>
  {
    var i :- ParseInt(f);
    TypeFromCode(i as int)
  }

  function ProtocolField(f: seq<u8>): Option<Protocol>
  {
    var i :- ParseInt(f);
    ProtocolFromCode(i as int)
  }

  function U8Field(f: seq<u8>): Option<u8>
  {
    var i :- ParseInt(f);
    ToU8(i)
  }

  function U16Field(f: seq<u8>): Option<u16>
  {
    var i :- ParseInt(f);
    ToU16(i)
  }

  function DecodeCreateSocket(line: seq<u8>): Option<CreateSocket>
  {
    var body :- StripCommandLine(line, CSOC);
    var first :- SplitFirstComma(body);
    var second :- SplitFirstComma(first.1);
    var domain :- DomainField(first.0);
    var connectionType :- TypeField(second.0);
    match SplitFirstComma(second.1)
    case None =>
      var protocol :- ProtocolField(second.1);
      Some(CreateSocket(domain, connectionType, protocol, None))
    case Some(third) =>
      var protocol :- ProtocolField(third.0);
      var cid :- ParseInt(third.1);
      Some(CreateSocket(domain, connectionType, protocol, Some(cid)))
  }

  function DecodeConnectSocketToRemote(line: seq<u8>): Option<ConnectSocketToRemote>
  {
    var body :- StripCommandLine(line, CSOCON);
    var first :- SplitFirstComma(body);
    var second :- SplitFirstComma(first.1);
    var last :- SplitLastComma(second.1);
    var socketId :- U8Field(first.0);
    var port :- U16Field(second.0);
    var connectionType :- TypeField(last.1);
    var quoted := last.0;
    if |quoted| >= 2 && quoted[0] == QUOTE && quoted[|quoted| - 1] == QUOTE
    then Some(ConnectSocketToRemote(socketId, port, quoted[1..|quoted| - 1], connectionType))
    else None
  }

  function DecodeSendSocketMessage(line: seq<u8>): Option<SendSocketMessage>
  {
    var body :- StripCommandLine(line, CSOSEND);
    var first :- SplitFirstComma(body);
    var second :- SplitFirstComma(first.1);
    var socketId :- U8Field(first.0);
    var dataLen :- U16Field(second.0);
    Some(SendSocketMessage(socketId, dataLen, second.1))
  }

  function DecodeCloseSocket(line: seq<u8>): Option<CloseSocket>
  {
    var body :- StripCommandLine(line, CSOCL);
    var socketId :- U8Field(body);
    Some(CloseSocket(socketId))
  }

  // ---------------------------------------------------------------------------
  // Lemmas about the read-back helpers

  lemma DecimalNoComma(i: i32)
    ensures NoComma(Decimal(i as int))
  {
    DecimalRoundTrip(i);
  }

  lemma {:induction false} SplitFirstCommaAt(a: seq<u8>, b: seq<u8>)
    requires NoComma(a)
    ensures SplitFirstComma(a + [COMMA] + b) == Some((a, b))
    decreases |a|
  {
    if a != [] {
      assert (a + [COMMA] + b)[1..] == a[1..] + [COMMA] + b;
      SplitFirstCommaAt(a[1..], b);
      assert [a[0]] + a[1..] == a;
    }
  }

  lemma {:induction false} SplitFirstCommaNone(a: seq<u8>)
    requires NoComma(a)
    ensures SplitFirstComma(a) == None
    decreases |a|
  {
    if a != [] {
      SplitFirstCommaNone(a[1..]);
    }
  }

  lemma {:induction false} SplitLastCommaAt(a: seq<u8>, b: seq<u8>)
    requires NoComma(b)
    ensures SplitLastComma(a + [COMMA] + b) == Some((a, b))
    decreases |b|
  {
    var s := a + [COMMA] + b;
    if b == [] {
      assert s[..|s| - 1] == a;
    } else {
      var b' := b[..|b| - 1];
      assert s[..|s| - 1] == a + [COMMA] + b';
      SplitLastCommaAt(a, b');
      assert b' + [b[|b| - 1]] == b;
    }
  }

  lemma StripCommandLineOf(name: seq<u8>, ps: seq<Param>)
    ensures StripCommandLine(CommandLine(name, ps), name) == Some(JoinParams(ps))
  {
    var header := AT + name + [EQUALS];
    var line := CommandLine(name, ps);
    assert line == header + JoinParams(ps) + CRLF;
    assert line[..|header|] == header;
    assert line[|line| - 2..] == CRLF;
    assert line[|header|..|line| - 2] == JoinParams(ps);
  }

  lemma IntField(i: i32)
    ensures ParseInt(Decimal(i as int)) == Some(i)
    ensures U8Field(Decimal(i as int)) == ToU8(i)
    ensures U16Field(Decimal(i as int)) == ToU16(i)
  {
    DecimalRoundTrip(i);
  }

  // ---------------------------------------------------------------------------
  // Each command line reads back into its command

  lemma CreateSocketRoundTrip(c: CreateSocket)
    ensures DecodeCreateSocket(CreateSocketCommand(c)) == Some(c)
  {
    var d, t, p := DomainCode(c.domain) as i32, TypeCode(c.connectionType) as i32, ProtocolCode(c.protocol) as i32;
    var ps := CreateSocketParams(c);
    StripCommandLineOf(CSOC, ps);
    DecimalNoComma(d);
    DecimalNoComma(t);
    DecimalNoComma(p);
    IntField(d);
    IntField(t);
    IntField(p);
    var D, T, P := Decimal(d as int), Decimal(t as int), Decimal(p as int);
    match c.cid
    case None =>
      assert JoinParams(ps) == D + [COMMA] + (T + [COMMA] + P) by {
        assert ps[1..] == [Int(t), Int(p)];
        assert ps[1..][1..] == [Int(p)];
        assert JoinParams(ps[1..]) == T + [COMMA] + P;
      }
      SplitFirstCommaAt(D, T + [COMMA] + P);
      SplitFirstCommaAt(T, P);
      SplitFirstCommaNone(P);
    case Some(cid) =>
      var C := Decimal(cid as int);
      DecimalNoComma(cid);
      IntField(cid);
      assert JoinParams(ps) == D + [COMMA] + (T + [COMMA] + (P + [COMMA] + C)) by {
        assert ps[1..] == [Int(t), Int(p), Int(cid)];
        assert ps[1..][1..] == [Int(p), Int(cid)];
        assert ps[1..][1..][1..] == [Int(cid)];
        assert JoinParams(ps[1..][1..]) == P + [COMMA] + C;
        assert JoinParams(ps[1..]) == T + [COMMA] + (P + [COMMA] + C);
      }
      SplitFirstCommaAt(D, T + [COMMA] + (P + [COMMA] + C));
      SplitFirstCommaAt(T, P + [COMMA] + C);
      SplitFirstCommaAt(P, C);
  }

  /** The parameter text of AT+CSOCON, field by field. */
  lemma ConnectSocketToRemoteFields(c: ConnectSocketToRemote)
    ensures JoinParams(ConnectSocketToRemoteParams(c))
      == Decimal(c.socketId as int) + [COMMA] + (Decimal(c.port as int) + [COMMA]
         + (([QUOTE] + c.remoteAddress + [QUOTE]) + [COMMA] + Decimal(TypeCode(c.connectionType) as int)))
  {
    var ps := ConnectSocketToRemoteParams(c);
    assert ps[1..][1..][1..] == [Int(TypeCode(c.connectionType) as i32)];
    assert JoinParams(ps[1..][1..]) == ([QUOTE] + c.remoteAddress + [QUOTE]) + [COMMA] + Decimal(TypeCode(c.connectionType) as int);
  }

  lemma ConnectSocketToRemoteRoundTrip(c: ConnectSocketToRemote)
    requires c.port > 0
    ensures DecodeConnectSocketToRemote(ConnectSocketToRemoteCommand(c)) == Some(c)
  {
    var id, port, t := c.socketId as i32, c.port as i32, TypeCode(c.connectionType) as i32;
    var I, P, T := Decimal(id as int), Decimal(port as int), Decimal(t as int);
    var Q := [QUOTE] + c.remoteAddress + [QUOTE];
    StripCommandLineOf(CSOCON, ConnectSocketToRemoteParams(c));
    ConnectSocketToRemoteFields(c);
    DecimalNoComma(id);
    DecimalNoComma(port);
    DecimalNoComma(t);
    IntField(id);
    IntField(port);
    IntField(t);
    var body := I + [COMMA] + (P + [COMMA] + (Q + [COMMA] + T));
    assert StripCommandLine(ConnectSocketToRemoteCommand(c), CSOCON) == Some(body);
    SplitFirstCommaAt(I, P + [COMMA] + (Q + [COMMA] + T));
    SplitFirstCommaAt(P, Q + [COMMA] + T);
    SplitLastCommaAt(Q, T);
    assert Q[1..|Q| - 1] == c.remoteAddress;
    assert DecodeConnectSocketToRemote(ConnectSocketToRemoteCommand(c)) == Some(c) by {
      assert U8Field(I) == Some(c.socketId);
      assert U16Field(P) == Some(c.port);
      assert TypeField(T) == Some(c.connectionType);
    }
  }

  lemma SendSocketMessageRoundTrip(c: SendSocketMessage)
    ensures DecodeSendSocketMessage(SendSocketMessageCommand(c)) == Some(c)
  {
    var id, len := c.socketId as i32, c.dataLen as i32;
    var ps := SendSocketMessageParams(c);
    StripCommandLineOf(CSOSEND, ps);
    DecimalNoComma(id);
    DecimalNoComma(len);
    IntField(id);
    IntField(len);
    var I, L := Decimal(id as int), Decimal(len as int);
    assert JoinParams(ps) == I + [COMMA] + (L + [COMMA] + c.data) by {
      assert ps[1..] == [Int(len), Raw(c.data)];
      assert ps[1..][1..] == [Raw(c.data)];
      assert JoinParams(ps[1..]) == L + [COMMA] + c.data;
    }
    SplitFirstCommaAt(I, L + [COMMA] + c.data);
    SplitFirstCommaAt(L, c.data);
  }

  lemma CloseSocketRoundTrip(c: CloseSocket)
    ensures DecodeCloseSocket(CloseSocketCommand(c)) == Some(c)
  {
    StripCommandLineOf(CSOCL, [Int(c.socketId as i32)]);
    IntField(c.socketId as i32);
  }

  /** A context id adds exactly one `,<cid>` after the protocol code and nothing else. */
  lemma CreateSocketCidAppended(c: CreateSocket, cid: i32)
    requires c.cid == None
    ensures var without := CreateSocketCommand(c);
      |without| >= 2 &&
      CreateSocketCommand(c.(cid := Some(cid))) == without[..|without| - 2] + [COMMA] + Decimal(cid as int) + CRLF
  {
    var ps := CreateSocketParams(c);
    assert CreateSocketParams(c.(cid := Some(cid))) == ps + [Int(cid)];
    CommandLineSnoc(CSOC, ps, Int(cid));
  }

  // ---------------------------------------------------------------------------
  // The AT+CSOC reply

  /** The reply the modem gives when it creates socket `id`. */
  function CreateSocketReply(id: i32): seq<u8>
  {
    CSOC_REPLY_PREFIX + Decimal(id as int) + CSOC_REPLY_SUFFIX
  }

  /** `data` is `+CSOC: `, an integer that fits in 32 bits, then `\r\n\r\nOK\r\n`, and nothing else. */
  predicate IsCreateSocketReply(data: seq<u8>)
  {
    && |data| >= |CSOC_REPLY_PREFIX| + |CSOC_REPLY_SUFFIX|
    && data[..|CSOC_REPLY_PREFIX|] == CSOC_REPLY_PREFIX
    && data[|data| - |CSOC_REPLY_SUFFIX|..] == CSOC_REPLY_SUFFIX
    && ParseInt(CreateSocketReplyField(data)).Some?
  }

  /** The text between the prefix and the suffix of a reply. */
  function CreateSocketReplyField(data: seq<u8>): seq<u8>
    requires |data| >= |CSOC_REPLY_PREFIX| + |CSOC_REPLY_SUFFIX|
  {
    data[|CSOC_REPLY_PREFIX|..|data| - |CSOC_REPLY_SUFFIX|]
  }

  lemma IntTokenChars(t: seq<u8>)
    requires IntToken(t)
    ensures forall i :: 0 <= i < |t| ==> IsIntChar(t[i])
  {
    if t[0] == MINUS {
      forall i | 1 <= i < |t| ensures IsIntChar(t[i]) {
        assert t[i] == t[1..][i - 1];
      }
    }
  }

  /** The integer run of a token followed by a non-integer byte ends exactly at the token's end. */
  lemma IntRunOfToken(t: seq<u8>, tail: seq<u8>)
    requires IntToken(t)
    requires tail != [] && !IsIntChar(tail[0])
    ensures IntRunLength(t + tail) == |t|
    ensures ExpectIntParameter(t + tail) == if ParseInt(t).Some? then Some((ParseInt(t).value, tail)) else None
  {
    IntTokenChars(t);
    var s := t + tail;
    assert forall i :: 0 <= i < |t| ==> s[i] == t[i];
    assert s[|t|] == tail[0];
    assert s[..|t|] == t && s[|t|..] == tail;
  }

  /** A well-formed reply parses to the low 8 bits of its id. */
  lemma ParseCreateSocketResponseAccepts(data: seq<u8>)
    requires IsCreateSocketReply(data)
    ensures ParseCreateSocketResponse(data) == Success(SocketCreated(TruncateToU8(ParseInt(CreateSocketReplyField(data)).value)))
  {
    var P, S := CSOC_REPLY_PREFIX, CSOC_REPLY_SUFFIX;
    var field := CreateSocketReplyField(data);
    var id := ParseInt(field).value;
    assert ExpectIdentifier(data, P) == Some(field + S) by {
      assert data == P + (field + S);
    }
    assert ExpectIntParameter(field + S) == Some((id, S)) by {
      IntRunOfToken(field, S);
    }
    assert ExpectIdentifier(S, S) == Some([]);
  }

  /** Only a well-formed reply parses. */
  lemma ParseCreateSocketResponseRejects(data: seq<u8>)
    requires ParseCreateSocketResponse(data).Success?
    ensures IsCreateSocketReply(data)
  {
    var P, S := CSOC_REPLY_PREFIX, CSOC_REPLY_SUFFIX;
    var afterPrefix := ExpectIdentifier(data, P).value;
    var k := IntRunLength(afterPrefix);
    var rest := ExpectIdentifier(afterPrefix[k..], S).value;
    assert rest == [];
    assert afterPrefix[k..] == S;
    assert data == P + afterPrefix[..k] + S;
    assert CreateSocketReplyField(data) == afterPrefix[..k];
  }

  /** The reply parser accepts exactly the well-formed replies, and yields the low 8 bits of the id. */
  lemma ParseCreateSocketResponseExact(data: seq<u8>)
    ensures ParseCreateSocketResponse(data) ==
      if IsCreateSocketReply(data)
      then Success(SocketCreated(TruncateToU8(ParseInt(CreateSocketReplyField(data)).value)))
      else Failure(ParseError)
  {
    if IsCreateSocketReply(data) {
      ParseCreateSocketResponseAccepts(data);
    } else if ParseCreateSocketResponse(data).Success? {
      ParseCreateSocketResponseRejects(data);
      assert false;
    }
  }

  /** The reply for any 32-bit id parses to the id's low 8 bits. */
  lemma CreateSocketReplyTruncates(id: i32)
    ensures ParseCreateSocketResponse(CreateSocketReply(id)) == Success(SocketCreated(TruncateToU8(id)))
  {
    var data := CreateSocketReply(id);
    var digits := Decimal(id as int);
    assert CreateSocketReplyField(data) == digits by {
      assert data == CSOC_REPLY_PREFIX + digits + CSOC_REPLY_SUFFIX;
    }
    assert ParseInt(digits) == Some(id) by {
      DecimalRoundTrip(id);
    }
    ParseCreateSocketResponseAccepts(data);
  }

  /** Every reply for a socket id 0 to 255 parses back to that id. */
  lemma CreateSocketReplyRoundTrip(id: u8)
    ensures ParseCreateSocketResponse(CreateSocketReply(id as i32)) == Success(SocketCreated(id))
  {
    CreateSocketReplyTruncates(id as i32);
    assert TruncateToU8(id as i32) == id;
  }

  /** A well-formed reply cut short anywhere is no longer well formed. */
  lemma TruncatedCreateSocketReply(data: seq<u8>, n: nat)
    requires IsCreateSocketReply(data)
    requires n < |data|
    ensures !IsCreateSocketReply(data[..n])
  {
    var P, S := CSOC_REPLY_PREFIX, CSOC_REPLY_SUFFIX;
    var cut := data[..n];
    if n >= |P| + |S| {
      // Where the cut reply would need the CR that starts the suffix, the full reply
      // still has a byte of its id.
      var field := CreateSocketReplyField(data);
      IntTokenChars(field);
      assert cut[n - |S|] == field[n - |S| - |P|];
      assert IsIntChar(cut[n - |S|]);
      assert S[0] == CR;
    }
  }

  /** A reply cut short anywhere is rejected. */
  lemma CreateSocketRejectsTruncated(data: seq<u8>, n: nat)
    requires ParseCreateSocketResponse(data).Success?
    requires n < |data|
    ensures ParseCreateSocketResponse(data[..n]).Failure?
  {
    ParseCreateSocketResponseRejects(data);
    TruncatedCreateSocketReply(data, n);
    ParseCreateSocketResponseExact(data[..n]);
  }
}
