# SIM7020 socket AT commands

A Dafny model of the socket commands of the SIM7020 NB-IoT modem driver. The driver
turns four typed requests into AT command lines:

- create a socket: `AT+CSOC`;
- connect it to a remote host: `AT+CSOCON`;
- send data through it: `AT+CSOSEND`;
- close it: `AT+CSOCL`.

It also decodes the modem's replies to the first three into a typed outcome.

The files:

- `wrappers.dfy` holds `Option` and `Result`.
- `at_commands.dfy` (module `AtCommands`) models the observable contract of the external
  AT builder and parser that the driver calls:
  - integers are written in decimal ASCII;
  - a "set" line is `AT` + name + `=` + the parameters joined by `,` + CR LF;
  - a builder object collects the name and the parameters, then writes the line into
    the caller's buffer;
  - the parser steps `expect_identifier`, `expect_int_parameter` and `finish`.
- `socket.dfy` (module `Socket`) holds:
  - the `Domain`, `Type` and `Protocol` codes;
  - the four commands, each as a pure encoding function plus a `GetCommand` method that
    drives the builder to fill an array;
  - the reply parsers.
- `socket_properties.dfy` (module `SocketProperties`) holds a reference decoder for the
  command-line grammar. The decoder is the model's own: it reads integer fields with the
  reply parser's integer grammar, so it also accepts non-canonical integers such as `00`.
  The module proves:
  - the decoder reads every command line back into its command;
  - the optional context id appends exactly `,<cid>`;
  - the `AT+CSOC` reply parser accepts exactly `+CSOC: <int>\r\n\r\nOK\r\n`, and yields the
    low 8 bits of the id.
- `socket_examples.dfy` (module `SocketExamples`) restates the literal wire forms of the
  driver's tests.

## Model

| member | source | states |
|---|---|---|
| Socket.DomainCode | src/at_command/socket.rs:9-12 | the code is 1 or 2, and decoding it gives back the domain, so distinct domains have distinct codes |
| Socket.TypeCode | src/at_command/socket.rs:17-21 | the code is 1 to 3, and decoding it gives back the type, so the three codes are distinct |
| Socket.ProtocolCode | src/at_command/socket.rs:26-30 | the code is 1 to 3, and decoding it gives back the protocol, so the three codes are distinct |
| SocketExamples.EnumCodes | src/at_command/socket.rs:9-30 | IPv4=1, IPv6=2; TCP=1, UPD=2, RAW=3; IP=1, ICMP=2, UDPLITE=3 |
| AtCommands.Decimal | src/at_command/socket.rs:50-55 | how an integer parameter is written: decimal ASCII with a leading `-` when negative. Its partners are DigitsRoundTrip, DecimalRoundTrip and ParseIntCanonical |
| AtCommands.DigitsRoundTrip | src/at_command/socket.rs:50-55 | the decimal digits of any natural are non-empty, all digits, start with `0` only for zero, and denote that natural |
| AtCommands.DecimalRoundTrip | src/at_command/socket.rs:50-55 | every 32-bit integer parameter is written as a canonical integer token (no leading zero, no `-0`) that the reply parser's ParseInt reads back to itself |
| AtCommands.ParseIntCanonical | src/at_command/socket.rs:64 | conversely, every canonical token that ParseInt accepts is exactly how its value is written. So writing and parsing are inverse bijections between 32-bit integers and canonical tokens in range |
| AtCommands.ParseIntShortDigits | src/at_command/socket.rs:64-68 | every string of one to nine digits is accepted by the integer parser, leading zeros included, and yields the number it denotes; so any socket id the modem writes with up to nine digits is read |
| AtCommands.JoinParams | src/at_command/socket.rs:50-56 | the parameters separated by commas, with none before the first or after the last. Its partner is JoinParamsSnoc |
| AtCommands.CommandLine | src/at_command/socket.rs:48-58 | a "set" line: `AT`, the name, `=`, the joined parameters, CR LF. Its partners are CommandLineSnoc and the round-trip lemmas below |
| AtCommands.JoinParamsSnoc | src/at_command/socket.rs:54-56 | adding a parameter to a non-empty list adds exactly one comma and that parameter's bytes at the end |
| AtCommands.CommandLineSnoc | src/at_command/socket.rs:54-56 | adding a parameter turns the line's final CR LF into `,<parameter>` CR LF and changes nothing else |
| AtCommands.CommandBuilder.CreateSet | src/at_command/socket.rs:48 | a new builder writes into the given buffer and starts with no name and no parameters |
| AtCommands.CommandBuilder.Named | src/at_command/socket.rs:49 | sets the command name and keeps the parameters |
| AtCommands.CommandBuilder.WithIntParameter | src/at_command/socket.rs:50-55 | appends one integer parameter and keeps the name and the earlier parameters |
| AtCommands.CommandBuilder.WithStringParameter | src/at_command/socket.rs:93 | appends one quoted-string parameter and keeps the rest |
| AtCommands.CommandBuilder.WithRawParameter | src/at_command/socket.rs:126 | appends one raw parameter and keeps the rest |
| AtCommands.CommandBuilder.Finish | src/at_command/socket.rs:58 | succeeds exactly when the line fits the buffer. On success the line sits at the buffer's front, the rest is unchanged and the length is returned. On failure the buffer is unchanged |
| AtCommands.ExpectIdentifier | src/at_command/socket.rs:63-65 | matches exactly when the literal is a prefix of the input, and the input is the literal followed by the returned rest |
| AtCommands.IntRunLength | src/at_command/socket.rs:64 | the integer field read is the longest run of digit or `-` bytes at the front of the input |
| AtCommands.ExpectIntParameter | src/at_command/socket.rs:64 | reads the longest integer run at the front of the input with ParseInt, and yields the value and what follows. Its partner is SocketProperties.IntRunOfToken |
| Socket.CreateSocketCommand | src/at_command/socket.rs:47-59 | the AT+CSOC line: domain, type and protocol codes, then the context id only when present. Its partners are SocketProperties.CreateSocketRoundTrip and CreateSocketCidAppended |
| Socket.ConnectSocketToRemoteCommand | src/at_command/socket.rs:87-97 | the AT+CSOCON line for a nonzero port: socket id, port, quoted address, type code. Its partners are SocketProperties.ConnectSocketToRemoteFields and ConnectSocketToRemoteRoundTrip |
| Socket.SendSocketMessageCommand | src/at_command/socket.rs:121-129 | the AT+CSOSEND line: socket id, length as given, raw payload. Its partner is SocketProperties.SendSocketMessageRoundTrip |
| Socket.CloseSocketCommand | src/at_command/socket.rs:149-155 | the AT+CSOCL line with the socket id. Its partner is SocketProperties.CloseSocketRoundTrip |
| Socket.CreateSocketGetCommand | src/at_command/socket.rs:47-59 | fills the buffer with the AT+CSOC line and returns its length when it fits, otherwise leaves the buffer unchanged |
| Socket.ConnectSocketToRemoteGetCommand | src/at_command/socket.rs:87-97 | requires a nonzero port; fills the buffer with the AT+CSOCON line and returns its length when it fits, otherwise leaves the buffer unchanged |
| Socket.SendSocketMessageGetCommand | src/at_command/socket.rs:121-129 | fills the buffer with the AT+CSOSEND line and returns its length when it fits, otherwise leaves the buffer unchanged |
| Socket.CloseSocketGetCommand | src/at_command/socket.rs:149-155 | fills the buffer with the AT+CSOCL line and returns its length when it fits, otherwise leaves the buffer unchanged |
| SocketProperties.CreateSocketRoundTrip | src/at_command/socket.rs:47-59 | an AT+CSOC line reads back as domain, type and protocol codes in that order, then the context id exactly when it is present |
| SocketProperties.CreateSocketCidAppended | src/at_command/socket.rs:54-56 | a context id adds exactly `,<cid>` after the protocol code, and nothing else changes |
| SocketProperties.ConnectSocketToRemoteFields | src/at_command/socket.rs:89-94 | the AT+CSOCON parameters are the socket id, the port, the address in double quotes and the type code, comma-separated in that order |
| SocketProperties.ConnectSocketToRemoteRoundTrip | src/at_command/socket.rs:87-97 | for a nonzero port, an AT+CSOCON line reads back into socket id, port, address and connection type |
| SocketProperties.SendSocketMessageRoundTrip | src/at_command/socket.rs:121-129 | an AT+CSOSEND line reads back into socket id, length and the payload. The payload is written raw and is recovered byte for byte |
| SocketProperties.CloseSocketRoundTrip | src/at_command/socket.rs:149-155 | an AT+CSOCL line reads back into its socket id |
| Socket.TruncateToU8 | src/at_command/socket.rs:68 | the byte kept is congruent to the parsed integer modulo 256 |
| SocketProperties.IntRunOfToken | src/at_command/socket.rs:64 | an integer token followed by a non-integer byte is read whole, and the parser continues right after it |
| Socket.ParseCreateSocketResponse | src/at_command/socket.rs:61-69 | the AT+CSOC reply parser: `+CSOC: `, an integer, `\r\n\r\nOK\r\n`, nothing more, and the integer cut to 8 bits. Its partner is SocketProperties.ParseCreateSocketResponseExact |
| SocketProperties.ParseCreateSocketResponseAccepts | src/at_command/socket.rs:61-69 | every well-formed AT+CSOC reply parses to the low 8 bits of its id |
| SocketProperties.ParseCreateSocketResponseRejects | src/at_command/socket.rs:61-69 | only a well-formed AT+CSOC reply parses |
| SocketProperties.ParseCreateSocketResponseExact | src/at_command/socket.rs:61-69 | the AT+CSOC reply parser succeeds exactly on `+CSOC: ` + a 32-bit integer + `\r\n\r\nOK\r\n`, yields the id's low byte, and fails with a parse error otherwise |
| SocketProperties.CreateSocketReplyTruncates | src/at_command/socket.rs:68 | the reply for any 32-bit id parses to that id's low 8 bits |
| SocketProperties.CreateSocketReplyRoundTrip | src/at_command/socket.rs:61-69 | for every id from 0 to 255, the reply carrying that id parses back to the same id |
| SocketProperties.TruncatedCreateSocketReply | src/at_command/socket.rs:61-69 | a well-formed AT+CSOC reply cut short anywhere is no longer well formed |
| SocketProperties.CreateSocketRejectsTruncated | src/at_command/socket.rs:61-69 | an accepted AT+CSOC reply cut short anywhere is rejected |
| Socket.ParseOkReply | src/at_command/socket.rs:99-105 | succeeds exactly on `OK\r\n`, yielding `Ok`. Anything else fails, including a truncated or extended reply |
| Socket.ParseConnectSocketToRemoteResponse | src/at_command/socket.rs:99-105 | the AT+CSOCON reply is `Ok` exactly when it is `OK\r\n`, otherwise a parse error |
| Socket.ParseSendSocketMessageResponse | src/at_command/socket.rs:131-137 | the AT+CSOSEND reply is `Ok` exactly when it is `OK\r\n`, otherwise a parse error |
| SocketExamples.DecimalExamples | src/at_command/socket.rs:217-260 | 0, 1 and 1111 are written as `0`, `1` and `1111` |
| SocketExamples.CreateSocketWithCid | src/at_command/socket.rs:165-179 | IPv4, TCP, IP with context 3 encodes as `AT+CSOC=1,1,1,3\r\n` |
| SocketExamples.CreateSocketIntoBuffer | src/at_command/socket.rs:165-179 | writing that command into a 512-byte buffer succeeds with length 17 and leaves `AT+CSOC=1,1,1,3\r\n` at its front |
| SocketExamples.CreateSocketWithoutCid | src/at_command/socket.rs:181-195 | IPv6, RAW, ICMP without context encodes as `AT+CSOC=2,3,2\r\n` |
| SocketExamples.CreateSocketResponse | src/at_command/socket.rs:197-215 | `+CSOC: 5\r\n\r\nOK\r\n` parses to socket 5 |
| SocketExamples.ConnectSocketToRemoteExampleFields | src/at_command/socket.rs:217-234 | a connection whose fields print as `1`, `1111`, `127.0.0.1` and `1` has the parameter text `1,1111,"127.0.0.1",1` |
| SocketExamples.ConnectSocketToRemoteExample | src/at_command/socket.rs:217-234 | socket 1, port 1111, `127.0.0.1`, TCP encodes as `AT+CSOCON=1,1111,"127.0.0.1",1\r\n` |
| SocketExamples.CloseSocketExample | src/at_command/socket.rs:251-260 | closing socket 0 encodes as `AT+CSOCL=0\r\n` |

## Left out

- The internals of the external AT builder and parser are not part of this model. Only their observable grammar is modelled, as described above.
- String parameters are wrapped in double quotes with no escaping. The external builder's escaping rules are not visible, so the model assumes the strings need none.
- AtCommands.ParseInt: this is the integer grammar assumed for the external parser: an optional `-` then decimal digits, with the value fitting in 32 bits. A leading `+` and surrounding spaces are not accepted.
- AtCommands.CommandBuilder.Finish: on overflow the external builder may already have written part of the line. The model leaves the buffer unchanged, and the error carries the full line length. The exact number the builder reports is not modelled.
- The four `GetCommand` methods return the written length, not a slice of the buffer.
- Socket.ConnectSocketToRemoteGetCommand: the runtime panic on port 0 (src/at_command/socket.rs:88, test at 236-249) is modelled as a precondition. No result is defined for port 0.
- The `parse_response` that `CloseSocket` inherits from the request interface is defined outside this file, and is not part of this model.
- `AtError` is reduced to a single parse error. `AtResponse` is reduced to the two variants used here: `Ok` and `SocketCreated`.
- The length written by AT+CSOSEND is taken as given. The driver never checks that it equals the payload length, so the model claims nothing about that relation.
- Serial I/O, timing and retries are not part of this model.
- Lifetimes and borrowing are not modelled, and neither is the unused `&self` of the reply parsers. The tests' UTF-8 conversion is replaced by comparing bytes.
