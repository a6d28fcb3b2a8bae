/** The two exchanges of the SOCKS5 front-end: method selection and the CONNECT
    request. Each is one read into a fixed-size zero-filled buffer, a decision on
    a few byte positions, and exactly one reply write.

    The decisions are functions from what was read to the reply written and the
    result returned (`SelectionOf`, `ConnectOf`); the methods `MethodSelection`
    and `Connect` do the same work over arrays and are proved equal to them. */
module Socks5 {
  import opened Wire
  import Rfc1928

  /** The method-selection buffer: VER, NMETHODS and room for 255 METHODS. */
  const METHOD_SELECTION_LENGTH: nat := 1 + 1 + 255

  /** The request buffer: VER, CMD, RSV, ATYP, a length octet, 255 address octets, DST.PORT. */
  const CONNECT_LENGTH: nat := 1 + 1 + 1 + 1 + 1 + 255 + 2

  /** The replies written, as the source spells them out. */
  const ACCEPT_NO_AUTH: seq<Byte> := [5, 0]
  const REJECT_METHODS: seq<Byte> := [5, 0xFF]
  const GENERAL_FAILURE: seq<Byte> := [5, 1]
  const CONNECTION_REFUSED: seq<Byte> := [5, 5]
  /** `outBuff` before it is patched: VER, REP = success, RSV, ATYP = IPv4, six zeros. */
  const SUCCESS_TEMPLATE: seq<Byte> := [5, 0, 0, 1, 0, 0, 0, 0, 0, 0]

  // ---------------------------------------------------------------------------
  // Method selection

  /** Why `methodSelection` returned a non-nil error. */
  datatype SelectionError =
    | SelectionReadFailed
    | SelectionParseError(buff: seq<Byte>)   // "Message parse error", with the buffer

  /** The one write of `methodSelection` and the error it returns (`None` for nil). */
  datatype SelectionStep = SelectionStep(reply: seq<Byte>, err: Option<SelectionError>)

  /** `methodSelection`: only the version byte is examined; NMETHODS and METHODS
      are neither checked nor compared with the method granted. */
  function SelectionOf(read: ReadResult): (s: SelectionStep)
    ensures s.err == None <==> read.ReadBytes? && |read.bytes| > 0 && read.bytes[0] == Rfc1928.VERSION
    ensures s.err == None ==> s.reply == [Rfc1928.VERSION, Rfc1928.METHOD_NO_AUTH]
    ensures s.err != None ==> s.reply == [Rfc1928.VERSION, Rfc1928.METHOD_NO_ACCEPTABLE]
    ensures s.err == Some(SelectionReadFailed) <==> read.ReadError?
  {
    match read
    case ReadError => SelectionStep(REJECT_METHODS, Some(SelectionReadFailed))
    case ReadBytes(_) =>
      var buff := Received(METHOD_SELECTION_LENGTH, read);
      if buff[0] == 5 then SelectionStep(ACCEPT_NO_AUTH, None)
      else SelectionStep(REJECT_METHODS, Some(SelectionParseError(buff)))
  }

  /** `methodSelection(conn)`, with the read's outcome as a parameter; returns
      the bytes written to `conn` and the error returned. */
  method MethodSelection(read: ReadResult) returns (reply: seq<Byte>, err: Option<SelectionError>)
    ensures SelectionStep(reply, err) == SelectionOf(read)
  {
    var buff, failed := ReadInto(METHOD_SELECTION_LENGTH, read);
    if failed {
      reply, err := REJECT_METHODS, Some(SelectionReadFailed);
      return;
    }
    if buff[0] == 5 {
      reply, err := ACCEPT_NO_AUTH, None;
    } else {
      reply, err := REJECT_METHODS, Some(SelectionParseError(buff[..]));
    }
  }

  // ---------------------------------------------------------------------------
  // CONNECT request

  /** The address `net.Dial` is given, as the 4 address bytes and the port
      rather than the string `"%s:%d"` formats. */
  datatype Target = Target(ip: IPv4, port: Port)

  /** A connection to the target, by identity only. */
  type Upstream = nat

  /** What `net.Dial("tcp", target)` returns. */
  datatype DialResult = DialFailed | Dialed(upstream: Upstream)

  /** Why `connect` returned a non-nil error. */
  datatype ConnectError =
    | ConnectParseError(buff: seq<Byte>)   // "Message parse error", with the buffer
    | CmdNotSupported(cmd: Byte)           // "CMD(%X) not supported"
    | DialError                            // the error of `net.Dial`

  /** The `(net.Conn, error)` pair `connect` returns: `(nil, nil)`,
      `(proxyConn, nil)` or `(nil, err)`. */
  datatype ConnectResult =
    | NoConnection
    | Connected(upstream: Upstream)
    | ConnectFailed(err: ConnectError)

  /** The one write of `connect`, the target it dialed (`None` when it did not
      dial), and what it returns. */
  datatype ConnectStep = ConnectStep(reply: seq<Byte>, dialed: Option<Target>, result: ConnectResult)

  /** How the request buffer is classified. */
  datatype Request = BadVersion | Unsupported(cmd: Byte) | ConnectTo(target: Target)

  /** DST.PORT from buffer positions 8 and 9, high byte first. */
  function TargetPort(hi: Byte, lo: Byte): (port: Port)
    ensures port / 256 == hi && port % 256 == lo
  {
    hi as int * 256 + lo as int
  }

  /** The decision on the request buffer: VER, then CMD; for CONNECT the target
      is DST.ADDR as an IPv4 address and DST.PORT. ATYP is not looked at. */
  function ParseRequest(buff: seq<Byte>): (r: Request)
    requires |buff| >= 10
    ensures r.BadVersion? <==> buff[0] != Rfc1928.VERSION
    ensures r.Unsupported? <==> buff[0] == Rfc1928.VERSION && buff[1] != Rfc1928.CMD_CONNECT
    ensures r.Unsupported? ==> r.cmd == buff[1]
    ensures r.ConnectTo? ==> r.target.ip == buff[4..8] && Rfc1928.PortBytes(r.target.port) == buff[8..10]
  {
    if buff[0] != 5 then BadVersion
    else if buff[1] != 1 then Unsupported(buff[1])
    else ConnectTo(Target(buff[4..8], TargetPort(buff[8], buff[9])))
  }

  /** The local address in its 4-byte form, as copied into the reply; a nil one copies nothing. */
  function To4Bytes(local: Option<IPv4>): (b: seq<Byte>)
    ensures |b| == 0 || |b| == 4
    ensures |b| == 4 <==> local.Some?
    ensures local.Some? ==> b == local.value
  {
    match local
    case None => []
    case Some(ip) => ip
  }

  /** The reply to a request whose dial succeeded. BND.ADDR is the front-end
      socket's local IPv4 address, or zeros if it has none; BND.PORT stays 0,0,
      because the port is encoded into a separate buffer and never reaches
      `outBuff`. */
  function SuccessReply(local: Option<IPv4>): (reply: seq<Byte>)
    ensures |reply| == 10
    ensures reply[..4] == [Rfc1928.VERSION, Rfc1928.REP_SUCCEEDED, 0, Rfc1928.ATYP_IPV4]
    ensures reply[4..8] == (if local.Some? then local.value else [0, 0, 0, 0])
    ensures reply[8..] == [0, 0]
  {
    Copied(SUCCESS_TEMPLATE, 4, 8, To4Bytes(local))
  }

  /** `connect`, with the read's outcome, the dialer and the local address as
      parameters. */
  function ConnectOf(read: ReadResult, dial: Target -> DialResult, local: Option<IPv4>): (s: ConnectStep)
    // a read error: reply "general failure", return (nil, nil)
    ensures s.result == NoConnection <==> read.ReadError?
    // a dial happens exactly when VER = 5 and CMD = CONNECT were received
    ensures s.dialed.Some? <==>
              read.ReadBytes? && |read.bytes| >= 2 &&
              read.bytes[0] == Rfc1928.VERSION && read.bytes[1] == Rfc1928.CMD_CONNECT
    // the target comes from bytes 4..9 of the buffer, unread ones being 0
    ensures s.dialed.Some? ==>
              var buff := Received(CONNECT_LENGTH, read);
              s.dialed.value == Target(buff[4..8], TargetPort(buff[8], buff[9]))
    // every refusal before a dial writes [5, 1]
    ensures s.dialed.None? ==> s.reply == [Rfc1928.VERSION, Rfc1928.REP_GENERAL_FAILURE]
    ensures (s.result == ConnectFailed(ConnectParseError(Received(CONNECT_LENGTH, read)))) <==>
              read.ReadBytes? && (|read.bytes| == 0 || read.bytes[0] != Rfc1928.VERSION)
    ensures s.result.ConnectFailed? && s.result.err.CmdNotSupported? <==>
              read.ReadBytes? && |read.bytes| > 0 && read.bytes[0] == Rfc1928.VERSION &&
              (|read.bytes| < 2 || read.bytes[1] != Rfc1928.CMD_CONNECT)
    ensures s.result.ConnectFailed? && s.result.err.CmdNotSupported? ==>
              s.result.err.cmd == Received(CONNECT_LENGTH, read)[1]
    // after a dial: refused, or success and the upstream connection
    ensures s.dialed.Some? && dial(s.dialed.value).DialFailed? ==>
              s.reply == [Rfc1928.VERSION, Rfc1928.REP_CONNECTION_REFUSED] && s.result == ConnectFailed(DialError)
    ensures s.dialed.Some? && dial(s.dialed.value).Dialed? ==>
              s.reply == SuccessReply(local) && s.result == Connected(dial(s.dialed.value).upstream)
    ensures s.result.Connected? ==> s.dialed.Some?
  {
    match read
    case ReadError => ConnectStep(GENERAL_FAILURE, None, NoConnection)
    case ReadBytes(_) =>
      var buff := Received(CONNECT_LENGTH, read);
      match ParseRequest(buff)
      case BadVersion => ConnectStep(GENERAL_FAILURE, None, ConnectFailed(ConnectParseError(buff)))
      case Unsupported(cmd) => ConnectStep(GENERAL_FAILURE, None, ConnectFailed(CmdNotSupported(cmd)))
      case ConnectTo(target) =>
        match dial(target)
        case DialFailed => ConnectStep(CONNECTION_REFUSED, Some(target), ConnectFailed(DialError))
        case Dialed(upstream) => ConnectStep(SuccessReply(local), Some(target), Connected(upstream))
  }

  /** The reply buffer: the template, then the local address copied into
      positions 4..7. The port encoding that follows in the source goes into a
      separate `bytes.Buffer` that appends past its two initial bytes (and Go's
      `binary.Write` refuses `int`, which has no fixed size), so it leaves the
      reply buffer as it is and is not modelled. */
  method BuildSuccessReply(local: Option<IPv4>) returns (outBuff: array<Byte>)
    ensures fresh(outBuff)
    ensures outBuff[..] == SuccessReply(local)
  {
    outBuff := new Byte[|SUCCESS_TEMPLATE|](i requires 0 <= i < |SUCCESS_TEMPLATE| => SUCCESS_TEMPLATE[i]);
    assert outBuff[..] == SUCCESS_TEMPLATE;
    var _ := Copy(outBuff, 4, 8, To4Bytes(local));
  }

  /** `connect(conn)`, with the read's outcome, the dialer and the local address
      as parameters; returns the bytes written to `conn`, the target dialed and
      the pair returned. */
  method Connect(read: ReadResult, dial: Target -> DialResult, local: Option<IPv4>)
    returns (reply: seq<Byte>, dialed: Option<Target>, result: ConnectResult)
    ensures ConnectStep(reply, dialed, result) == ConnectOf(read, dial, local)
  {
    var buff, failed := ReadInto(CONNECT_LENGTH, read);
    dialed := None;
    if failed {
      reply, result := GENERAL_FAILURE, NoConnection;
      return;
    }
    if buff[0] == 5 {
      if buff[1] == 1 {
        var target := Target(buff[4..8], TargetPort(buff[8], buff[9]));
        dialed := Some(target);
        var proxyConn := dial(target);
        if proxyConn.DialFailed? {
          reply, result := CONNECTION_REFUSED, ConnectFailed(DialError);
          return;
        }
        var outBuff := BuildSuccessReply(local);
        reply, result := outBuff[..], Connected(proxyConn.upstream);
        return;
      }
      reply, result := GENERAL_FAILURE, ConnectFailed(CmdNotSupported(buff[1]));
      return;
    }
    reply, result := GENERAL_FAILURE, ConnectFailed(ConnectParseError(buff[..]));
  }

  // ---------------------------------------------------------------------------
  // Properties against RFC 1928's message formats

  /** DST.PORT decoding inverts the network-order encoding, both ways. */
  lemma PortRoundTrip(port: Port, hi: Byte, lo: Byte)
    ensures TargetPort(Rfc1928.PortBytes(port)[0], Rfc1928.PortBytes(port)[1]) == port
    ensures Rfc1928.PortBytes(TargetPort(hi, lo)) == [hi, lo]
  {
  }

  /** Every well-formed method-selection message gets "no authentication
      required", whatever methods it offers (even when it does not offer that
      one) and whatever bytes follow it. */
  lemma SelectionAcceptsAnyGreeting(methods: seq<Byte>, rest: seq<Byte>)
    requires 1 <= |methods| <= 255
    ensures SelectionOf(ReadBytes(Rfc1928.Greeting(Rfc1928.VERSION, methods) + rest))
            == SelectionStep([Rfc1928.VERSION, Rfc1928.METHOD_NO_AUTH], None)
  {
  }

  /** A method-selection message of another version is refused with
      "no acceptable methods" and a parse error carrying the buffer. */
  lemma SelectionRejectsOtherVersions(version: Byte, methods: seq<Byte>, rest: seq<Byte>)
    requires version != Rfc1928.VERSION && 1 <= |methods| <= 255
    ensures var read := ReadBytes(Rfc1928.Greeting(version, methods) + rest);
            SelectionOf(read) ==
            SelectionStep([Rfc1928.VERSION, Rfc1928.METHOD_NO_ACCEPTABLE],
                          Some(SelectionParseError(Received(METHOD_SELECTION_LENGTH, read))))
  {
  }

  /** Method selection looks at the first byte only: two reads that agree on it
      write the same reply and agree on success. */
  lemma SelectionOnlyReadsVersion(a: seq<Byte>, b: seq<Byte>)
    requires |a| > 0 && |b| > 0 && a[0] == b[0]
    ensures SelectionOf(ReadBytes(a)).reply == SelectionOf(ReadBytes(b)).reply
    ensures SelectionOf(ReadBytes(a)).err == None <==> SelectionOf(ReadBytes(b)).err == None
  {
  }

  /** A CONNECT request dials exactly the address and port it names, whatever
      its ATYP and whatever bytes follow it in the same read. */
  lemma ConnectDialsRequestedTarget(atyp: Byte, ip: IPv4, port: Port, rest: seq<Byte>,
                                    dial: Target -> DialResult, local: Option<IPv4>)
    ensures ConnectOf(ReadBytes(Rfc1928.Request(Rfc1928.VERSION, Rfc1928.CMD_CONNECT, atyp, ip, port) + rest),
                      dial, local).dialed == Some(Target(ip, port))
  {
    var bytes := Rfc1928.Request(Rfc1928.VERSION, Rfc1928.CMD_CONNECT, atyp, ip, port) + rest;
    var buff := Received(CONNECT_LENGTH, ReadBytes(bytes));
    ReceivedPrefix(CONNECT_LENGTH, bytes, 10);
    assert buff[..10] == bytes[..10] == Rfc1928.Request(Rfc1928.VERSION, Rfc1928.CMD_CONNECT, atyp, ip, port);
    assert buff[4..8] == buff[..10][4..8];
    PortRoundTrip(port, 0, 0);
  }

  /** BIND, UDP ASSOCIATE and every other command: "general failure", a
      "not supported" error naming the command, and no dial. */
  lemma ConnectRejectsOtherCommands(cmd: Byte, atyp: Byte, ip: IPv4, port: Port, rest: seq<Byte>,
                                    dial: Target -> DialResult, local: Option<IPv4>)
    requires cmd != Rfc1928.CMD_CONNECT
    ensures ConnectOf(ReadBytes(Rfc1928.Request(Rfc1928.VERSION, cmd, atyp, ip, port) + rest), dial, local)
            == ConnectStep([Rfc1928.VERSION, Rfc1928.REP_GENERAL_FAILURE], None,
                           ConnectFailed(CmdNotSupported(cmd)))
  {
  }

  /** A request of another version: "general failure", a parse error carrying
      the buffer, and no dial. */
  lemma ConnectRejectsOtherVersions(version: Byte, cmd: Byte, atyp: Byte, ip: IPv4, port: Port,
                                    rest: seq<Byte>, dial: Target -> DialResult, local: Option<IPv4>)
    requires version != Rfc1928.VERSION
    ensures var read := ReadBytes(Rfc1928.Request(version, cmd, atyp, ip, port) + rest);
            ConnectOf(read, dial, local)
            == ConnectStep([Rfc1928.VERSION, Rfc1928.REP_GENERAL_FAILURE], None,
                           ConnectFailed(ConnectParseError(Received(CONNECT_LENGTH, read))))
  {
  }

  /** A domain-name or IPv6 CONNECT request whose first bytes happen to hold an
      address and a port is read as an IPv4 request for them. */
  lemma OtherAddressTypesReadAsIpv4(ip: IPv4, port: Port, rest: seq<Byte>,
                                    dial: Target -> DialResult, local: Option<IPv4>)
    ensures ConnectOf(ReadBytes(Rfc1928.Request(Rfc1928.VERSION, Rfc1928.CMD_CONNECT, Rfc1928.ATYP_DOMAIN_NAME,
                                                ip, port) + rest), dial, local).dialed == Some(Target(ip, port))
    ensures ConnectOf(ReadBytes(Rfc1928.Request(Rfc1928.VERSION, Rfc1928.CMD_CONNECT, Rfc1928.ATYP_IPV6,
                                                ip, port) + rest), dial, local).dialed == Some(Target(ip, port))
  {
    ConnectDialsRequestedTarget(Rfc1928.ATYP_DOMAIN_NAME, ip, port, rest, dial, local);
    ConnectDialsRequestedTarget(Rfc1928.ATYP_IPV6, ip, port, rest, dial, local);
  }

  /** BIND and UDP ASSOCIATE, the two commands of RFC 1928 besides CONNECT,
      are refused without a dial. */
  lemma BindAndUdpAssociateRefused(atyp: Byte, ip: IPv4, port: Port, rest: seq<Byte>,
                                   dial: Target -> DialResult, local: Option<IPv4>)
    ensures ConnectOf(ReadBytes(Rfc1928.Request(Rfc1928.VERSION, Rfc1928.CMD_BIND, atyp, ip, port) + rest), dial, local)
            == ConnectStep(GENERAL_FAILURE, None, ConnectFailed(CmdNotSupported(Rfc1928.CMD_BIND)))
    ensures ConnectOf(ReadBytes(Rfc1928.Request(Rfc1928.VERSION, Rfc1928.CMD_UDP_ASSOCIATE, atyp, ip, port) + rest),
                      dial, local)
            == ConnectStep(GENERAL_FAILURE, None, ConnectFailed(CmdNotSupported(Rfc1928.CMD_UDP_ASSOCIATE)))
  {
    ConnectRejectsOtherCommands(Rfc1928.CMD_BIND, atyp, ip, port, rest, dial, local);
    ConnectRejectsOtherCommands(Rfc1928.CMD_UDP_ASSOCIATE, atyp, ip, port, rest, dial, local);
  }

  /** Changing ATYP changes neither the reply, nor the dial, nor (for version 5)
      the result: domain-name and IPv6 requests are read as IPv4 ones. */
  lemma ConnectIgnoresAtyp(bytes: seq<Byte>, atyp: Byte, dial: Target -> DialResult, local: Option<IPv4>)
    requires |bytes| > 3
    ensures var s, t := ConnectOf(ReadBytes(bytes), dial, local), ConnectOf(ReadBytes(bytes[3 := atyp]), dial, local);
            s.reply == t.reply && s.dialed == t.dialed && (bytes[0] == Rfc1928.VERSION ==> s.result == t.result)
  {
    var a, b := Received(CONNECT_LENGTH, ReadBytes(bytes)), Received(CONNECT_LENGTH, ReadBytes(bytes[3 := atyp]));
    assert a[4..8] == b[4..8];
  }

  /** The success reply is an RFC 1928 reply with REP = succeeded, BND.ADDR the
      local IPv4 address (zeros if there is none) and BND.PORT 0. */
  lemma SuccessReplyIsRfcReply(local: Option<IPv4>)
    ensures SuccessReply(local)
            == Rfc1928.Reply(Rfc1928.REP_SUCCEEDED, if local.Some? then local.value else [0, 0, 0, 0], 0)
  {
  }

  /** The refusal after a failed dial is the RFC 1928 "connection refused"
      reply cut off after VER and REP: whatever BND.ADDR and BND.PORT it would
      carry, only its first two bytes are sent. */
  lemma RefusalIsTruncatedRfcReply(ip: IPv4, port: Port)
    ensures CONNECTION_REFUSED == Rfc1928.Reply(Rfc1928.REP_CONNECTION_REFUSED, ip, port)[..2]
    ensures |CONNECTION_REFUSED| < |Rfc1928.Reply(Rfc1928.REP_CONNECTION_REFUSED, ip, port)|
  {
  }

  /** The byte count of the read is ignored: a request cannot be told from the
      same request followed by zero bytes, in either exchange. */
  lemma ExchangesIgnoreTrailingZeros(bytes: seq<Byte>, k: nat, dial: Target -> DialResult, local: Option<IPv4>)
    ensures SelectionOf(ReadBytes(bytes)) == SelectionOf(ReadBytes(bytes + Zeros(k)))
    ensures ConnectOf(ReadBytes(bytes), dial, local) == ConnectOf(ReadBytes(bytes + Zeros(k)), dial, local)
  {
    ReceivedIgnoresTrailingZeros(METHOD_SELECTION_LENGTH, bytes, k);
    ReceivedIgnoresTrailingZeros(CONNECT_LENGTH, bytes, k);
  }

  /** A truncated request is completed with zeros: `05 01` alone dials
      0.0.0.0 port 0. */
  lemma ShortConnectDialsZeroAddress(dial: Target -> DialResult, local: Option<IPv4>)
    ensures ConnectOf(ReadBytes([5, 1]), dial, local).dialed == Some(Target([0, 0, 0, 0], 0))
  {
    var buff := Received(CONNECT_LENGTH, ReadBytes([5, 1]));
    assert buff[4..8] == [0, 0, 0, 0];
  }
}
