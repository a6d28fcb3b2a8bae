/** The client-side messages of SOCKS Protocol Version 5 (RFC 1928), as a client
    would put them on the wire, and the server reply layout. These are reference
    definitions of the standard, independent of the server: the server model is
    checked against them. */
module Rfc1928 {
  import opened Wire

  /** VER field (sections 3, 4 and 6 of RFC 1928). */
  const VERSION: Byte := 5

  /** METHOD values (section 3 of RFC 1928). */
  const METHOD_NO_AUTH: Byte := 0
  const METHOD_NO_ACCEPTABLE: Byte := 0xFF

  /** CMD values (section 4 of RFC 1928). */
  const CMD_CONNECT: Byte := 1
  const CMD_BIND: Byte := 2
  const CMD_UDP_ASSOCIATE: Byte := 3

  /** ATYP values (section 5 of RFC 1928). */
  const ATYP_IPV4: Byte := 1
  const ATYP_DOMAIN_NAME: Byte := 3
  const ATYP_IPV6: Byte := 4

  /** REP values (section 6 of RFC 1928). */
  const REP_SUCCEEDED: Byte := 0
  const REP_GENERAL_FAILURE: Byte := 1
  const REP_CONNECTION_REFUSED: Byte := 5

  /** A port in network octet order. */
  function PortBytes(port: Port): (b: seq<Byte>)
    ensures |b| == 2 && b[0] as int * 256 + b[1] as int == port
  {
    [port / 256, port % 256]
  }

  /** Version identifier/method selection message (section 3):
      VER, NMETHODS, then NMETHODS method octets. */
  function Greeting(version: Byte, methods: seq<Byte>): (m: seq<Byte>)
    requires 1 <= |methods| <= 255
    ensures |m| == 2 + |methods|
    ensures m[0] == version && m[1] == |methods| && m[2..] == methods
  {
    [version, |methods|] + methods
  }

  /** A request (section 4) whose DST.ADDR is an IPv4 address:
      VER, CMD, RSV = 0, ATYP, DST.ADDR (4 octets), DST.PORT (2 octets). */
  function Request(version: Byte, cmd: Byte, atyp: Byte, ip: IPv4, port: Port): (m: seq<Byte>)
    ensures |m| == 10
    ensures m[0] == version && m[1] == cmd && m[2] == 0 && m[3] == atyp
    ensures m[4..8] == ip && m[8..] == PortBytes(port)
  {
    [version, cmd, 0, atyp] + ip + PortBytes(port)
  }

  /** A reply (section 6) whose BND.ADDR is an IPv4 address:
      VER, REP, RSV = 0, ATYP = IPv4, BND.ADDR (4 octets), BND.PORT (2 octets). */
  function Reply(rep: Byte, ip: IPv4, port: Port): (m: seq<Byte>)
    ensures |m| == 10
    ensures m[0] == VERSION && m[1] == rep && m[2] == 0 && m[3] == ATYP_IPV4
    ensures m[4..8] == ip && m[8..] == PortBytes(port)
  {
    [VERSION, rep, 0, ATYP_IPV4] + ip + PortBytes(port)
  }
}
