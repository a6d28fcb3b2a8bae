# SOCKS5 front-end of the TLS tunnelling server, in Dafny

This project models the SOCKS5 front-end of the tunnelling server in
`socks5server.go`. The front-end speaks a subset of SOCKS Protocol Version 5
(RFC 1928) to each accepted client connection, in two exchanges:

- **method selection** (`methodSelection`, section 3 of RFC 1928). One read into
  a 257-byte zero-filled buffer. If byte 0 is 5, the reply is `05 00` ("no
  authentication required"), whatever methods were offered. Otherwise, or when
  the read fails, the reply is `05 FF` and an error is returned.
- **the CONNECT request** (`connect`, sections 4 to 6 of RFC 1928). One read into
  a 262-byte zero-filled buffer. The checks are:
  - VER other than 5: reply `05 01`, parse error.
  - CMD other than 1: reply `05 01`, "not supported" error.
  - Otherwise the target is bytes 4..7 as an IPv4 address and bytes 8..9 as a
    big-endian port. ATYP is never looked at.
  - A failed dial: reply `05 05`, error.
  - A successful dial: reply `05 00 00 01`, then the local IPv4 address (zeros
    if the socket has none), then `00 00`. The upstream connection is returned.
  - A failed read: reply `05 01`, and no connection and no error are returned.

`handleConnection` runs the two exchanges in order. It stops after a failed
method selection or a `connect` error. Otherwise it starts the two relay
goroutines, which copy only when neither connection is nil. It always closes
the client connection at the end.

I/O is modelled by parameters:

- each `conn.Read` is given by its outcome (`Wire.ReadResult`: an error, or
  the bytes that arrived);
- `net.Dial` is a function from the target to a `Socks5.DialResult` (refused,
  or an upstream connection identified by a number);
- `conn.LocalAddr().IP.To4()` is an `Option<IPv4>`.

Modules:

- `Wire` (wire.dfy): bytes, Go's `copy`, and the read into a zero-filled buffer
  whose returned byte count is ignored.
- `Rfc1928` (rfc1928.dfy): the protocol's message layouts as a client writes
  them. This is the independent reference the server model is checked against.
- `Socks5` (socks5.dfy): both exchanges. Each decision is a function
  (`SelectionOf`, `ConnectOf`). The array methods (`MethodSelection`, `Connect`)
  are proved equal to those functions.
- `Session` (session.dfy): `handleConnection`, as the ordered list of events it
  causes (reads, writes, dial, relay start, close).

Where the code departs from RFC 1928, the model follows the code:

- After a failed dial the reply is the two bytes `05 05`. Section 6 of RFC 1928
  prescribes a full reply, VER REP RSV ATYP BND.ADDR BND.PORT, which for an IPv4
  address is 10 bytes; the code sends only VER and REP.
- BND.PORT in the success reply is always `00 00`. `binary.Write` encodes the
  port into a new `bytes.Buffer`, which appends past the two initial bytes and
  also refuses Go's `int` type, so `outBuff[8:10]` never changes. Section 6 of
  RFC 1928 has BND.PORT carry the port the server bound.
- The methods the client offers are never inspected, and neither is ATYP:
  every request is read as carrying an IPv4 address.

## Model

| member | source | states |
|---|---|---|
| Wire.Zeros | socks5server.go:27 | `make([]byte, n)` gives n bytes, every one of them 0 |
| Wire.Copied | socks5server.go:104 | `copy(dst[lo:hi], src)`: the first min(hi-lo, len(src)) bytes of src overwrite the window from lo; every other position is unchanged |
| Wire.Copy | socks5server.go:104 | the in-place byte-by-byte copy leaves the array equal to `Copied` of its old contents, and returns the number of bytes moved |
| Wire.Received | socks5server.go:26-28 | a zero-filled `size`-byte buffer after one read: position i holds the i-th received byte if there is one, and 0 otherwise (also after a read error) |
| Wire.ReadInto | socks5server.go:81-83 | allocating the buffer and reading into it gives a fresh array equal to `Received`, and reports failure exactly when the read failed; the byte count is discarded |
| Wire.ReceivedIgnoresOverflow | socks5server.go:27-28 | bytes beyond the buffer's length do not affect its contents |
| Wire.ReceivedIgnoresTrailingZeros | socks5server.go:28 | because the byte count is ignored, a read of b and a read of b followed by zeros leave the same buffer |
| Socks5.SelectionOf | socks5server.go:26-41 | success (nil error) exactly when the read succeeded with first byte 5; reply `05 00` on success and `05 FF` otherwise; a read error exactly when the read failed |
| Socks5.MethodSelection | socks5server.go:18-42 | the reply written and error returned by the array-based exchange are those of `SelectionOf` |
| Socks5.SelectionAcceptsAnyGreeting | socks5server.go:34-35 | every well-formed RFC 1928 greeting of version 5, with any method list and any bytes after it, gets `05 00` and no error |
| Socks5.SelectionRejectsOtherVersions | socks5server.go:36-38 | a greeting of any other version gets `05 FF` and a parse error carrying the buffer |
| Socks5.SelectionOnlyReadsVersion | socks5server.go:34 | two reads with the same first byte give the same reply and the same success |
| Socks5.TargetPort | socks5server.go:94 | the port decoded from bytes hi and lo lies in 0..65535 and has hi as its high byte and lo as its low byte |
| Socks5.PortRoundTrip | socks5server.go:94 | decoding inverts RFC 1928's network-order port encoding, in both directions |
| Socks5.ParseRequest | socks5server.go:90-95 | bad version exactly when VER != 5; unsupported command, carrying CMD, exactly when VER = 5 and CMD != 1; otherwise the target is DST.ADDR and the port whose network-order encoding is DST.PORT |
| Socks5.To4Bytes | socks5server.go:104 | what `To4()` hands to `copy`: four bytes exactly when the socket has a local IPv4 address, and then that address; nothing otherwise |
| Socks5.SuccessReply | socks5server.go:102-105 | the success reply is 10 bytes: `05 00 00 01`, then the local IPv4 address (or four zeros when `To4()` is nil), then `00 00` |
| Socks5.BuildSuccessReply | socks5server.go:102-105 | a freshly allocated `outBuff` array, patched in place, equal to `SuccessReply` |
| Socks5.SuccessReplyIsRfcReply | socks5server.go:102-106 | the success reply is an RFC 1928 reply with REP = succeeded, BND.ADDR the local address or zeros, and BND.PORT = 0 |
| Socks5.ConnectOf | socks5server.go:81-116 | a read error and only that gives (nil, nil) after `05 01`; a dial happens exactly when VER = 5 and CMD = 1 were received, to bytes 4..9 of the buffer; every refusal before a dial writes `05 01`, with a parse error exactly when VER != 5 and "not supported" (naming CMD) exactly when VER = 5 and CMD != 1; a failed dial writes `05 05` and returns an error; a successful dial writes `SuccessReply` and returns the upstream connection |
| Socks5.Connect | socks5server.go:44-116 | the reply written, the target dialed and the result returned by the array-based exchange are those of `ConnectOf` |
| Socks5.ConnectDialsRequestedTarget | socks5server.go:91-96 | an RFC 1928 CONNECT request for any IPv4 address and port, with any ATYP and any bytes after it, dials exactly that address and port |
| Socks5.ConnectRejectsOtherCommands | socks5server.go:110-111 | a version-5 request with any command other than CONNECT gets `05 01`, a "not supported" error naming the command, and no dial |
| Socks5.ConnectRejectsOtherVersions | socks5server.go:114-115 | a request of any other version gets `05 01`, a parse error carrying the buffer, and no dial |
| Socks5.OtherAddressTypesReadAsIpv4 | socks5server.go:92-96 | a CONNECT request with ATYP = domain name or IPv6 whose bytes 4..9 hold an address and a port dials that IPv4 address and port |
| Socks5.BindAndUdpAssociateRefused | socks5server.go:110-111 | BIND and UDP ASSOCIATE requests get `05 01`, a "not supported" error naming the command, and no dial |
| Socks5.ConnectIgnoresAtyp | socks5server.go:92-95 | changing byte 3 (ATYP) changes neither the reply nor the dial, nor, for version 5, the result |
| Socks5.RefusalIsTruncatedRfcReply | socks5server.go:98 | the `05 05` refusal is the RFC 1928 "connection refused" reply cut after its first two bytes, for any BND.ADDR and BND.PORT, and so shorter than it |
| Socks5.ExchangesIgnoreTrailingZeros | socks5server.go:83 | neither exchange can tell a message from the same message followed by zero bytes |
| Socks5.ShortConnectDialsZeroAddress | socks5server.go:82-96 | a request cut short after `05 01` dials 0.0.0.0 port 0, because unread positions stay 0 |
| Session.ConnectEvents | socks5server.go:83-106 | `connect` causes one read, then a dial exactly when it dialed (to that target), then its one reply as the last event; no write before it |
| Session.AfterConnect | socks5server.go:128-145 | nothing follows a `connect` error; otherwise exactly one relay step: both goroutines skip copying exactly when no connection was returned, and they copy with the upstream connection when one was |
| Session.SessionEvents | socks5server.go:119-131 | the session opens with the greeting read and its reply and ends with the close; it is those three events exactly when method selection failed; otherwise the CONNECT request is read next and its reply is written |
| Session.SessionOf | socks5server.go:118-148 | for given read outcomes, dialer and local address: the greeting read and reply come first; a second read happens exactly when method selection succeeded, and then the CONNECT reply is written |
| Session.HandleConnection | socks5server.go:118-148 | the events caused by the session are those of `SessionOf`: method selection, then (only on success) connect, then (only without a connect error) the relay step, then the close |
| Session.ClosesOnceAtEnd | socks5server.go:119 | every session starts with a read and ends with the close of the client connection, which happens exactly once |
| Session.CloseOnlyAtEnd | socks5server.go:119-131 | whatever the two exchanges were, the close is the last event of the session and occurs nowhere else |
| Session.SelectionFailureEndsSession | socks5server.go:121-125 | after a failed method selection the session is exactly: read, `05 FF`, close; nothing more is read and nothing is dialed |
| Session.DialOnlyAfterSelection | socks5server.go:121-131 | a session dials a target exactly when method selection succeeded and the CONNECT request names that target |
| Session.RelayExactlyWhenEstablished | socks5server.go:127-145 | the relay copies between the client and an upstream connection exactly when both exchanges succeeded with that connection |
| Session.EstablishedSession | socks5server.go:118-147 | an established session is exactly: read, `05 00`, read, dial, success reply, relay, close |
| Session.EstablishedEvents | socks5server.go:127-147 | with a successful selection and a `connect` that returned a connection, the session is the seven events read, reply, read, dial, reply, relay, close |
| Session.ConnectErrorEndsSession | socks5server.go:127-131 | after a `connect` error the refusal is the last write before the close, and no relay goroutine runs |
| Session.ConnectReadFailureSkipsRelay | socks5server.go:133-145 | a read failure in `connect` is not an error: the session writes `05 01` and goes on to the relay step, where both goroutines skip copying |
| Session.ScenarioConnectSucceeds | socks5server.go:118-147 | greeting `05 01 00`, then CONNECT to 127.0.0.1:8080 which accepts: replies `05 00` and `05 00 00 01` with the local address and `00 00`, then the relay |
| Session.ScenarioConnectRefused | socks5server.go:96-99 | the same request with the dial refused: reply `05 05`, then close without relaying |
| Session.ScenarioWrongVersion | socks5server.go:34-38 | a version-4 greeting gets `05 FF` and the session closes without reading further |

## Left out

- proxyclient.go: the TLS-dialing client end of the tunnel is not part of this model (certificate loading and an `io.Copy` relay, with no protocol decisions).
- TLS configuration, listening and the accept loop (socks5server.go:177-208): library calls and network I/O.
- Flag parsing, CA file loading and the executable path (socks5server.go:150-175): configuration.
- The relay itself (socks5server.go:133-147): the two `io.Copy` goroutines and the `ExitChan` join are concurrency over sockets. The model records only that the relay starts (`Relay`) or that both goroutines skip copying (`RelaySkipped`). It does not model that `handleConnection` receives from `ExitChan` once, so the second goroutine's send can block forever. It also does not model that the upstream connection is never closed.
- `net.Dial` reachability: the dialer is a parameter.
- Write errors: the source ignores the result of every `conn.Write`, and each write is modelled as delivered whole.
- Log messages, the text of the returned errors and the `"%s:%d"` target string: errors are datatype values, and the target is an address and a port.
- The type assertion `conn.LocalAddr().(*net.TCPAddr)` (socks5server.go:103) is assumed to succeed. The local address enters only as the result of `To4()`.
- Wire.ReadInto: a Go `Read` may return bytes together with an error. The model then takes the buffer as all zeros, which no branch of the source reads.
