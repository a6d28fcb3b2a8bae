/** `handleConnection`: method selection, then the CONNECT request, then the
    relay, on one accepted connection. The session is described by the events
    it causes, in order. */
module Session {
  import opened Wire
  import opened Socks5
  import Rfc1928

  /** What a session does, observably. */
  datatype Event =
    | ReadRequest               // one `conn.Read` of the client connection
    | Write(bytes: seq<Byte>)   // one `conn.Write` to the client connection
    | Dial(target: Target)      // `net.Dial` to the requested target
    | Relay(upstream: Upstream) // the two copy goroutines start `io.Copy` between conn and upstream
    | RelaySkipped              // the two copy goroutines start and skip `io.Copy` (nil upstream)
    | Close                     // the deferred `conn.Close()`

  /** The events of `connect` alone, in the order it causes them. */
  function ConnectEvents(c: ConnectStep): (events: seq<Event>)
    ensures |events| == if c.dialed.Some? then 3 else 2
    ensures events[0] == ReadRequest && events[|events| - 1] == Write(c.reply)
    ensures forall i :: 0 <= i < |events| - 1 ==> !events[i].Write?
    ensures c.dialed.Some? ==> events[1] == Dial(c.dialed.value)
  {
    [ReadRequest] + (if c.dialed.Some? then [Dial(c.dialed.value)] else []) + [Write(c.reply)]
  }

  /** What follows a `connect` that returned no error: the two goroutines, of
      which `handleConnection` waits for one. Nothing follows an error. */
  function AfterConnect(result: ConnectResult): (events: seq<Event>)
    ensures events == [] <==> result.ConnectFailed?
    ensures |events| <= 1
    ensures RelaySkipped in events <==> result.NoConnection?
    ensures result.Connected? ==> events == [Relay(result.upstream)]
  {
    match result
    case ConnectFailed(_) => []
    case NoConnection => [RelaySkipped]
    case Connected(upstream) => [Relay(upstream)]
  }

  /** The events of `handleConnection` once its two exchanges are known; the
      CONNECT exchange matters only after a successful method selection. */
  function SessionEvents(selection: SelectionStep, c: ConnectStep): (events: seq<Event>)
    ensures |events| >= 3 && events[..2] == [ReadRequest, Write(selection.reply)]
    ensures events[|events| - 1] == Close
    ensures |events| == 3 <==> selection.err.Some?
    ensures selection.err.None? ==> events[2] == ReadRequest && Write(c.reply) in events
  {
    [ReadRequest, Write(selection.reply)] +
    (if selection.err.Some? then [] else ConnectEvents(c) + AfterConnect(c.result)) +
    [Close]
  }

  /** The events of `handleConnection`, given the outcomes of its two reads
      (the second is used only if there is a second read), the dialer and the
      local address. */
  function SessionOf(first: ReadResult, second: ReadResult, dial: Target -> DialResult, local: Option<IPv4>)
    : (events: seq<Event>)
    ensures |events| >= 3 && events[..2] == [ReadRequest, Write(SelectionOf(first).reply)]
    // the CONNECT request is read only after a successful method selection
    ensures ReadRequest in events[2..] <==> SelectionOf(first).err.None?
    ensures SelectionOf(first).err.None? ==> Write(ConnectOf(second, dial, local).reply) in events
  {
    SessionEvents(SelectionOf(first), ConnectOf(second, dial, local))
  }

  /** `handleConnection(conn)`: returns the events it causes. */
  method HandleConnection(first: ReadResult, second: ReadResult, dial: Target -> DialResult, local: Option<IPv4>)
    returns (events: seq<Event>)
    ensures events == SessionOf(first, second, dial, local)
  {
    // the deferred conn.Close() is the last event on every path
    var reply, err := MethodSelection(first);
    events := [ReadRequest, Write(reply)];
    if err.None? {
      var connectReply, dialed, result := Connect(second, dial, local);
      events := events + ConnectEvents(ConnectStep(connectReply, dialed, result));
      // after an error nothing is relayed; otherwise both goroutines start and
      // run `io.Copy` only when neither connection is nil
      events := events + AfterConnect(result);
    }
    events := events + [Close];
  }

  // ---------------------------------------------------------------------------
  // Properties

  /** The session always starts with a read and ends by closing the client
      connection, exactly once. */
  lemma ClosesOnceAtEnd(first: ReadResult, second: ReadResult, dial: Target -> DialResult, local: Option<IPv4>)
    ensures var events := SessionOf(first, second, dial, local);
            |events| >= 3 && events[0] == ReadRequest && events[|events| - 1] == Close &&
            forall i :: 0 <= i < |events| - 1 ==> events[i] != Close
  {
    CloseOnlyAtEnd(SelectionOf(first), ConnectOf(second, dial, local));
  }

  /** Whatever the two exchanges were, `Close` is the last event and no other. */
  lemma CloseOnlyAtEnd(selection: SelectionStep, c: ConnectStep)
    ensures var events := SessionEvents(selection, c);
            forall i :: 0 <= i < |events| - 1 ==> events[i] != Close
  {
    if selection.err.None? {
      var middle := ConnectEvents(c) + AfterConnect(c.result);
      assert SessionEvents(selection, c) == [ReadRequest, Write(selection.reply)] + middle + [Close];
    }
  }

  /** A failed method selection ends the session after its one reply: nothing
      more is read, nothing is dialed. */
  lemma SelectionFailureEndsSession(first: ReadResult, second: ReadResult, dial: Target -> DialResult,
                                    local: Option<IPv4>)
    requires SelectionOf(first).err.Some?
    ensures SessionOf(first, second, dial, local)
            == [ReadRequest, Write([Rfc1928.VERSION, Rfc1928.METHOD_NO_ACCEPTABLE]), Close]
  {
  }

  /** A dial happens only after a successful method selection, and only for the
      target the CONNECT request names. */
  lemma DialOnlyAfterSelection(first: ReadResult, second: ReadResult, dial: Target -> DialResult,
                               local: Option<IPv4>, target: Target)
    ensures Dial(target) in SessionOf(first, second, dial, local) <==>
            SelectionOf(first).err.None? && ConnectOf(second, dial, local).dialed == Some(target)
  {
  }

  /** A relay starts exactly when both exchanges succeeded. */
  lemma RelayExactlyWhenEstablished(first: ReadResult, second: ReadResult, dial: Target -> DialResult,
                                    local: Option<IPv4>, upstream: Upstream)
    ensures Relay(upstream) in SessionOf(first, second, dial, local) <==>
            SelectionOf(first).err.None? && ConnectOf(second, dial, local).result == Connected(upstream)
  {
  }

  /** An established session is, in full: greeting reply, request, dial, success
      reply, relay, close. */
  lemma EstablishedSession(first: ReadResult, second: ReadResult, dial: Target -> DialResult,
                           local: Option<IPv4>, upstream: Upstream)
    requires SelectionOf(first).err.None? && ConnectOf(second, dial, local).result == Connected(upstream)
    ensures SessionOf(first, second, dial, local) ==
            [ReadRequest, Write([Rfc1928.VERSION, Rfc1928.METHOD_NO_AUTH]),
             ReadRequest, Dial(ConnectOf(second, dial, local).dialed.value), Write(SuccessReply(local)),
             Relay(upstream), Close]
  {
    EstablishedEvents(SelectionOf(first), ConnectOf(second, dial, local));
  }

  /** Once both exchanges are known and the second one returned a connection,
      the events are the seven of an established session. */
  lemma EstablishedEvents(selection: SelectionStep, c: ConnectStep)
    requires selection.err.None? && c.result.Connected? && c.dialed.Some?
    ensures SessionEvents(selection, c) ==
            [ReadRequest, Write(selection.reply), ReadRequest, Dial(c.dialed.value), Write(c.reply),
             Relay(c.result.upstream), Close]
  {
    assert ConnectEvents(c) == [ReadRequest, Dial(c.dialed.value), Write(c.reply)];
  }

  /** A `connect` error ends the session after the refusal: no relay goroutine
      does anything. */
  lemma ConnectErrorEndsSession(first: ReadResult, second: ReadResult, dial: Target -> DialResult,
                                local: Option<IPv4>)
    requires SelectionOf(first).err.None? && ConnectOf(second, dial, local).result.ConnectFailed?
    ensures var events := SessionOf(first, second, dial, local);
            events[|events| - 2] == Write(ConnectOf(second, dial, local).reply) &&
            forall i :: 0 <= i < |events| ==> !events[i].Relay? && !events[i].RelaySkipped?
  {
  }

  /** A read failure in `connect` is not an error: the session goes on to the
      relay step, where both goroutines skip copying. */
  lemma ConnectReadFailureSkipsRelay(first: ReadResult, dial: Target -> DialResult, local: Option<IPv4>)
    requires SelectionOf(first).err.None?
    ensures SessionOf(first, ReadError, dial, local)
            == [ReadRequest, Write([Rfc1928.VERSION, Rfc1928.METHOD_NO_AUTH]),
                ReadRequest, Write([Rfc1928.VERSION, Rfc1928.REP_GENERAL_FAILURE]), RelaySkipped, Close]
  {
  }

  // ---------------------------------------------------------------------------
  // End-to-end scenarios

  /** `05 01 00`, then CONNECT to 127.0.0.1:8080, which accepts. */
  lemma ScenarioConnectSucceeds(dial: Target -> DialResult, ip: IPv4, upstream: Upstream)
    requires dial(Target([127, 0, 0, 1], 8080)) == Dialed(upstream)
    ensures SessionOf(ReadBytes([5, 1, 0]), ReadBytes([5, 1, 0, 1, 0x7F, 0, 0, 1, 0x1F, 0x90]), dial, Some(ip))
            == [ReadRequest, Write([5, 0]), ReadRequest, Dial(Target([127, 0, 0, 1], 8080)),
                Write([5, 0, 0, 1] + ip + [0, 0]), Relay(upstream), Close]
  {
    RequestScenario(dial, Some(ip));
    EstablishedSession(ReadBytes([5, 1, 0]), ReadBytes([5, 1, 0, 1, 0x7F, 0, 0, 1, 0x1F, 0x90]), dial, Some(ip),
                       upstream);
    SuccessReplyIsRfcReply(Some(ip));
    assert SuccessReply(Some(ip)) == [5, 0, 0, 1] + ip + [0, 0];
  }

  /** The same request, but nothing listens on 127.0.0.1:8080. */
  lemma ScenarioConnectRefused(dial: Target -> DialResult, local: Option<IPv4>)
    requires dial(Target([127, 0, 0, 1], 8080)) == DialFailed
    ensures SessionOf(ReadBytes([5, 1, 0]), ReadBytes([5, 1, 0, 1, 0x7F, 0, 0, 1, 0x1F, 0x90]), dial, local)
            == [ReadRequest, Write([5, 0]), ReadRequest, Dial(Target([127, 0, 0, 1], 8080)),
                Write([5, 5]), Close]
  {
    RequestScenario(dial, local);
  }

  /** The CONNECT request of both scenarios is the RFC 1928 one for 127.0.0.1:8080. */
  lemma RequestScenario(dial: Target -> DialResult, local: Option<IPv4>)
    ensures SelectionOf(ReadBytes([5, 1, 0])).err.None?
    ensures ConnectOf(ReadBytes([5, 1, 0, 1, 0x7F, 0, 0, 1, 0x1F, 0x90]), dial, local).dialed
            == Some(Target([127, 0, 0, 1], 8080))
  {
    var request := [5, 1, 0, 1, 0x7F, 0, 0, 1, 0x1F, 0x90];
    assert request == Rfc1928.Request(5, 1, 1, [127, 0, 0, 1], 8080) + [];
    ConnectDialsRequestedTarget(1, [127, 0, 0, 1], 8080, [], dial, local);
  }

  /** A SOCKS4 greeting is refused and nothing more is read. */
  lemma ScenarioWrongVersion(rest: seq<Byte>, second: ReadResult, dial: Target -> DialResult, local: Option<IPv4>)
    ensures SessionOf(ReadBytes([4] + rest), second, dial, local) == [ReadRequest, Write([5, 0xFF]), Close]
  {
  }
}
