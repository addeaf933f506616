/** The WebSocket connector (`WebSocketConnector`, XMPP over WebSocket as in
    RFC 7395) as pure functions over a snapshot of its state. Each operation
    maps the snapshot before the call to the snapshot after it and says how the
    call ended; the class in WebSocketTransport is proved to follow these
    functions, and WebSocketProperties states what the connector promises. */
module WebSocketSpec {
  import opened Common
  import opened Xml
  import opened Session
  import opened WebSocketFrames

  /** SOCKET_TIMEOUT: three minutes. */
  const SOCKET_TIMEOUT: int := 1000 * 60 * 3
  /** The whitespace ping fires five seconds before the socket timeout. */
  const PING_PERIOD: int := SOCKET_TIMEOUT - 1000 * 5

  /** The `socket` field: the URL it was opened with and whether `close()` was
      called on it. */
  datatype WsSocket = WsSocket(url: Option<string>, closed: bool)

  /** The connector's state: the session object, what was fired on the event
      bus, what was handed to the socket's `send`, the socket, the ping timer
      and `rfcCompatible` (null until `start` decides it). */
  datatype WsConn = WsConn(
    props: Props,
    events: seq<Event>,
    sent: seq<Frame>,
    socket: Option<WsSocket>,
    ping: Ping,
    rfc: Option<bool>)

  /** The state after an operation, and how the operation ended. */
  datatype WsStep = WsStep(conn: WsConn, out: Outcome)

  /* ---------------------------------------------------------------------- */
  /* Stage                                                                  */

  /** `getState()`: the stored stage, null when there is none. */
  function GetState(c: WsConn): Option<State>
  {
    Stage(c.props)
  }

  /** `setStage(state)`; the recursive call it makes for the disconnected stage
      finds the stage already stored and only the StreamTerminated event remains. */
  function SetStage(c: WsConn, s: State): WsConn
  {
    c.(props := Put(c.props, StreamScope, StageKey, VState(s)),
       events := c.events + StageEvents(Stage(c.props), s))
  }

  function Fire(c: WsConn, e: Event): WsConn
  {
    c.(events := c.events + [e])
  }

  /** `fireOnError(null, caught, …)`: an Error event without a condition. */
  function FireOnError(c: WsConn, cause: Option<Fault>): WsConn
  {
    Fire(c, Error(None, cause))
  }

  /** `fireOnConnected`: nothing once disconnected. */
  function FireOnConnected(c: WsConn): WsConn
  {
    if GetState(c) == Some(Disconnected) then c else Fire(c, ConnectedEvent)
  }

  /* ---------------------------------------------------------------------- */
  /* Output                                                                 */

  /** `send(String)`, the text being `Render(f)`. */
  function Send(c: WsConn, f: Frame): WsStep
  {
    if GetState(c) != Some(Connected) then WsStep(c, Raised(NotConnected))
    else if c.socket.None? then WsStep(c, Raised(NullReference))
    else WsStep(c.(sent := c.sent + [f]), Normal)
  }

  /** `keepalive()` */
  function Keepalive(c: WsConn): WsStep
  {
    if Flag(c.props, DisableKeepaliveKey) == Some(true) then WsStep(c, Normal)
    else if GetState(c) == Some(Connected) then Send(c, Whitespace)
    else WsStep(c, Normal)
  }

  /** `restartStream()`: the opening tag of the framing in use. */
  function RestartStream(c: WsConn): WsStep
  {
    if c.rfc.None? then WsStep(c, Raised(NullReference))
    else Send(c, OpenFrame(c.rfc.value, HeaderAddress(c.props)))
  }

  /** `terminateStream()`: the closing tag, tried only when connected or connecting. */
  function TerminateStream(c: WsConn): WsStep
  {
    var st := GetState(c);
    if st != Some(Connected) && st != Some(Connecting) then WsStep(c, Normal)
    else if c.rfc.None? then WsStep(c, Raised(NullReference))
    else Send(c, CloseFrame(c.rfc.value))
  }

  /* ---------------------------------------------------------------------- */
  /* Stopping and errors                                                    */

  /** `stop(terminate)` */
  function Stop(c: WsConn, terminate: bool): WsStep
  {
    if GetState(c) == Some(Disconnected) then WsStep(c, Normal)
    else
      var c1 := SetStage(c, Disconnecting);
      var r := if terminate then WsStep(c1, Normal) else TerminateStream(c1);
      if r.out.Raised? then r
      else
        var c2 := r.conn.(ping := NoPing);
        if c2.socket.None? then WsStep(c2, Raised(NullReference))
        else WsStep(Fire(c2.(socket := Some(c2.socket.value.(closed := true))), DisconnectedEvent), Normal)
  }

  /** `handleSeeOtherHost(response)`: fires SeeOtherHost for a see-other-host
      child; it always answers false, which leaves nothing to return here. */
  function HandleSeeOtherHost(c: WsConn, response: Element): WsConn
  {
    match ChildNS(response, "see-other-host", NS_STREAM_ERRORS)
    case None => c
    case Some(e) => Fire(c, SeeOtherHost(e.value))
  }

  /** `onError(response, ex)`: stop, then an Error event; a JaxmppException on
      the way is logged and ends the handler, any other exception escapes. */
  function OnError(c: WsConn, response: Option<Element>, cause: Option<Fault>): WsStep
  {
    var c1 := if response.Some? then HandleSeeOtherHost(c, response.value) else c;
    var r := Stop(c1, false);
    if r.out.Raised? then
      if r.out.fault.IsJaxmppException() then WsStep(r.conn, Normal) else r
    else WsStep(FireOnError(r.conn, cause), Normal)
  }

  /** `handleSeeOtherUri(uri)`: SeeOtherHost with the URI, stop, then an Error event. */
  function HandleSeeOtherUri(c: WsConn, uri: string): WsStep
  {
    var r := Stop(Fire(c, SeeOtherHost(Some(uri))), false);
    if r.out.Raised? then r else WsStep(FireOnError(r.conn, None), Normal)
  }

  /* ---------------------------------------------------------------------- */
  /* Incoming frames                                                        */

  /** A stream error: `error` in the streams namespace, or named `stream:error`. */
  predicate IsStreamError(e: Element)
  {
    (e.name == "error" && e.xmlns == Some(NS_STREAMS)) || e.name == "stream:error"
  }

  /** A framing-namespace child with the given name, looked at only in RFC mode. */
  predicate IsFraming(rfc: bool, e: Element, name: string)
  {
    rfc && e.xmlns == Some(NS_FRAMING) && e.name == name
  }

  /** The last part of the loop body: stream errors to `onError`, everything
      else to a StanzaReceived event. */
  function Deliver(c: WsConn, e: Element): WsStep
  {
    if IsStreamError(e) then OnError(c, Some(e), None)
    else WsStep(Fire(c, StanzaReceived(e)), Normal)
  }

  /** One pass of the loop of `parseSocketData` over a received child. */
  function DispatchOne(c: WsConn, rfc: bool, e: Element): WsStep
  {
    if e.name == "parsererror" then WsStep(c, Normal)
    else if IsFraming(rfc, e, "close") && "see-other-uri" in e.attrs then
      HandleSeeOtherUri(c, e.attrs["see-other-uri"])
    else if IsFraming(rfc, e, "close") then
      var r := Stop(c, false);
      if r.out.Raised? then r else Deliver(r.conn, e)
    else if IsFraming(rfc, e, "open") then WsStep(c, Normal)
    else Deliver(c, e)
  }

  /** The loop of `parseSocketData`: the children in order, until one of them
      raises. */
  function DispatchAll(c: WsConn, rfc: bool, es: seq<Element>): WsStep
    decreases |es|
  {
    if es == [] then WsStep(c, Normal)
    else
      var r := DispatchOne(c, rfc, es[0]);
      if r.out.Raised? then r else DispatchAll(r.conn, rfc, es[1..])
  }

  /** The elements a parsed frame delivers: the children of a stream, `stream`
      or `root` wrapper, otherwise the element itself. */
  function Received(root: Element): seq<Element>
  {
    if root.name == "stream:stream" || root.name == "stream" || root.name == "root" then root.children
    else [root]
  }

  /** `parseSocketData(x)`. The browser's XML parser is `parse`; None stands for
      a frame it rejects with an exception. A null frame reaches `x.trim()`; a
      frame of one character is trimmed, which empties it exactly when the
      character is at most a space (see `SingleCharacterTrim`). The frame is
      rewritten as the code does; where that throws, the
      StringIndexOutOfBoundsException is raised before anything changes. */
  function ParseSocketData(c: WsConn, x: Option<string>, parse: string -> Option<Element>): WsStep
  {
    if x.None? then WsStep(c, Raised(NullReference))
    else if |x.value| == 1 && IsTrimmed(x.value[0]) then WsStep(c, Normal)
    else
      match RewriteAsWritten(x.value)
      case None => WsStep(c, Raised(IndexOutOfRange))
      case Some(doc) =>
        match parse(doc)
        case None => WsStep(c, Raised(MalformedXml))
        case Some(root) =>
          if c.rfc.None? then WsStep(c, Raised(NullReference))
          else DispatchAll(c, c.rfc.value, Received(root))
  }

  /** A JaxmppException escaping a socket callback goes to `onError(null, ex)`. */
  function Guarded(r: WsStep): WsStep
  {
    if r.out.Raised? && r.out.fault.IsJaxmppException() then OnError(r.conn, None, Some(r.out.fault))
    else r
  }

  /** The socket's `onMessage` callback. */
  function OnMessage(c: WsConn, x: Option<string>, parse: string -> Option<Element>): WsStep
  {
    Guarded(ParseSocketData(c, x, parse))
  }

  /* ---------------------------------------------------------------------- */
  /* Lifecycle                                                              */

  /** `start()`: framing mode from FORCE_RFC_KEY (false by default) unless it is
      already decided, the connecting stage, and a new socket for the service URL. */
  function Start(c: WsConn): WsConn
  {
    var rfc := if c.rfc.Some? then c.rfc else Flag(c.props, ForceRfcKey);
    var c1 := SetStage(c.(rfc := Some(if rfc.Some? then rfc.value else false)), Connecting);
    c1.(socket := Some(WsSocket(Text(c.props, ServiceUrlKey), false)))
  }

  /** The ping timer `onOpen` leaves behind: repeating unless EXTERNAL_KEEPALIVE_KEY is true. */
  function OpenPing(p: Props): Ping
  {
    if Flag(p, ExternalKeepaliveKey) == Some(true) then PingIdle else PingEvery(PING_PERIOD)
  }

  /** The socket's `onOpen` callback; `protocol` is the subprotocol the server chose. */
  function OnOpen(c: WsConn, protocol: Option<string>): WsStep
  {
    var c1 := if protocol == Some("xmpp-framing") then c.(rfc := Some(true)) else c;
    var r := RestartStream(SetStage(c1, Connected));
    if r.out.Raised? then Guarded(r)
    else WsStep(FireOnConnected(r.conn.(ping := OpenPing(r.conn.props))), Normal)
  }

  /** The socket's `onClose` callback: the one-shot switch to RFC framing when a
      legacy stream closes before any stream features arrived, an Error when
      the close was asked for, and `stop(true)` otherwise. */
  function OnClose(c: WsConn): WsStep
  {
    var st := GetState(c);
    if st == Some(Connected) && c.rfc.None? then WsStep(c, Raised(NullReference))
    else if st == Some(Connected) && c.rfc == Some(false) && Features(c.props).None? then
      WsStep(Start(c.(ping := NoPing, rfc := Some(true))), Normal)
    else if st == Some(Disconnecting) then WsStep(FireOnError(c.(ping := NoPing), None), Normal)
    else Guarded(Stop(c, true))
  }

  /** The socket's `onError` callback. */
  function OnSocketError(c: WsConn): WsConn
  {
    FireOnError(c.(ping := NoPing), None)
  }
}
