/** The WebSocket connector as a mutable object. Each method updates the fields
    the way `WebSocketConnector` does and is proved to end in the state, and
    with the outcome, that the matching WebSocketSpec function gives; what the
    connector promises is proved about those functions in WebSocketProperties. */
module WebSocketTransport {
  import opened Common
  import opened Xml
  import opened Session
  import opened WebSocketFrames
  import opened WebSocketSpec

  class WebSocketConnector {
    /** the context's session object */
    var props: Props
    /** what was fired on the context's event bus */
    var events: seq<Event>
    /** what was handed to the socket's `send` */
    var sent: seq<Frame>
    var socket: Option<WsSocket>
    var ping: Ping
    /** `rfcCompatible` */
    var rfc: Option<bool>

    /** The fields as one value. */
    function Model(): WsConn
      reads this
    {
      WsConn(props, events, sent, socket, ping, rfc)
    }

    /** A connector over a context whose session object holds `p`. */
    constructor(p: Props)
      ensures Model() == WsConn(p, [], [], None, NoPing, None)
    {
      props := p;
      events := [];
      sent := [];
      socket := None;
      ping := NoPing;
      rfc := None;
    }

    method GetState() returns (s: Option<State>)
      ensures s == WebSocketSpec.GetState(Model())
    {
      s := Stage(props);
    }

    method SetStage(s: State)
      modifies this
      ensures Model() == WebSocketSpec.SetStage(old(Model()), s)
    {
      var prev := Stage(props);
      props := Put(props, StreamScope, StageKey, VState(s));
      if prev != Some(s) {
        events := events + [StateChanged(prev, s)];
        if s == Disconnected {
          events := events + [StreamTerminated];
        }
      }
    }

    method FireOnError(cause: Option<Fault>)
      modifies this
      ensures Model() == WebSocketSpec.FireOnError(old(Model()), cause)
    {
      events := events + [Error(None, cause)];
    }

    method FireOnConnected()
      modifies this
      ensures Model() == WebSocketSpec.FireOnConnected(old(Model()))
    {
      var st := GetState();
      if st == Some(Disconnected) {
        return;
      }
      events := events + [ConnectedEvent];
    }

    /** `send(String)`, the text being `Render(f)` */
    method Send(f: Frame) returns (out: Outcome)
      modifies this
      ensures WsStep(Model(), out) == WebSocketSpec.Send(old(Model()), f)
    {
      var st := GetState();
      if st != Some(Connected) {
        return Raised(NotConnected);
      }
      if socket.None? {
        return Raised(NullReference);
      }
      sent := sent + [f];
      out := Normal;
    }

    method Keepalive() returns (out: Outcome)
      modifies this
      ensures WsStep(Model(), out) == WebSocketSpec.Keepalive(old(Model()))
    {
      if Flag(props, DisableKeepaliveKey) == Some(true) {
        return Normal;
      }
      var st := GetState();
      if st == Some(Connected) {
        out := Send(Whitespace);
      } else {
        out := Normal;
      }
    }

    method RestartStream() returns (out: Outcome)
      modifies this
      ensures WsStep(Model(), out) == WebSocketSpec.RestartStream(old(Model()))
    {
      if rfc.None? {
        return Raised(NullReference);
      }
      out := Send(OpenFrame(rfc.value, HeaderAddress(props)));
    }

    method TerminateStream() returns (out: Outcome)
      modifies this
      ensures WsStep(Model(), out) == WebSocketSpec.TerminateStream(old(Model()))
    {
      var st := GetState();
      if st != Some(Connected) && st != Some(Connecting) {
        return Normal;
      }
      if rfc.None? {
        return Raised(NullReference);
      }
      out := Send(CloseFrame(rfc.value));
    }

    method Stop(terminate: bool) returns (out: Outcome)
      modifies this
      ensures WsStep(Model(), out) == WebSocketSpec.Stop(old(Model()), terminate)
    {
      var st := GetState();
      if st == Some(Disconnected) {
        return Normal;
      }
      SetStage(Disconnecting);
      ghost var c1 := Model();
      assert c1 == WebSocketSpec.SetStage(old(Model()), Disconnecting);
      if !terminate {
        out := TerminateStream();
        assert WsStep(Model(), out) == WebSocketSpec.TerminateStream(c1);
        if out.Raised? {
          return;
        }
      }
      ping := NoPing;
      if socket.None? {
        return Raised(NullReference);
      }
      socket := Some(socket.value.(closed := true));
      events := events + [DisconnectedEvent];
      out := Normal;
    }

    /** `handleSeeOtherHost(response)`, which never reports the error as handled. */
    method HandleSeeOtherHost(response: Element) returns (handled: bool)
      modifies this
      ensures !handled
      ensures Model() == WebSocketSpec.HandleSeeOtherHost(old(Model()), response)
    {
      var seeOtherHost := ChildNS(response, "see-other-host", NS_STREAM_ERRORS);
      if seeOtherHost.Some? {
        events := events + [SeeOtherHost(seeOtherHost.value.value)];
      }
      handled := false;
    }

    /** `onError(response, ex)` */
    method OnError(response: Option<Element>, cause: Option<Fault>) returns (out: Outcome)
      modifies this
      ensures WsStep(Model(), out) == WebSocketSpec.OnError(old(Model()), response, cause)
    {
      if response.Some? {
        // `handleSeeOtherHost` always answers false, so the handler goes on
        var _ := HandleSeeOtherHost(response.value);
      }
      ghost var c1 := Model();
      var o := Stop(false);
      assert WsStep(Model(), o) == WebSocketSpec.Stop(c1, false);
      if o.Raised? {
        if o.fault.IsJaxmppException() {
          return Normal;
        }
        return o;
      }
      FireOnError(cause);
      out := Normal;
    }

    /** `handleSeeOtherUri(uri)` */
    method HandleSeeOtherUri(uri: string) returns (out: Outcome)
      modifies this
      ensures WsStep(Model(), out) == WebSocketSpec.HandleSeeOtherUri(old(Model()), uri)
    {
      events := events + [SeeOtherHost(Some(uri))];
      ghost var c1 := Model();
      out := Stop(false);
      assert WsStep(Model(), out) == WebSocketSpec.Stop(c1, false);
      if out.Raised? {
        return;
      }
      FireOnError(None);
    }

    /** The body of the loop of `parseSocketData` for one received child. */
    method DispatchChild(isRfc: bool, child: Element) returns (out: Outcome)
      modifies this
      ensures WsStep(Model(), out) == WebSocketSpec.DispatchOne(old(Model()), isRfc, child)
    {
      if child.name == "parsererror" {
        return Normal;
      }
      if isRfc && child.xmlns == Some(NS_FRAMING) {
        if child.name == "close" {
          if "see-other-uri" in child.attrs {
            out := HandleSeeOtherUri(child.attrs["see-other-uri"]);
            return;
          }
          ghost var c0 := Model();
          out := Stop(false);
          assert WsStep(Model(), out) == WebSocketSpec.Stop(c0, false);
          if out.Raised? {
            return;
          }
        }
        if child.name == "open" {
          return Normal;
        }
      }
      if WebSocketSpec.IsStreamError(child) {
        out := OnError(Some(child), None);
      } else {
        events := events + [StanzaReceived(child)];
        out := Normal;
      }
    }

    /** `parseSocketData(x)`; `parse` is the browser's XML parser, None
        standing for a frame it rejects. */
    method ParseSocketData(x: Option<string>, parse: string -> Option<Element>) returns (out: Outcome)
      modifies this
      ensures WsStep(Model(), out) == WebSocketSpec.ParseSocketData(old(Model()), x, parse)
    {
      if x.None? {
        return Raised(NullReference);
      }
      var s := x.value;
      // `x.trim()` empties a single character exactly when it is at most a
      // space (the peer's keepalive), and leaves any other one as it is
      if |s| == 1 && IsTrimmed(s[0]) {
        return Normal;
      }
      var doc := RewriteAsWritten(s);
      if doc.None? {
        return Raised(IndexOutOfRange);
      }
      var root := parse(doc.value);
      if root.None? {
        return Raised(MalformedXml);
      }
      var received := WebSocketSpec.Received(root.value);
      if rfc.None? {
        return Raised(NullReference);
      }
      assert Model() == old(Model());
      assert WebSocketSpec.ParseSocketData(old(Model()), x, parse) == WebSocketSpec.DispatchAll(old(Model()), rfc.value, received);
      out := DispatchAll(rfc.value, received);
    }

    /** The loop of `parseSocketData` over the received children. */
    method DispatchAll(isRfc: bool, received: seq<Element>) returns (out: Outcome)
      modifies this
      ensures WsStep(Model(), out) == WebSocketSpec.DispatchAll(old(Model()), isRfc, received)
    {
      var i := 0;
      while i < |received|
        invariant 0 <= i <= |received|
        invariant WebSocketSpec.DispatchAll(old(Model()), isRfc, received) == WebSocketSpec.DispatchAll(Model(), isRfc, received[i..])
      {
        ghost var before := Model();
        var o := DispatchChild(isRfc, received[i]);
        assert received[i..][0] == received[i] && received[i..][1..] == received[i + 1..];
        if o.Raised? {
          assert WsStep(Model(), o) == WebSocketSpec.DispatchAll(before, isRfc, received[i..]);
          return o;
        }
        i := i + 1;
      }
      out := Normal;
    }

    /** A JaxmppException escaping a socket callback goes to `onError(null, ex)`. */
    method Guard(o: Outcome) returns (out: Outcome)
      modifies this
      ensures WsStep(Model(), out) == WebSocketSpec.Guarded(WsStep(old(Model()), o))
    {
      if o.Raised? && o.fault.IsJaxmppException() {
        out := OnError(None, Some(o.fault));
      } else {
        out := o;
      }
    }

    /** The socket's `onMessage` callback. */
    method OnMessage(x: Option<string>, parse: string -> Option<Element>) returns (out: Outcome)
      modifies this
      ensures WsStep(Model(), out) == WebSocketSpec.OnMessage(old(Model()), x, parse)
    {
      var o := ParseSocketData(x, parse);
      out := Guard(o);
    }

    method Start()
      modifies this
      ensures Model() == WebSocketSpec.Start(old(Model()))
    {
      if rfc.None? {
        rfc := Flag(props, ForceRfcKey);
      }
      if rfc.None? {
        rfc := Some(false);
      }
      var url := Text(props, ServiceUrlKey);
      SetStage(Connecting);
      socket := Some(WsSocket(url, false));
    }

    /** The socket's `onOpen` callback. */
    method OnOpen(protocol: Option<string>) returns (out: Outcome)
      modifies this
      ensures WsStep(Model(), out) == WebSocketSpec.OnOpen(old(Model()), protocol)
    {
      if protocol == Some("xmpp-framing") {
        rfc := Some(true);
      }
      SetStage(Connected);
      ghost var c1 := Model();
      var o := RestartStream();
      assert WsStep(Model(), o) == WebSocketSpec.RestartStream(c1);
      if o.Raised? {
        out := Guard(o);
        return;
      }
      ping := PingIdle;
      if Flag(props, ExternalKeepaliveKey) != Some(true) {
        ping := PingEvery(WebSocketSpec.PING_PERIOD);
      }
      FireOnConnected();
      out := Normal;
    }

    /** The socket's `onClose` callback. */
    method OnClose() returns (out: Outcome)
      modifies this
      ensures WsStep(Model(), out) == WebSocketSpec.OnClose(old(Model()))
    {
      var st := GetState();
      if st == Some(Connected) {
        if rfc.None? {
          return Raised(NullReference);
        }
        if !rfc.value && Features(props).None? {
          ping := NoPing;
          rfc := Some(true);
          Start();
          return Normal;
        }
      }
      if st == Some(Disconnecting) {
        ping := NoPing;
        FireOnError(None);
        return Normal;
      }
      var o := Stop(true);
      out := Guard(o);
    }

    /** The socket's `onError` callback. */
    method OnSocketError()
      modifies this
      ensures Model() == WebSocketSpec.OnSocketError(old(Model()))
    {
      ping := NoPing;
      FireOnError(None);
    }
  }
}
