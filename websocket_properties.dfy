/** What the WebSocket connector promises, stated over the functions of
    WebSocketSpec. */
module WebSocketProperties {
  import opened Common
  import opened Xml
  import opened Session
  import opened WebSocketFrames
  import opened WebSocketSpec

  /* ---------------------------------------------------------------------- */
  /* Stage, send, keepalive                                                 */

  /** `setStage` always stores the new stage and fires StateChanged (and
      StreamTerminated for disconnected) only when the stage changes; nothing
      but the stage entry and the event log changes. */
  lemma SetStageStoresStage(c: WsConn, s: State)
    ensures GetState(SetStage(c, s)) == Some(s)
    ensures SetStage(c, s).events == c.events + StageEvents(GetState(c), s)
    ensures SetStage(c, s).(props := c.props, events := c.events) == c
  {
  }

  /** `send` hands the frame to the socket exactly when the stage is connected
      (and the socket exists); in any other stage it throws "Not connected" and
      changes nothing. */
  lemma SendOnlyWhenConnected(c: WsConn, f: Frame)
    ensures Send(c, f).out == Normal <==> GetState(c) == Some(Connected) && c.socket.Some?
    ensures Send(c, f).out == Normal ==> Send(c, f).conn == c.(sent := c.sent + [f])
    ensures GetState(c) != Some(Connected) ==> Send(c, f) == WsStep(c, Raised(NotConnected))
  {
  }

  /** The keepalive sends a single space, and only when keepalive is not
      disabled and the stage is connected; nothing else changes. */
  lemma KeepaliveSendsSpaceOnlyWhenConnected(c: WsConn)
    ensures Render(Whitespace) == " "
    ensures Keepalive(c).conn.(sent := c.sent) == c
    ensures Keepalive(c).conn.sent ==
      if Flag(c.props, DisableKeepaliveKey) != Some(true) && GetState(c) == Some(Connected) && c.socket.Some?
      then c.sent + [Whitespace] else c.sent
  {
  }

  /** `restartStream` in a connected stage sends the opening tag of the framing
      in use, addressed by the session's from/to rule: `<open/>` in RFC mode,
      `<stream:stream>` otherwise. */
  lemma RestartStreamSendsHeader(c: WsConn)
    requires c.rfc.Some? && GetState(c) == Some(Connected) && c.socket.Some?
    ensures RestartStream(c) == WsStep(c.(sent := c.sent + [OpenFrame(c.rfc.value, HeaderAddress(c.props))]), Normal)
    ensures StartsWith(Render(OpenFrame(c.rfc.value, HeaderAddress(c.props))), OPEN_PREFIX) <==> c.rfc.value
  {
    HeaderFraming(c.rfc.value, HeaderAddress(c.props));
  }

  /** With a user JID, and SEE_OTHER_HOST_KEY not false, the header names the
      JID as `from` and its domain as `to`, in both framings. */
  lemma HeaderFromUser(p: Props, rfc: bool)
    requires UserJid(p).Some? && Flag(p, SeeOtherHostKey) != Some(false)
    ensures var j := UserJid(p).value;
      Header(rfc, HeaderAddress(p)) ==
        (if rfc then OPEN_PREFIX else STREAM_OPEN)
        + ("from='" + JidText(j) + "' " + "to='" + j.domain + "' ")
        + VERSION + (if rfc then FRAMING_TAIL else LEGACY_TAIL)
  {
    var j := UserJid(p).value;
    AddressingRule(UserJid(p), Flag(p, SeeOtherHostKey), Text(p, DomainNameKey));
    assert AddressAttributes(HeaderAddress(p)) == "from='" + JidText(j) + "' " + "to='" + j.domain + "' ";
  }

  /** Otherwise `to` is DOMAIN_NAME, and the header has no addressing at all
      when that is not set either. */
  lemma HeaderWithoutUser(p: Props, rfc: bool)
    requires UserJid(p).None? || Flag(p, SeeOtherHostKey) == Some(false)
    ensures HeaderAddress(p) == Address(None, Text(p, DomainNameKey))
    ensures Text(p, DomainNameKey).None? ==>
      Header(rfc, HeaderAddress(p)) == (if rfc then OPEN_PREFIX else STREAM_OPEN) + VERSION + (if rfc then FRAMING_TAIL else LEGACY_TAIL)
  {
    AddressingRule(UserJid(p), Flag(p, SeeOtherHostKey), Text(p, DomainNameKey));
    assert AddressAttributes(Address(None, None)) == "";
  }

  /* ---------------------------------------------------------------------- */
  /* stop                                                                   */

  /** `stop` on a disconnected connector changes nothing. */
  lemma StopWhenDisconnected(c: WsConn, terminate: bool)
    requires GetState(c) == Some(Disconnected)
    ensures Stop(c, terminate) == WsStep(c, Normal)
  {
  }

  /** `stop` in any other stage: the disconnecting stage, no ping timer, the
      socket closed and Disconnected fired. `terminateStream` runs after the
      stage is already disconnecting, so no closing tag is ever sent. */
  lemma StopOutcome(c: WsConn, terminate: bool)
    requires GetState(c) != Some(Disconnected)
    ensures var c1 := SetStage(c, Disconnecting).(ping := NoPing);
      Stop(c, terminate) ==
        if c.socket.None? then WsStep(c1, Raised(NullReference))
        else WsStep(Fire(c1.(socket := Some(c.socket.value.(closed := true))), DisconnectedEvent), Normal)
  {
    SetStageStoresStage(c, Disconnecting);
  }

  /** `stop` never sends anything. */
  lemma StopSendsNothing(c: WsConn, terminate: bool)
    ensures Stop(c, terminate).conn.sent == c.sent
  {
    if GetState(c) != Some(Disconnected) {
      StopOutcome(c, terminate);
    }
  }

  /** `stop` fires Disconnected once, after the stage events, and leaves the
      connector disconnecting, not disconnected. */
  lemma StopFiresDisconnected(c: WsConn, terminate: bool)
    requires GetState(c) != Some(Disconnected) && c.socket.Some?
    ensures Stop(c, terminate).out == Normal
    ensures Stop(c, terminate).conn.events == c.events + StageEvents(GetState(c), Disconnecting) + [DisconnectedEvent]
    ensures GetState(Stop(c, terminate).conn) == Some(Disconnecting)
    ensures Stop(c, terminate).conn.socket == Some(c.socket.value.(closed := true))
  {
    StopOutcome(c, terminate);
    SetStageStoresStage(c, Disconnecting);
  }

  /** Since the stage stays disconnecting, a second `stop` fires Disconnected
      again (and no stage event). */
  lemma StopTwiceFiresDisconnectedTwice(c: WsConn)
    requires GetState(c) != Some(Disconnected) && c.socket.Some?
    ensures var r1 := Stop(c, false);
      Stop(r1.conn, false).out == Normal
      && Stop(r1.conn, false).conn.events == r1.conn.events + [DisconnectedEvent]
  {
    var r1 := Stop(c, false);
    StopFiresDisconnected(c, false);
    StopFiresDisconnected(r1.conn, false);
    StageEventsRule(Some(Disconnecting), Disconnecting);
  }

  /* ---------------------------------------------------------------------- */
  /* Errors                                                                 */

  /** `onError` always stops the connector and then fires an Error with the
      cause, also after a see-other-host (`handleSeeOtherHost` never reports
      the error as handled). */
  lemma OnErrorStopsAndFiresError(c: WsConn, response: Option<Element>, cause: Option<Fault>)
    requires GetState(c) != Some(Disconnected) && c.socket.Some?
    ensures var c1 := if response.Some? then HandleSeeOtherHost(c, response.value) else c;
      OnError(c, response, cause) ==
        WsStep(FireOnError(Stop(c1, false).conn, cause), Normal)
    ensures GetState(OnError(c, response, cause).conn) == Some(Disconnecting)
    ensures var es := OnError(c, response, cause).conn.events;
      |es| >= 2 && es[|es| - 2] == DisconnectedEvent && es[|es| - 1] == Error(None, cause)
  {
    var c1 := if response.Some? then HandleSeeOtherHost(c, response.value) else c;
    assert GetState(c1) == GetState(c) && c1.socket == c.socket;
    StopFiresDisconnected(c1, false);
  }

  /** A stream error with a see-other-host child fires SeeOtherHost with the
      host it names before anything else. */
  lemma SeeOtherHostFiresEvent(c: WsConn, e: Element)
    requires ChildNS(e, "see-other-host", NS_STREAM_ERRORS).Some?
    ensures var s := ChildNS(e, "see-other-host", NS_STREAM_ERRORS).value;
      |OnError(c, Some(e), None).conn.events| > |c.events|
      && OnError(c, Some(e), None).conn.events[..|c.events| + 1] == c.events + [SeeOtherHost(s.value)]
  {
    var c1 := HandleSeeOtherHost(c, e);
    StopEventsExtend(c1, false);
    var r := OnError(c, Some(e), None);
    assert r.conn.events[..|c.events| + 1] == c1.events[..|c.events| + 1];
  }

  /** `stop` only appends events. */
  lemma StopEventsExtend(c: WsConn, terminate: bool)
    ensures |Stop(c, terminate).conn.events| >= |c.events|
    ensures Stop(c, terminate).conn.events[..|c.events|] == c.events
  {
    if GetState(c) != Some(Disconnected) {
      StopOutcome(c, terminate);
    }
  }

  /* ---------------------------------------------------------------------- */
  /* Dispatch                                                               */

  /** `parsererror` children are skipped. */
  lemma ParserErrorSkipped(c: WsConn, rfc: bool, e: Element)
    requires e.name == "parsererror"
    ensures DispatchOne(c, rfc, e) == WsStep(c, Normal)
  {
  }

  /** In RFC mode a framed `<open/>` is ignored. */
  lemma FramedOpenIgnored(c: WsConn, e: Element)
    requires e.name == "open" && e.xmlns == Some(NS_FRAMING)
    ensures DispatchOne(c, true, e) == WsStep(c, Normal)
  {
  }

  /** A framed `<close/>` with a see-other-uri fires SeeOtherHost with that URI,
      stops, and fires an Error. */
  lemma FramedCloseWithUri(c: WsConn, e: Element)
    requires e.name == "close" && e.xmlns == Some(NS_FRAMING) && "see-other-uri" in e.attrs
    requires GetState(c) != Some(Disconnected) && c.socket.Some?
    ensures DispatchOne(c, true, e).out == Normal
    ensures DispatchOne(c, true, e).conn.events ==
      c.events + [SeeOtherHost(Some(e.attrs["see-other-uri"]))] + StageEvents(GetState(c), Disconnecting)
      + [DisconnectedEvent, Error(None, None)]
  {
    StopFiresDisconnected(Fire(c, SeeOtherHost(Some(e.attrs["see-other-uri"]))), false);
  }

  /** A framed `<close/>` without it stops the connector and is then delivered
      as a stanza. */
  lemma FramedCloseStops(c: WsConn, e: Element)
    requires e.name == "close" && e.xmlns == Some(NS_FRAMING) && "see-other-uri" !in e.attrs
    requires GetState(c) != Some(Disconnected) && c.socket.Some?
    ensures DispatchOne(c, true, e).out == Normal
    ensures DispatchOne(c, true, e).conn.events ==
      c.events + StageEvents(GetState(c), Disconnecting) + [DisconnectedEvent, StanzaReceived(e)]
  {
    StopFiresDisconnected(c, false);
  }

  /** A stream error goes to `onError` with the element. */
  lemma StreamErrorToOnError(c: WsConn, rfc: bool, e: Element)
    requires IsStreamError(e) && e.name != "parsererror"
    ensures DispatchOne(c, rfc, e) == OnError(c, Some(e), None)
  {
  }

  /** An element that is neither skipped, framing nor a stream error. */
  predicate PlainStanza(rfc: bool, e: Element)
  {
    e.name != "parsererror" && !IsStreamError(e) && !IsFraming(rfc, e, "close") && !IsFraming(rfc, e, "open")
  }

  /** Such an element produces exactly one StanzaReceived. */
  lemma PlainStanzaDelivered(c: WsConn, rfc: bool, e: Element)
    requires PlainStanza(rfc, e)
    ensures DispatchOne(c, rfc, e) == WsStep(Fire(c, StanzaReceived(e)), Normal)
  {
  }

  /** A frame of plain stanzas produces one StanzaReceived per stanza, in order,
      and nothing else. */
  lemma {:induction false} DispatchStanzas(c: WsConn, rfc: bool, es: seq<Element>)
    requires forall i :: 0 <= i < |es| ==> PlainStanza(rfc, es[i])
    ensures DispatchAll(c, rfc, es).out == Normal
    ensures DispatchAll(c, rfc, es).conn ==
      c.(events := c.events + seq(|es|, i requires 0 <= i < |es| => StanzaReceived(es[i])))
    decreases |es|
  {
    if es != [] {
      PlainStanzaDelivered(c, rfc, es[0]);
      var c1 := Fire(c, StanzaReceived(es[0]));
      DispatchStanzas(c1, rfc, es[1..]);
      var tail := seq(|es[1..]|, i requires 0 <= i < |es[1..]| => StanzaReceived(es[1..][i]));
      var all := seq(|es|, i requires 0 <= i < |es| => StanzaReceived(es[i]));
      assert all == [StanzaReceived(es[0])] + tail;
    }
  }

  /** The elements of `es` other than `parsererror`. */
  function WithoutParserErrors(es: seq<Element>): seq<Element>
  {
    if es == [] then []
    else (if es[0].name == "parsererror" then [] else [es[0]]) + WithoutParserErrors(es[1..])
  }

  /** Dispatching a frame is dispatching it with its `parsererror` children removed. */
  lemma {:induction false} ParserErrorsIgnored(c: WsConn, rfc: bool, es: seq<Element>)
    ensures DispatchAll(c, rfc, es) == DispatchAll(c, rfc, WithoutParserErrors(es))
    decreases |es|
  {
    if es != [] {
      var r := DispatchOne(c, rfc, es[0]);
      if es[0].name == "parsererror" {
        assert WithoutParserErrors(es) == WithoutParserErrors(es[1..]);
        assert DispatchAll(c, rfc, es) == DispatchAll(c, rfc, es[1..]);
        ParserErrorsIgnored(c, rfc, es[1..]);
      } else {
        var w := [es[0]] + WithoutParserErrors(es[1..]);
        assert w[0] == es[0] && w[1..] == WithoutParserErrors(es[1..]);
        if !r.out.Raised? {
          ParserErrorsIgnored(r.conn, rfc, es[1..]);
        }
      }
    }
  }

  /** A stream, `stream` or `root` wrapper delivers its children, anything else itself. */
  lemma ReceivedRule(root: Element)
    ensures Received(root) == (if root.name in {"stream:stream", "stream", "root"} then root.children else [root])
  {
  }

  /* ---------------------------------------------------------------------- */
  /* parseSocketData                                                        */

  /** A null frame is not guarded against: it throws at `trim()`. */
  lemma NullFrameRaises(c: WsConn, parse: string -> Option<Element>)
    ensures ParseSocketData(c, None, parse) == WsStep(c, Raised(NullReference))
  {
  }

  /** `trim()` empties a single character exactly when it is at most a space,
      and otherwise leaves it as it is. */
  lemma SingleCharacterTrim(s: string)
    requires |s| == 1
    ensures Trim(s) == [] <==> IsTrimmed(s[0])
    ensures !IsTrimmed(s[0]) ==> Trim(s) == s
  {
  }

  /** A one-character frame that trims to nothing (the peer's whitespace
      keepalive) does nothing. */
  lemma KeepaliveFrameIgnored(c: WsConn, x: string, parse: string -> Option<Element>)
    requires |x| == 1 && Trim(x) == []
    ensures ParseSocketData(c, Some(x), parse) == WsStep(c, Normal)
  {
    SingleCharacterTrim(x);
  }

  /** Any other frame is rewritten as the code does, parsed, and its elements
      dispatched in the framing mode in use. */
  lemma FrameDispatched(c: WsConn, x: string, parse: string -> Option<Element>)
    requires !(|x| == 1 && Trim(x) == [])
    requires RewriteAsWritten(x).Some? && parse(RewriteAsWritten(x).value).Some? && c.rfc.Some?
    ensures ParseSocketData(c, Some(x), parse) == DispatchAll(c, c.rfc.value, Received(parse(RewriteAsWritten(x).value).value))
  {
    if |x| == 1 {
      SingleCharacterTrim(x);
    }
  }

  /** A frame under the namespace rule without both a space and a `>` makes
      the rewrite throw StringIndexOutOfBoundsException, which is no
      JaxmppException: it escapes `onMessage` and nothing changes. */
  lemma RewriteFailureEscapes(c: WsConn, x: string, parse: string -> Option<Element>)
    requires !(|x| == 1 && Trim(x) == [])
    requires RuleFor(x) == DeclareNs && (' ' !in x || '>' !in x)
    ensures ParseSocketData(c, Some(x), parse) == WsStep(c, Raised(IndexOutOfRange))
    ensures OnMessage(c, Some(x), parse) == WsStep(c, Raised(IndexOutOfRange))
  {
    if |x| == 1 {
      SingleCharacterTrim(x);
    }
    InsertStreamNsAsWrittenFails(x);
  }

  /** In particular an empty `<stream:features/>` frame escapes `onMessage`,
      where the intended rewrite would hand the parser a well-formed element. */
  lemma EmptyFeaturesEscapes(c: WsConn, parse: string -> Option<Element>)
    ensures OnMessage(c, Some(EMPTY_FEATURES), parse) == WsStep(c, Raised(IndexOutOfRange))
  {
    EmptyFeaturesFrame();
    assert |EMPTY_FEATURES| != 1;
  }

  /* ---------------------------------------------------------------------- */
  /* Framing mode and lifecycle                                             */

  /** `start` takes the framing mode from FORCE_RFC_KEY (false when unset) only
      while it is undecided, moves to connecting and opens a socket for the
      service URL. */
  lemma StartRule(c: WsConn)
    ensures Start(c).rfc == (if c.rfc.Some? then c.rfc else Some(Flag(c.props, ForceRfcKey) == Some(true)))
    ensures GetState(Start(c)) == Some(Connecting)
    ensures Start(c).socket == Some(WsSocket(Text(c.props, ServiceUrlKey), false))
  {
  }

  /** `onOpen` with the framing subprotocol, or a mode already decided: the
      connected stage, the opening tag of that mode sent, the ping timer
      repeating every 175 seconds unless the keepalive is external, and
      Connected as the last event. */
  lemma OnOpenConnects(c: WsConn, protocol: Option<string>)
    requires c.rfc.Some? || protocol == Some("xmpp-framing")
    requires c.socket.Some?
    ensures var rfc := if protocol == Some("xmpp-framing") then true else c.rfc.value;
      var r := OnOpen(c, protocol);
      r.out == Normal
      && r.conn.rfc == Some(rfc)
      && GetState(r.conn) == Some(Connected)
      && r.conn.sent == c.sent + [OpenFrame(rfc, HeaderAddress(r.conn.props))]
      && r.conn.ping == (if Flag(c.props, ExternalKeepaliveKey) == Some(true) then PingIdle else PingEvery(175000))
      && r.conn.events[|r.conn.events| - 1] == ConnectedEvent
  {
    var c1 := if protocol == Some("xmpp-framing") then c.(rfc := Some(true)) else c;
    var c2 := SetStage(c1, Connected);
    SetStageStoresStage(c1, Connected);
    assert Flag(c2.props, ExternalKeepaliveKey) == Flag(c.props, ExternalKeepaliveKey);
    assert HeaderAddress(c2.props) == HeaderAddress(c.props);
  }

  /** The fallback of `onClose`: a legacy stream closed while connected and
      before any stream features switches to RFC framing and starts again. */
  predicate FallsBack(c: WsConn)
  {
    GetState(c) == Some(Connected) && c.rfc == Some(false) && Features(c.props).None?
  }

  lemma FallbackSwitchesToRfc(c: WsConn)
    requires FallsBack(c)
    ensures OnClose(c) == WsStep(Start(c.(ping := NoPing, rfc := Some(true))), Normal)
    ensures OnClose(c).conn.rfc == Some(true)
    ensures GetState(OnClose(c).conn) == Some(Connecting)
  {
  }

  /** Any other close: an Error when disconnecting was asked for, otherwise
      `stop(true)`. */
  lemma OtherCloses(c: WsConn)
    requires !FallsBack(c) && !(GetState(c) == Some(Connected) && c.rfc.None?)
    ensures GetState(c) == Some(Disconnecting) ==> OnClose(c) == WsStep(FireOnError(c.(ping := NoPing), None), Normal)
    ensures GetState(c) != Some(Disconnecting) ==> OnClose(c) == Guarded(Stop(c, true))
  {
  }

  /** Stopping keeps the framing mode. */
  lemma StopKeepsRfc(c: WsConn, terminate: bool)
    ensures Stop(c, terminate).conn.rfc == c.rfc
  {
    if GetState(c) != Some(Disconnected) {
      StopOutcome(c, terminate);
    }
  }

  lemma OnErrorKeepsRfc(c: WsConn, response: Option<Element>, cause: Option<Fault>)
    ensures OnError(c, response, cause).conn.rfc == c.rfc
  {
    var c1 := if response.Some? then HandleSeeOtherHost(c, response.value) else c;
    StopKeepsRfc(c1, false);
  }

  lemma DispatchOneKeepsRfc(c: WsConn, rfc: bool, e: Element)
    ensures DispatchOne(c, rfc, e).conn.rfc == c.rfc
  {
    if e.name != "parsererror" {
      if IsFraming(rfc, e, "close") && "see-other-uri" in e.attrs {
        StopKeepsRfc(Fire(c, SeeOtherHost(Some(e.attrs["see-other-uri"]))), false);
      } else if IsFraming(rfc, e, "close") {
        StopKeepsRfc(c, false);
        OnErrorKeepsRfc(Stop(c, false).conn, Some(e), None);
      } else {
        OnErrorKeepsRfc(c, Some(e), None);
      }
    }
  }

  lemma {:induction false} DispatchKeepsRfc(c: WsConn, rfc: bool, es: seq<Element>)
    ensures DispatchAll(c, rfc, es).conn.rfc == c.rfc
    decreases |es|
  {
    if es != [] {
      var r := DispatchOne(c, rfc, es[0]);
      DispatchOneKeepsRfc(c, rfc, es[0]);
      if !r.out.Raised? {
        DispatchKeepsRfc(r.conn, rfc, es[1..]);
      }
    }
  }

  /** Once RFC framing is on, nothing turns it off; so the fallback, which
      needs it off, happens at most once per connector. */
  lemma RfcModeIsSticky(c: WsConn, protocol: Option<string>, x: Option<string>, parse: string -> Option<Element>, t: bool)
    requires c.rfc == Some(true)
    ensures Start(c).rfc == Some(true)
    ensures OnOpen(c, protocol).conn.rfc == Some(true)
    ensures OnClose(c).conn.rfc == Some(true)
    ensures OnMessage(c, x, parse).conn.rfc == Some(true)
    ensures Stop(c, t).conn.rfc == Some(true)
    ensures !FallsBack(OnClose(c).conn)
  {
    StopKeepsRfc(c, t);
    StopKeepsRfc(c, true);
    if Stop(c, true).out.Raised? {
      OnErrorKeepsRfc(Stop(c, true).conn, None, Some(Stop(c, true).out.fault));
    }
    OpenKeepsRfc(c, protocol);
    MessageKeepsRfc(c, x, parse);
  }

  lemma OpenKeepsRfc(c: WsConn, protocol: Option<string>)
    requires c.rfc == Some(true)
    ensures OnOpen(c, protocol).conn.rfc == Some(true)
  {
    var c2 := SetStage(c, Connected);
    var r := RestartStream(c2);
    if r.out.Raised? {
      OnErrorKeepsRfc(r.conn, None, Some(r.out.fault));
    }
  }

  lemma MessageKeepsRfc(c: WsConn, x: Option<string>, parse: string -> Option<Element>)
    ensures OnMessage(c, x, parse).conn.rfc == c.rfc
  {
    var r := ParseSocketData(c, x, parse);
    if x.Some? && c.rfc.Some? && RewriteAsWritten(x.value).Some? && parse(RewriteAsWritten(x.value).value).Some? {
      DispatchKeepsRfc(c, c.rfc.value, Received(parse(RewriteAsWritten(x.value).value).value));
    }
    if r.out.Raised? {
      OnErrorKeepsRfc(r.conn, None, Some(r.out.fault));
    }
  }

  /** After the fallback the connector never falls back again. */
  lemma FallbackAtMostOnce(c: WsConn)
    requires FallsBack(c)
    ensures OnClose(c).conn.rfc == Some(true)
    ensures !FallsBack(OnClose(c).conn)
  {
  }

  /** A socket error cancels the ping and fires an Error, nothing more. */
  lemma SocketErrorFiresError(c: WsConn)
    ensures OnSocketError(c) == c.(ping := NoPing, events := c.events + [Error(None, None)])
  {
  }
}
