/** What the TCP connector promises, stated over the functions of SocketSpec. */
module SocketProperties {
  import opened Common
  import opened Xml
  import opened Session
  import opened SocketSpec

  /** `setStage` always stores the new stage; it fires StateChanged (and
      StreamTerminated for disconnected) only when the stage changes; it touches
      nothing but the stage entry and the event log; without a context it does
      nothing. */
  lemma SetStageStoresStage(c: Conn, s: State)
    ensures var r := SetStage(c, s);
      if c.hasContext then
        GetState(r) == s
        && r.events == c.events + StageEvents(Stage(c.props), s)
        && (forall k :: k != StageKey ==> (k in r.props <==> k in c.props) && (k in r.props ==> r.props[k] == c.props[k]))
        && r.(props := c.props, events := c.events) == c
      else r == c
  {
  }

  /** Setting the same stage twice fires nothing the second time. */
  lemma SetStageIdempotent(c: Conn, s: State)
    ensures SetStage(SetStage(c, s), s) == SetStage(c, s)
  {
    if c.hasContext {
      var r := SetStage(c, s);
      assert Stage(r.props) == Some(s);
      assert Put(r.props, StreamScope, StageKey, VState(s)) == r.props;
    }
  }

  /** The whitespace keepalive writes exactly the single byte 32, and only when
      keepalive is not disabled, the stage is connected and there is a writer;
      a write that throws is passed on and leaves everything as it was. */
  lemma KeepaliveWritesSpaceOnlyWhenConnected(c: Conn)
    ensures Render(Whitespace) == [32 as char]
    ensures var r := Keepalive(c);
      if !c.hasContext then r == Step(c, Raised(NullReference))
      else
        var writes := Flag(c.props, DisableKeepaliveKey) != Some(true) && GetState(c) == Connected && c.writer.Some?;
        r.conn.(sent := c.sent) == c
        && (writes && WriteFails(c) ==> r == Step(c, Raised(SendFailed)))
        && (writes && !WriteFails(c) ==> r.out == Normal && r.conn.sent == c.sent + [Chunk(c.writer.value, Whitespace)])
        && (!writes ==> r == Step(c, Normal))
  {
  }

  /** The default ping period is five seconds below the plain socket timeout;
      an explicit KEEP_ALIVE_DELAY_KEY wins; a negative value means no ping. */
  lemma PingDelayRule(p: Props)
    ensures Number(p, KeepAliveDelayKey).Some? ==>
      PingDelay(p) == (if Number(p, KeepAliveDelayKey).value < 0 then None else Some(Number(p, KeepAliveDelayKey).value))
    ensures Number(p, KeepAliveDelayKey).None? ==>
      (PingDelay(p).Some? <==> Number(p, PlainSocketTimeoutKey).Some? && Number(p, PlainSocketTimeoutKey).value >= PING_MARGIN)
    ensures Number(p, KeepAliveDelayKey).None? && PingDelay(p).Some? ==>
      PingDelay(p).value == Number(p, PlainSocketTimeoutKey).value - PING_MARGIN
  {
  }

  /** With the default socket timeout of 0 no ping is scheduled unless
      KEEP_ALIVE_DELAY_KEY is set to a value that is not negative. */
  lemma DefaultTimeoutMeansNoPing(p: Props)
    requires Number(p, PlainSocketTimeoutKey).None?
    ensures PingDelay(p).Some? <==> Number(p, KeepAliveDelayKey).Some? && Number(p, KeepAliveDelayKey).value >= 0
  {
  }

  /** A pinned SERVER_HOST is the only candidate host. */
  lemma PinnedHostIsOnlyCandidate(p: Props, env: Env)
    requires Text(p, ServerHostKey).Some?
    ensures Candidates(p, env) ==
      [HostEntry(Text(p, ServerHostKey).value, if Number(p, ServerPortKey).Some? then Number(p, ServerPortKey).value else DEFAULT_PORT)]
  {
  }

  /** The properties `start` writes before its host loop. */
  predicate WrittenByPrepare(k: Key)
  {
    k == StageKey || k == HostnameVerifierKey || k == DisableKeepaliveKey
  }

  /** What `start` does before the host loop: connecting stage, fresh timer,
      and every setting it does not write left alone. */
  lemma PrepareFacts(c: Conn)
    requires c.hasContext
    ensures var r := Prepare(c);
      r.hasContext && r.timer && GetState(r) == Connecting
      && (forall j :: !WrittenByPrepare(j) ==> Get(r.props, j) == Get(c.props, j))
      && r.events == c.events + StageEvents(Stage(c.props), Connecting)
      && r.socket == c.socket && r.sent == c.sent && r.writer == c.writer
  {
  }

  /** A setting `start` does not write reads the same after its preparation. */
  lemma PrepareKeepsKey(c: Conn, k: Key)
    requires c.hasContext && !WrittenByPrepare(k)
    ensures Get(Prepare(c).props, k) == Get(c.props, k)
  {
    var p0 := SetupVerifier(c.props);
    assert Get(p0, k) == Get(c.props, k);
  }

  /** The ping period depends on KEEP_ALIVE_DELAY_KEY and the plain socket
      timeout alone. */
  lemma PingDelayReadsTwoKeys(p: Props, q: Props)
    requires Get(p, KeepAliveDelayKey) == Get(q, KeepAliveDelayKey)
    requires Get(p, PlainSocketTimeoutKey) == Get(q, PlainSocketTimeoutKey)
    ensures PingDelay(p) == PingDelay(q)
  {
    assert Number(p, PlainSocketTimeoutKey) == Number(q, PlainSocketTimeoutKey);
    assert Number(p, KeepAliveDelayKey) == Number(q, KeepAliveDelayKey);
  }

  /** The host loop sees the same candidates as the caller configured. */
  lemma PrepareKeepsCandidates(c: Conn, env: Env)
    requires c.hasContext
    ensures Candidates(Prepare(c).props, env) == Candidates(c.props, env)
  {
    var p := Prepare(c).props;
    PrepareKeepsKey(c, ServerHostKey);
    PrepareKeepsKey(c, ServerPortKey);
    PrepareKeepsKey(c, DomainNameKey);
    assert Text(p, ServerHostKey) == Text(c.props, ServerHostKey);
    assert Number(p, ServerPortKey) == Number(c.props, ServerPortKey);
    assert HostFromSession(p) == HostFromSession(c.props);
    assert Text(p, DomainNameKey) == Text(c.props, DomainNameKey);
  }

  /** The keepalive and socket settings `start` reads after the host loop are
      the caller's. */
  lemma PrepareKeepsKeepalive(c: Conn)
    requires c.hasContext
    ensures PingDelay(Prepare(c).props) == PingDelay(c.props)
    ensures Flag(Prepare(c).props, UsePlainSslKey) == Flag(c.props, UsePlainSslKey)
    ensures Flag(Prepare(c).props, ExternalKeepaliveKey) == Flag(c.props, ExternalKeepaliveKey)
  {
    PrepareKeepsKey(c, KeepAliveDelayKey);
    PrepareKeepsKey(c, PlainSocketTimeoutKey);
    PingDelayReadsTwoKeys(Prepare(c).props, c.props);
    PrepareKeepsKey(c, UsePlainSslKey);
    PrepareKeepsKey(c, ExternalKeepaliveKey);
  }

  /** A start whose host loop reaches `h` opens the stream on that host. */
  lemma StartReached(c: Conn, env: Env, h: HostEntry)
    requires c.hasContext
    requires FirstReachable(Candidates(c.props, env), env.connect) == Reached(h)
    ensures Start(c, env) == Open(Attach(Prepare(c), FreshSocket(h)), env.tls)
    ensures PingDelay(Attach(Prepare(c), FreshSocket(h)).props) == PingDelay(c.props)
    ensures Flag(Attach(Prepare(c), FreshSocket(h)).props, UsePlainSslKey) == Flag(c.props, UsePlainSslKey)
    ensures Flag(Attach(Prepare(c), FreshSocket(h)).props, ExternalKeepaliveKey) == Flag(c.props, ExternalKeepaliveKey)
    ensures Attach(Prepare(c), FreshSocket(h)).hasContext && Attach(Prepare(c), FreshSocket(h)).timer
    ensures !WriteRaises(Attach(Prepare(c), FreshSocket(h)))
  {
    PrepareKeepsCandidates(c, env);
    PrepareKeepsKeepalive(c);
    PrepareFacts(c);
  }

  /** The connector a plain `start` schedules the ping on: the header
      written, the stage connected, the ping idle. */
  function Restarted(c: Conn): Conn
  {
    SetStage(RestartStream(c).conn, Connected).(ping := PingIdle)
  }

  /** The restarted connector keeps the socket, the timer and the keepalive
      settings of the input, and is in the connected stage. */
  lemma RestartedKeeps(c: Conn)
    requires c.hasContext
    ensures Restarted(c).socket == c.socket && Restarted(c).timer == c.timer && Restarted(c).hasContext
    ensures GetState(Restarted(c)) == Connected
    ensures PingDelay(Restarted(c).props) == PingDelay(c.props)
    ensures Flag(Restarted(c).props, ExternalKeepaliveKey) == Flag(c.props, ExternalKeepaliveKey)
  {
    RestartKeepsProps(c);
    var p := Put(c.props, StreamScope, StageKey, VState(Connected));
    assert Restarted(c).props == p;
    assert Stage(p) == Some(Connected);
    assert Get(p, KeepAliveDelayKey) == Get(c.props, KeepAliveDelayKey);
    assert Get(p, PlainSocketTimeoutKey) == Get(c.props, PlainSocketTimeoutKey);
    assert Get(p, ExternalKeepaliveKey) == Get(c.props, ExternalKeepaliveKey);
    PingDelayReadsTwoKeys(p, c.props);
  }

  /** Restarting the stream changes no setting and keeps the socket, the
      timer and the context. */
  lemma RestartKeepsProps(c: Conn)
    requires c.hasContext
    ensures var r := RestartStream(c).conn;
      r.props == c.props && r.socket == c.socket && r.timer == c.timer && r.hasContext
  {
  }

  /** Opening a plain stream writes the header and then schedules the ping on
      the restarted connector; a header that cannot be written makes `start`
      fail. */
  lemma OpenPlainSteps(c: Conn, tls: TlsOutcome)
    requires c.hasContext && Flag(c.props, UsePlainSslKey) != Some(true)
    ensures WriteRaises(c) ==> Open(c, tls) == StartFailure(c, SendFailed)
    ensures !WriteRaises(c) ==> Open(c, tls) == SchedulePing(Restarted(c))
  {
  }

  /** `start` once a plain socket is open: the stream header is written, the
      stage becomes connected, and the ping is scheduled by the ping-delay rule
      unless keepalive is external; a period of exactly 0 is refused by
      `Timer.schedule` and makes `start` fail, and so does a header that
      cannot be written. */
  lemma OpenPlain(c: Conn, tls: TlsOutcome)
    requires c.hasContext && c.timer && Flag(c.props, UsePlainSslKey) != Some(true)
    ensures WriteRaises(c) ==> Open(c, tls) == StartFailure(c, SendFailed)
    ensures !WriteRaises(c) ==> var c1 := Restarted(c);
      var d := PingDelay(c.props);
      Open(c, tls) ==
        if Flag(c.props, ExternalKeepaliveKey) == Some(true) || d.None? then Step(FireOnConnected(c1), Normal)
        else if d.value == 0 then StartFailure(c1, NonPositivePeriod)
        else Step(FireOnConnected(c1.(ping := PingEvery(d.value))), Normal)
  {
    OpenPlainSteps(c, tls);
    RestartedKeeps(c);
  }

  /** With the intended check, when every candidate fails with no-route or
      unknown-host, `start` fails with "Cannot create socket." and tears down:
      no ping, no timer. */
  lemma StartFailsWhenNoHostReachable(c: Conn, env: Env)
    requires c.hasContext
    requires forall i :: 0 <= i < |Candidates(c.props, env)| ==> Skippable(env.connect(Candidates(c.props, env)[i]))
    ensures StartIntended(c, env) == StartFailure(Prepare(c), CannotCreateSocket)
    ensures StartIntended(c, env).out == Raised(StartFailed(CannotCreateSocket))
    ensures StartIntended(c, env).conn.ping == NoPing && !StartIntended(c, env).conn.timer
  {
    PrepareKeepsCandidates(c, env);
  }

  /** The code's `start` when every candidate is skipped: it fails with
      "Cannot create socket." only when the field holds no socket; a closed
      socket left there fails on its streams, and an open one is used to
      open the stream. */
  lemma StartWhenNoHostReachable(c: Conn, env: Env)
    requires c.hasContext
    requires forall i :: 0 <= i < |Candidates(c.props, env)| ==> Skippable(env.connect(Candidates(c.props, env)[i]))
    ensures c.socket.None? ==> Start(c, env) == StartIntended(c, env)
    ensures c.socket.Some? && c.socket.value.closed ==> Start(c, env) == StartFailure(Prepare(c), SocketClosed)
    ensures c.socket.Some? && !c.socket.value.closed ==> Start(c, env) == Open(Attach(Prepare(c), c.socket.value), env.tls)
  {
    PrepareKeepsCandidates(c, env);
    PrepareFacts(c);
  }

  /** `start` connects to the first candidate that is not skipped, and every
      candidate before it failed with no-route or unknown-host. */
  lemma StartUsesFirstReachableHost(c: Conn, env: Env, h: HostEntry)
    requires c.hasContext && Flag(c.props, UsePlainSslKey) != Some(true)
    requires FirstReachable(Candidates(c.props, env), env.connect) == Reached(h)
    ensures Start(c, env).conn.socket == Some(FreshSocket(h))
  {
    StartReached(c, env, h);
    OpenKeepsSocket(Attach(Prepare(c), FreshSocket(h)), env.tls);
  }

  /** Opening the stream, whether it ends connected or fails, keeps the socket
      the host loop produced. */
  lemma OpenKeepsSocket(c: Conn, tls: TlsOutcome)
    requires c.hasContext && Flag(c.props, UsePlainSslKey) != Some(true)
    ensures Open(c, tls).conn.socket == c.socket
  {
    OpenPlainSteps(c, tls);
    RestartKeepsProps(c);
    assert Restarted(c).socket == c.socket;
    SchedulePingKeepsSocket(Restarted(c));
  }

  /** Scheduling the ping, or failing to, leaves the socket alone. */
  lemma SchedulePingKeepsSocket(c: Conn)
    ensures SchedulePing(c).conn.socket == c.socket
  {
  }

  /** A ping period of exactly 0 makes `start` fail: `Timer.schedule` refuses a
      period that is not positive, and the connection is torn down. */
  lemma ZeroPingDelayFailsStart(c: Conn, env: Env, h: HostEntry)
    requires c.hasContext && Flag(c.props, UsePlainSslKey) != Some(true)
    requires Flag(c.props, ExternalKeepaliveKey) != Some(true)
    requires Number(c.props, KeepAliveDelayKey) == Some(0)
    requires FirstReachable(Candidates(c.props, env), env.connect) == Reached(h)
    ensures Start(c, env).out == Raised(StartFailed(NonPositivePeriod))
    ensures Start(c, env).conn.ping == NoPing
  {
    StartReached(c, env, h);
    OpenPlain(Attach(Prepare(c), FreshSocket(h)), env.tls);
  }

  /** With the default socket timeout and no KEEP_ALIVE_DELAY_KEY, a start that
      reaches a host succeeds without scheduling a ping. */
  lemma DefaultStartSchedulesNoPing(c: Conn, env: Env, h: HostEntry)
    requires c.hasContext && Flag(c.props, UsePlainSslKey) != Some(true)
    requires Number(c.props, KeepAliveDelayKey).None? && Number(c.props, PlainSocketTimeoutKey).None?
    requires FirstReachable(Candidates(c.props, env), env.connect) == Reached(h)
    ensures Start(c, env).out == Normal
    ensures Start(c, env).conn.ping == PingIdle
  {
    StartReached(c, env, h);
    OpenPlain(Attach(Prepare(c), FreshSocket(h)), env.tls);
    assert PingDelay(c.props).None?;
  }

  /** Opening a plain stream with no ping to schedule ends connected, with
      Connected as the last event, unless the header cannot be written. */
  lemma OpenWithoutPingConnects(c: Conn, tls: TlsOutcome)
    requires c.hasContext && Flag(c.props, UsePlainSslKey) != Some(true) && PingDelay(c.props).None?
    ensures WriteRaises(c) ==> Open(c, tls) == StartFailure(c, SendFailed)
    ensures !WriteRaises(c) ==> GetState(Open(c, tls).conn) == Connected
    ensures !WriteRaises(c) ==> EndsWith(Open(c, tls).conn.events, [ConnectedEvent])
  {
    OpenPlainSteps(c, tls);
    RestartedKeeps(c);
    if !WriteRaises(c) {
      assert Open(c, tls).conn == Fire(Restarted(c), ConnectedEvent);
    }
  }

  /** Such a start ends in the connected stage, Connected being the last event. */
  lemma DefaultStartEndsConnected(c: Conn, env: Env, h: HostEntry)
    requires c.hasContext && Flag(c.props, UsePlainSslKey) != Some(true)
    requires Number(c.props, KeepAliveDelayKey).None? && Number(c.props, PlainSocketTimeoutKey).None?
    requires FirstReachable(Candidates(c.props, env), env.connect) == Reached(h)
    ensures GetState(Start(c, env).conn) == Connected
    ensures EndsWith(Start(c, env).conn.events, [ConnectedEvent])
  {
    StartReached(c, env, h);
    assert PingDelay(c.props).None?;
    OpenWithoutPingConnects(Attach(Prepare(c), FreshSocket(h)), env.tls);
  }

  /** `stop` from any live stage moves to disconnecting, writes the closing tag
      through the current writer, cancels the ping and the timer; the stage
      reaches disconnected at once when there is no socket to close, or when
      the closing tag cannot be written (the catch branch of `stop`). */
  lemma StopClosesStream(c: Conn)
    requires GetState(c) != Disconnected
    ensures var r := Stop(c);
      r.sent == c.sent + (if c.writer.Some? && !WriteFails(c) then [Chunk(c.writer.value, CloseStream)] else [])
      && r.ping == NoPing && !r.timer
      && (c.socket.Some? ==> r.closePending)
      && (c.socket.Some? && !WriteRaises(c) ==>
            GetState(r) == Disconnecting && r.events == c.events + StageEvents(Stage(c.props), Disconnecting))
      && (c.socket.None? || WriteRaises(c) ==>
            GetState(r) == Disconnected
            && r.events == c.events + StageEvents(Stage(c.props), Disconnecting)
                           + [StateChanged(Some(Disconnecting), Disconnected), StreamTerminated])
  {
    if WriteRaises(c) {
      StopWriteFails(c);
    } else {
      StopWrites(c);
    }
  }

  /** `stop` when the closing tag is written (or there is no writer). */
  lemma StopWrites(c: Conn)
    requires GetState(c) != Disconnected && !WriteRaises(c)
    ensures var r := Stop(c);
      r.sent == c.sent + (if c.writer.Some? then [Chunk(c.writer.value, CloseStream)] else [])
      && r.ping == NoPing && !r.timer
      && (c.socket.Some? ==> r.closePending && GetState(r) == Disconnecting
                             && r.events == c.events + StageEvents(Stage(c.props), Disconnecting))
      && (c.socket.None? ==> GetState(r) == Disconnected
                             && r.events == c.events + StageEvents(Stage(c.props), Disconnecting)
                                            + [StateChanged(Some(Disconnecting), Disconnected), StreamTerminated])
  {
    var c1 := SetStage(c, Disconnecting);
    assert TerminateStream(c1) == Write(c1, CloseStream);
  }

  /** `stop` when writing the closing tag throws: the catch branch sets
      disconnected, then the teardown runs. */
  lemma StopWriteFails(c: Conn)
    requires GetState(c) != Disconnected && WriteRaises(c)
    ensures var r := Stop(c);
      r.sent == c.sent && r.ping == NoPing && !r.timer && r.closePending
      && GetState(r) == Disconnected
      && r.events == c.events + StageEvents(Stage(c.props), Disconnecting)
                     + [StateChanged(Some(Disconnecting), Disconnected), StreamTerminated]
  {
    var c1 := SetStage(c, Disconnecting);
    assert TerminateStream(c1) == Step(c1, Raised(SendFailed));
  }

  /** `stop` on a disconnected connector changes nothing. */
  lemma StopWhenDisconnected(c: Conn)
    requires GetState(c) == Disconnected
    ensures Stop(c) == c
  {
  }

  /** `stop(true)` cancels the ping, closes the socket (so every later write
      throws), sets disconnected and drops the context; without a socket it
      throws after the stage is set. Nothing is written. */
  lemma StopNowRule(c: Conn)
    ensures var r := StopNow(c);
      r.conn.ping == NoPing && !r.conn.hasContext && r.conn.sent == c.sent
      && (r.out == Normal <==> c.socket.Some?)
      && (c.socket.None? ==> r.out == Raised(NullReference) && r.conn.socket.None?)
      && (c.socket.Some? ==> r.conn.socket == Some(c.socket.value.(closed := true)) && WriteFails(r.conn))
      && (c.hasContext ==> r.conn.events == c.events + StageEvents(Stage(c.props), Disconnected))
      && (!c.hasContext ==> r.conn.events == c.events)
  {
    SetStageStoresStage(c.(ping := NoPing), Disconnected);
    if c.socket.Some? {
      SetStageStoresStage(c.(ping := NoPing, socket := Some(c.socket.value.(closed := true))), Disconnected);
    }
  }

  /** The close timer scheduled by the teardown sets disconnected, drops the
      context, closes the socket and clears the pending timer; it writes
      nothing and throws only when the socket is already gone. */
  lemma CloseTimerElapsedRule(c: Conn)
    ensures var r := CloseTimerElapsed(c);
      !r.conn.hasContext && r.conn.sent == c.sent && r.conn.ping == c.ping
      && (r.out == Normal <==> c.socket.Some?)
      && (c.socket.None? ==> r.out == Raised(NullReference))
      && (c.socket.Some? ==> r.conn.socket == Some(c.socket.value.(closed := true)) && !r.conn.closePending && WriteFails(r.conn))
      && (c.hasContext ==> r.conn.events == c.events + StageEvents(Stage(c.props), Disconnected))
  {
    SetStageStoresStage(c, Disconnected);
  }

  /** `onErrorInThread(e)`: on a disconnected connector nothing changes;
      otherwise the connection is torn down (ping cancelled, timer dropped, a
      close pending on a socket, disconnected without one) and an Error
      carrying the fault is the last event. Nothing is written. */
  lemma OnErrorInThreadRule(c: Conn, f: Fault)
    ensures GetState(c) == Disconnected ==> OnErrorInThread(c, f) == Step(c, Normal)
    ensures GetState(c) != Disconnected ==> var r := OnErrorInThread(c, f);
      r == OnFault(c, f)
      && r.out == Normal && r.conn.ping == NoPing && !r.conn.timer && r.conn.sent == c.sent
      && EndsWith(r.conn.events, [Error(None, Some(f))])
      && (c.socket.Some? ==> r.conn.closePending && r.conn.socket == c.socket)
      && (c.socket.None? ==> GetState(r.conn) == Disconnected)
  {
    if GetState(c) != Disconnected && c.socket.None? {
      SetStageStoresStage(c.(ping := NoPing), Disconnected);
    }
  }

  /** The routing of incoming elements: the TLS namespace to the STARTTLS
      handler, the compression namespace to the zlib handler, a stream error
      to the error handler, and every other element to exactly one
      StanzaReceived event. */
  lemma ProcessElementRouting(c: Conn, e: Element, tls: TlsOutcome)
    ensures e.xmlns == Some(NS_TLS) ==>
      ProcessElement(c, e, tls) == (if e.name == "proceed" then ProceedTls(c, tls) else Step(c, Normal))
    ensures e.xmlns == Some(NS_COMPRESS) ==>
      ProcessElement(c, e, tls) == (if e.name == "compressed" then ProceedZlib(c) else Step(c, Normal))
    ensures e.xmlns != Some(NS_TLS) && e.xmlns != Some(NS_COMPRESS) && IsStreamError(e) ==>
      ProcessElement(c, e, tls) == OnError(c, Some(e), None)
    ensures e.xmlns != Some(NS_TLS) && e.xmlns != Some(NS_COMPRESS) && !IsStreamError(e) && c.hasContext ==>
      ProcessElement(c, e, tls) == Step(c.(events := c.events + [StanzaReceived(e)]), Normal)
  {
  }

  /** A stream error without see-other-host tears the connection down and fires
      one Error event carrying the error's condition. */
  lemma StreamErrorFiresError(c: Conn, e: Element)
    requires c.hasContext && IsStreamError(e) && SeeOtherHostOf(e).None?
    ensures var r := OnResponse(c, e);
      r.out == Normal && r.conn.ping == NoPing && !r.conn.timer
      && r.conn.events[|r.conn.events| - 1] == Error(ErrorCondition(Some(e)), None)
  {
  }

  /** No event in `es` is an Error. */
  predicate NoErrorIn(es: seq<Event>)
  {
    forall i :: 0 <= i < |es| ==> !es[i].Error?
  }

  /** The properties `reconnect` works on: those of the torn-down connector,
      RECONNECTING already set. */
  function BeforeReconnect(c: Conn): Props
  {
    TerminateAllWorkers(SetFlag(c, SessionScope, ReconnectingKey, true)).props
  }

  /** Only the stage entry can differ between the caller's properties and
      those `reconnect` works on. */
  lemma BeforeReconnectProps(c: Conn)
    ensures forall j :: j != StageKey && j != ReconnectingKey ==> Get(BeforeReconnect(c), j) == Get(c.props, j)
  {
    var c0 := SetFlag(c, SessionScope, ReconnectingKey, true);
    assert forall j :: j != ReconnectingKey ==> Get(c0.props, j) == Get(c.props, j);
    var c1 := TerminateAllWorkers(c0);
    assert forall j :: j != StageKey ==> Get(c1.props, j) == Get(c0.props, j);
  }

  /** `reconnect` keeps the context and the socket (the close timer closes it),
      drops the worker, reader, writer and ping, and fires only what the
      teardown fires: nothing while a socket is open. */
  lemma ReconnectTearsDown(c: Conn, h: Option<string>)
    requires c.hasContext
    ensures var r := Reconnect(c, h);
      r.out == Normal && r.conn.hasContext && r.conn.socket == c.socket
      && !r.conn.worker && r.conn.reader.None? && r.conn.writer.None? && r.conn.ping == NoPing
  {
  }

  lemma ReconnectEvents(c: Conn, h: Option<string>)
    requires c.hasContext
    ensures Reconnect(c, h).conn.events == c.events + (if c.socket.Some? then [] else StageEvents(Stage(c.props), Disconnected))
  {
    var c0 := SetFlag(c, SessionScope, ReconnectingKey, true);
    assert Stage(c0.props) == Stage(c.props) by {
      assert Get(c0.props, StageKey) == Get(c.props, StageKey);
    }
  }

  /** After `reconnect`, RECONNECTING is true and SERVER_HOST is the new host,
      both in the session scope. */
  lemma ReconnectPinsHost(c: Conn, h: Option<string>)
    requires c.hasContext
    ensures var p := Reconnect(c, h).conn.props;
      Get(p, ReconnectingKey) == Some(Entry(SessionScope, VBool(true)))
      && Get(p, ServerHostKey) == (if h.Some? then Some(Entry(SessionScope, VText(h.value))) else None)
  {
  }

  /** After `reconnect` no property is stream-scoped. */
  lemma ReconnectClearsStreamScope(c: Conn, h: Option<string>)
    requires c.hasContext
    ensures forall j :: Get(Reconnect(c, h).conn.props, j).Some? ==> Get(Reconnect(c, h).conn.props, j).value.scope != StreamScope
  {
    var p := ClearScope(BeforeReconnect(c), StreamScope);
    StoreRule(p, SessionScope, ServerHostKey, TextValue(h));
    var q := Store(p, SessionScope, ServerHostKey, TextValue(h));
    StoreRule(q, SessionScope, ReconnectingKey, Some(VBool(true)));
    assert Reconnect(c, h).conn.props == Store(q, SessionScope, ReconnectingKey, Some(VBool(true)));
  }

  /** Every other setting is what it was, unless it was stream-scoped. */
  lemma ReconnectKeepsSessionSettings(c: Conn, h: Option<string>)
    requires c.hasContext
    ensures forall j :: j != ReconnectingKey && j != ServerHostKey && j != StageKey ==>
      Get(Reconnect(c, h).conn.props, j) == Get(ClearScope(c.props, StreamScope), j)
  {
    BeforeReconnectProps(c);
    var p := ClearScope(BeforeReconnect(c), StreamScope);
    StoreRule(p, SessionScope, ServerHostKey, TextValue(h));
    var q := Store(p, SessionScope, ServerHostKey, TextValue(h));
    StoreRule(q, SessionScope, ReconnectingKey, Some(VBool(true)));
    assert Reconnect(c, h).conn.props == Store(q, SessionScope, ReconnectingKey, Some(VBool(true)));
  }

  /** A see-other-host stream error is handled by `reconnect` with the new host. */
  lemma SeeOtherHostRouting(c: Conn, e: Element, tls: TlsOutcome)
    requires IsStreamError(e) && SeeOtherHostOf(e).Some?
    ensures ProcessElement(c, e, tls) == Reconnect(c, SeeOtherHostOf(e).value.value)
  {
  }

  /** A see-other-host stream error sets RECONNECTING, drops every
      stream-scoped property, pins SERVER_HOST to the new host and drops the
      worker, reader and writer, keeping the socket for the close timer. */
  lemma SeeOtherHostReconnects(c: Conn, e: Element, tls: TlsOutcome)
    requires c.hasContext && IsStreamError(e) && SeeOtherHostOf(e).Some?
    ensures var r := ProcessElement(c, e, tls);
      r.out == Normal
      && Flag(r.conn.props, ReconnectingKey) == Some(true)
      && (forall k :: Get(r.conn.props, k).Some? ==> Get(r.conn.props, k).value.scope != StreamScope)
      && Text(r.conn.props, ServerHostKey) == SeeOtherHostOf(e).value.value
      && !r.conn.worker && r.conn.reader.None? && r.conn.writer.None?
      && r.conn.socket == c.socket
  {
    var h := SeeOtherHostOf(e).value.value;
    SeeOtherHostRouting(c, e, tls);
    ReconnectTearsDown(c, h);
    ReconnectPinsHost(c, h);
    ReconnectClearsStreamScope(c, h);
  }

  /** Unlike every other stream error, a see-other-host fires no Error event. */
  lemma SeeOtherHostFiresNoError(c: Conn, e: Element, tls: TlsOutcome)
    requires c.hasContext && IsStreamError(e) && SeeOtherHostOf(e).Some?
    ensures var r := ProcessElement(c, e, tls);
      StartsWith(r.conn.events, c.events) && NoErrorIn(r.conn.events[|c.events|..])
  {
    var h := SeeOtherHostOf(e).value.value;
    SeeOtherHostRouting(c, e, tls);
    ReconnectEvents(c, h);
    var r := Reconnect(c, h).conn;
    assert r.events[|c.events|..] == (if c.socket.Some? then [] else StageEvents(Stage(c.props), Disconnected));
  }

  /** What `workerTerminated` does: with RECONNECTING set it clears the flag,
      fires HostChanged and starts again; otherwise it fires Disconnected. */
  lemma WorkerTerminatedRestartsOnlyWhenReconnecting(c: Conn, env: Env)
    requires c.hasContext
    ensures var c1 := SetStage(c.(closePending := false), Disconnected);
      if Flag(c.props, ReconnectingKey) == Some(true) then
        WorkerTerminated(c, env) == Start(Restarting(c1), env).conn
        && Get(Restarting(c1).props, ReconnectingKey).None?
        && Restarting(c1).events == c1.events + [HostChanged]
      else
        WorkerTerminated(c, env) == c1.(events := c1.events + [DisconnectedEvent])
  {
    var c1 := SetStage(c.(closePending := false), Disconnected);
    assert Flag(c1.props, ReconnectingKey) == Flag(c.props, ReconnectingKey) by {
      assert Get(c1.props, ReconnectingKey) == Get(c.props, ReconnectingKey);
    }
  }

  /** The port the restart after a see-other-host uses: SERVER_PORT unless it
      was stream-scoped, else 5222. */
  function PortAfterReconnect(p: Props): int
  {
    match Number(ClearScope(p, StreamScope), ServerPortKey)
    case None => DEFAULT_PORT
    case Some(n) => n
  }

  /** The connector `workerTerminated` restarts after a see-other-host to `h`. */
  function AfterSeeOtherHost(c: Conn, h: string): Conn
  {
    Restarting(SetStage(Reconnect(c, Some(h)).conn.(closePending := false), Disconnected))
  }

  /** The whole see-other-host protocol: after the reconnect, the reader's
      termination restarts the connector with the new host as its only
      candidate. */
  lemma SeeOtherHostRestartsAgainstNewHost(c: Conn, h: string, env: Env)
    requires c.hasContext
    ensures WorkerTerminated(Reconnect(c, Some(h)).conn, env) == Start(AfterSeeOtherHost(c, h), env).conn
    ensures AfterSeeOtherHost(c, h).hasContext
    ensures Get(AfterSeeOtherHost(c, h).props, ReconnectingKey).None?
  {
    ReconnectTearsDown(c, Some(h));
    ReconnectPinsHost(c, Some(h));
    WorkerTerminatedRestartsOnlyWhenReconnecting(Reconnect(c, Some(h)).conn, env);
  }

  /** The restart reads the settings `reconnect` left, apart from the stage
      and the reconnecting flag. */
  lemma AfterSeeOtherHostKeepsKey(c: Conn, h: string, k: Key)
    requires c.hasContext && k != ReconnectingKey && k != StageKey
    ensures Get(AfterSeeOtherHost(c, h).props, k) == Get(Reconnect(c, Some(h)).conn.props, k)
  {
  }

  /** The restart's SERVER_HOST is the new host. */
  lemma AfterSeeOtherHostHost(c: Conn, h: string)
    requires c.hasContext
    ensures Text(AfterSeeOtherHost(c, h).props, ServerHostKey) == Some(h)
  {
    ReconnectPinsHost(c, Some(h));
    AfterSeeOtherHostKeepsKey(c, h, ServerHostKey);
  }

  /** The restart's SERVER_PORT is the caller's, unless it was stream-scoped. */
  lemma AfterSeeOtherHostPort(c: Conn, h: string)
    requires c.hasContext
    ensures Number(AfterSeeOtherHost(c, h).props, ServerPortKey) == Number(ClearScope(c.props, StreamScope), ServerPortKey)
  {
    ReconnectKeepsSessionSettings(c, Some(h));
    AfterSeeOtherHostKeepsKey(c, h, ServerPortKey);
  }

  /** That restart has the new host as its only candidate. */
  lemma SeeOtherHostPinsCandidate(c: Conn, h: string, env: Env)
    requires c.hasContext
    ensures Candidates(AfterSeeOtherHost(c, h).props, env) == [HostEntry(h, PortAfterReconnect(c.props))]
  {
    AfterSeeOtherHostHost(c, h);
    AfterSeeOtherHostPort(c, h);
  }

  /** The settings the stream header is built from. */
  predicate SameAddressing(p: Props, q: Props)
  {
    Get(p, UserBareJidKey) == Get(q, UserBareJidKey)
    && Get(p, SeeOtherHostKey) == Get(q, SeeOtherHostKey)
    && Get(p, DomainNameKey) == Get(q, DomainNameKey)
  }

  lemma SameAddressingSameHeader(p: Props, q: Props)
    requires SameAddressing(p, q)
    ensures HeaderAddress(p) == HeaderAddress(q)
  {
  }

  /** The hostname check asks the verifier about the user JID's domain when a
      JID is set and about DOMAIN_NAME otherwise; without a stored verifier no
      certificate is rejected. */
  lemma HostnameCheckedAgainstDomain(p: Props, tls: TlsOutcome)
    requires tls.Established?
    ensures Get(p, HostnameVerifierKey).None? ==> !HostnameRejected(p, tls)
    ensures Get(p, HostnameVerifierKey).Some? && UserJid(p).Some? ==>
      (HostnameRejected(p, tls) <==> !tls.certifies(Some(UserJid(p).value.domain)))
    ensures Get(p, HostnameVerifierKey).Some? && UserJid(p).None? ==>
      (HostnameRejected(p, tls) <==> !tls.certifies(Text(p, DomainNameKey)))
  {
  }

  /** The connector after a handshake that succeeded, before the restart. */
  function Upgraded(c: Conn): Conn
    requires c.socket.Some?
  {
    Encrypt(c).(socket := Some(c.socket.value.(secure := true)), writer := Some(Tls), reader := Some(Tls))
  }

  /** A handshake that succeeds (or whose certificate nobody checks) restarts
      the stream over the upgraded connector; a header that cannot be written
      goes to `onError`. */
  lemma HandshakeSucceeds(c: Conn, tls: TlsOutcome)
    requires c.hasContext && c.socket.Some?
    requires tls.Established? && !HostnameRejected(c.props, tls)
    ensures !WriteFails(c) ==> Handshake(c, tls) == RestartStream(Upgraded(c))
    ensures WriteFails(c) ==> Handshake(c, tls) == OnFault(Upgraded(c), SendFailed)
  {
  }

  /** A handshake that succeeds ends normally with the upgraded settings,
      whether or not the restart's header can be written. */
  lemma HandshakeKeepsUpgradedProps(c: Conn, tls: TlsOutcome)
    requires c.hasContext && c.socket.Some?
    requires tls.Established? && !HostnameRejected(c.props, tls)
    ensures Handshake(c, tls).out == Normal && Handshake(c, tls).conn.props == Upgraded(c).props
  {
    HandshakeSucceeds(c, tls);
    if WriteFails(c) {
      assert RestartStream(Upgraded(c)) == Step(Upgraded(c), Raised(SendFailed));
    }
  }

  /** A successful TLS upgrade sets ENCRYPTED and enables keepalive again. */
  lemma TlsUpgradeEncrypts(c: Conn, tls: TlsOutcome)
    requires c.hasContext && c.socket.Some?
    requires tls.Established? && !HostnameRejected(c.props, tls)
    ensures var r := ProceedTls(c, tls);
      r.out == Normal
      && Flag(r.conn.props, EncryptedKey) == Some(true)
      && Flag(r.conn.props, DisableKeepaliveKey) == Some(false)
  {
    var c1 := SetFlag(c, StreamScope, DisableKeepaliveKey, true);
    assert HostnameRejected(c1.props, tls) == HostnameRejected(c.props, tls);
    HandshakeKeepsUpgradedProps(c1, tls);
    var h := Handshake(c1, tls);
    assert Get(h.conn.props, EncryptedKey) == Some(Entry(StreamScope, VBool(true)));
  }

  /** It fires EncryptionEstablished and then restarts the stream exactly once,
      writing the same header again, through the TLS writer; when that header
      cannot be written an Error follows instead of the restart. */
  lemma TlsUpgradeRestartsOnce(c: Conn, tls: TlsOutcome)
    requires c.hasContext && c.socket.Some?
    requires tls.Established? && !HostnameRejected(c.props, tls)
    ensures !WriteFails(c) ==> var r := ProceedTls(c, tls);
      r.conn.events == c.events + [EncryptionEstablished, StreamRestarted]
      && r.conn.writer == Some(Tls) && r.conn.reader == Some(Tls)
      && r.conn.sent == c.sent + [Chunk(Tls, OpenStream(HeaderAddress(c.props)))]
    ensures WriteFails(c) ==> var r := ProceedTls(c, tls);
      r.conn.events == c.events + [EncryptionEstablished, Error(None, Some(SendFailed))]
      && r.conn.sent == c.sent && r.conn.ping == NoPing
  {
    if WriteFails(c) {
      TlsRestartFails(c, tls);
    } else {
      TlsRestartWrites(c, tls);
    }
  }

  /** The TLS upgrade when the restart's header is written. */
  lemma TlsRestartWrites(c: Conn, tls: TlsOutcome)
    requires c.hasContext && c.socket.Some? && !WriteFails(c)
    requires tls.Established? && !HostnameRejected(c.props, tls)
    ensures var r := ProceedTls(c, tls);
      r.conn.events == c.events + [EncryptionEstablished, StreamRestarted]
      && r.conn.writer == Some(Tls) && r.conn.reader == Some(Tls)
      && r.conn.sent == c.sent + [Chunk(Tls, OpenStream(HeaderAddress(c.props)))]
  {
    var c1 := SetFlag(c, StreamScope, DisableKeepaliveKey, true);
    assert HostnameRejected(c1.props, tls) == HostnameRejected(c.props, tls);
    HandshakeSucceeds(c1, tls);
    SameAddressingSameHeader(Upgraded(c1).props, c.props);
  }

  /** The TLS upgrade when the restart's header cannot be written. */
  lemma TlsRestartFails(c: Conn, tls: TlsOutcome)
    requires c.hasContext && c.socket.Some? && WriteFails(c)
    requires tls.Established? && !HostnameRejected(c.props, tls)
    ensures var r := ProceedTls(c, tls);
      r.conn.events == c.events + [EncryptionEstablished, Error(None, Some(SendFailed))]
      && r.conn.sent == c.sent && r.conn.ping == NoPing
  {
    var c1 := SetFlag(c, StreamScope, DisableKeepaliveKey, true);
    assert HostnameRejected(c1.props, tls) == HostnameRejected(c.props, tls);
    HandshakeSucceeds(c1, tls);
  }

  /** `onError` without a response element only tears down and fires an Error. */
  lemma OnErrorWithoutResponse(c: Conn, f: Fault)
    ensures OnError(c, None, Some(f)) == OnFault(c, f)
    ensures c.hasContext ==>
      OnFault(c, f).out == Normal && OnFault(c, f).conn.events == TerminateAllWorkers(c).events + [Error(None, Some(f))]
  {
  }

  /** The connector the handshake hands to `onError` when the upgrade fails:
      its streams are already dropped, and it is marked encrypted when only
      the hostname check failed. */
  function FailedUpgrade(c: Conn, tls: TlsOutcome): Conn
  {
    if tls.HandshakeFailed? then c.(writer := None, reader := None)
    else Encrypt(c.(writer := None, reader := None))
  }

  /** A failed handshake hands the failure to `onError` without restarting the
      stream or writing anything. */
  lemma HandshakeFails(c: Conn, tls: TlsOutcome)
    requires c.hasContext && c.socket.Some?
    requires tls.HandshakeFailed? || HostnameRejected(c.props, tls)
    ensures Handshake(c, tls) == OnFault(FailedUpgrade(c, tls), TlsFailure)
    ensures FailedUpgrade(c, tls).hasContext && FailedUpgrade(c, tls).sent == c.sent
  {
  }

  /** A failed TLS upgrade tears the connection down and fires an Error; the
      stream is not restarted and keepalive is enabled again. */
  lemma TlsFailureFiresError(c: Conn, tls: TlsOutcome)
    requires c.hasContext && c.socket.Some?
    requires tls.HandshakeFailed? || HostnameRejected(c.props, tls)
    ensures var r := ProceedTls(c, tls);
      r.out == Normal
      && Flag(r.conn.props, DisableKeepaliveKey) == Some(false)
      && EndsWith(r.conn.events, [Error(None, Some(TlsFailure))])
      && r.conn.sent == c.sent
      && r.conn.ping == NoPing
  {
    var c1 := SetFlag(c, StreamScope, DisableKeepaliveKey, true);
    assert HostnameRejected(c1.props, tls) == HostnameRejected(c.props, tls);
    HandshakeFails(c1, tls);
  }

  /** A successful compression upgrade sets COMPRESSED and restarts the stream
      once through the zlib writer; keepalive is enabled again afterwards. When
      the header cannot be written, `onError` tears down and fires an Error. */
  lemma ZlibUpgradeRestartsOnce(c: Conn)
    requires c.hasContext && c.socket.Some?
    ensures var r := ProceedZlib(c);
      r.out == Normal
      && Flag(r.conn.props, CompressedKey) == Some(true)
      && Flag(r.conn.props, DisableKeepaliveKey) == Some(false)
    ensures !WriteFails(c) ==> var r := ProceedZlib(c);
      r.conn.events == c.events + [StreamRestarted]
      && r.conn.writer == Some(Zlib) && r.conn.reader == Some(Zlib)
      && r.conn.sent == c.sent + [Chunk(Zlib, OpenStream(HeaderAddress(c.props)))]
    ensures WriteFails(c) ==> var r := ProceedZlib(c);
      r.conn.events == c.events + [Error(None, Some(SendFailed))]
      && r.conn.sent == c.sent && r.conn.ping == NoPing
  {
    if WriteFails(c) {
      ZlibRestartFails(c);
    } else {
      ZlibRestartWrites(c);
    }
  }

  /** The connector `proceedZLib` restarts the stream over. */
  function Compressed(c: Conn): Conn
  {
    SetFlag(SetFlag(c, StreamScope, DisableKeepaliveKey, true).(writer := Some(Zlib), reader := Some(Zlib)),
            StreamScope, CompressedKey, true)
  }

  /** The compression upgrade when the header is written. */
  lemma ZlibRestartWrites(c: Conn)
    requires c.hasContext && c.socket.Some? && !WriteFails(c)
    ensures var r := ProceedZlib(c);
      r.out == Normal
      && Flag(r.conn.props, CompressedKey) == Some(true)
      && Flag(r.conn.props, DisableKeepaliveKey) == Some(false)
      && r.conn.events == c.events + [StreamRestarted]
      && r.conn.writer == Some(Zlib) && r.conn.reader == Some(Zlib)
      && r.conn.sent == c.sent + [Chunk(Zlib, OpenStream(HeaderAddress(c.props)))]
  {
    var z := Compressed(c);
    assert HeaderAddress(z.props) == HeaderAddress(c.props);
    assert ProceedZlib(c) == Step(SetFlag(RestartStream(z).conn, StreamScope, DisableKeepaliveKey, false), Normal);
  }

  /** The compression upgrade when the header cannot be written. */
  lemma ZlibRestartFails(c: Conn)
    requires c.hasContext && c.socket.Some? && WriteFails(c)
    ensures var r := ProceedZlib(c);
      r.out == Normal
      && Flag(r.conn.props, CompressedKey) == Some(true)
      && Flag(r.conn.props, DisableKeepaliveKey) == Some(false)
      && r.conn.events == c.events + [Error(None, Some(SendFailed))]
      && r.conn.sent == c.sent && r.conn.ping == NoPing
  {
    var z := Compressed(c);
    assert RestartStream(z) == Step(z, Raised(SendFailed));
    assert ProceedZlib(c) == Step(SetFlag(OnFault(z, SendFailed).conn, StreamScope, DisableKeepaliveKey, false), Normal);
  }

  /** With a user JID, and unless SEE_OTHER_HOST_KEY is false, the stream
      header names the user as `from` and the user's domain as `to`. */
  lemma HeaderFromUser(p: Props)
    requires UserJid(p).Some? && Flag(p, SeeOtherHostKey) != Some(false)
    ensures Render(OpenStream(HeaderAddress(p))) ==
      "<stream:stream " + ("from='" + JidText(UserJid(p).value) + "' " + "to='" + UserJid(p).value.domain + "' ") + STREAM_ATTRIBUTES
  {
    AddressingRule(UserJid(p), Flag(p, SeeOtherHostKey), Text(p, DomainNameKey));
    assert AddressAttributes(HeaderAddress(p)) ==
      "from='" + JidText(UserJid(p).value) + "' " + "to='" + UserJid(p).value.domain + "' ";
  }

  /** Otherwise the header is addressed to DOMAIN_NAME and has no `from`. */
  lemma HeaderToDomain(p: Props)
    requires UserJid(p).None? || Flag(p, SeeOtherHostKey) == Some(false)
    requires Text(p, DomainNameKey).Some?
    ensures Render(OpenStream(HeaderAddress(p))) ==
      "<stream:stream " + ("to='" + Text(p, DomainNameKey).value + "' ") + STREAM_ATTRIBUTES
  {
    AddressingRule(UserJid(p), Flag(p, SeeOtherHostKey), Text(p, DomainNameKey));
    assert AddressAttributes(HeaderAddress(p)) == "to='" + Text(p, DomainNameKey).value + "' ";
  }

  /** Without a user JID (or with SEE_OTHER_HOST_KEY false) and without
      DOMAIN_NAME the header carries no address at all. */
  lemma HeaderUnaddressed(p: Props)
    requires UserJid(p).None? || Flag(p, SeeOtherHostKey) == Some(false)
    requires Text(p, DomainNameKey).None?
    ensures Render(OpenStream(HeaderAddress(p))) == "<stream:stream " + STREAM_ATTRIBUTES
  {
    AddressingRule(UserJid(p), Flag(p, SeeOtherHostKey), Text(p, DomainNameKey));
    assert AddressAttributes(HeaderAddress(p)) == [];
  }

  /** An end of stream read while connected fires StreamTerminated twice: once
      from the stage change and once more from `onStreamTerminate` itself. */
  lemma StreamTerminateFiresTwice(c: Conn)
    requires GetState(c) == Connected && c.socket.Some?
    ensures OnStreamTerminate(c).events
      == c.events + [StateChanged(Some(Connected), Disconnected), StreamTerminated, StreamTerminated]
    ensures GetState(OnStreamTerminate(c)) == Disconnected && OnStreamTerminate(c).closePending
  {
  }

  /** After a see-other-host, a restart whose only candidate cannot be reached
      passes the code's `socket == null` check with the socket of the previous
      server and opens the new stream over it, while the intended check makes
      `start` fail with "Cannot create socket.". */
  lemma StaleSocketSurvivesReconnect(c: Conn, h: string, env: Env)
    requires c.hasContext && c.socket.Some? && !c.socket.value.closed
    requires Skippable(env.connect(HostEntry(h, PortAfterReconnect(c.props))))
    ensures var c2 := AfterSeeOtherHost(c, h);
      c2.socket == c.socket
      && Start(c2, env) == Open(Attach(Prepare(c2), c.socket.value), env.tls)
      && StartIntended(c2, env).out == Raised(StartFailed(CannotCreateSocket))
  {
    SeeOtherHostRestartsAgainstNewHost(c, h, env);
    SeeOtherHostPinsCandidate(c, h, env);
    ReconnectTearsDown(c, Some(h));
    var c2 := AfterSeeOtherHost(c, h);
    StartFailsWhenNoHostReachable(c2, env);
    StartWhenNoHostReachable(c2, env);
  }
}
