/** The TCP connector (`SocketConnector`) as pure functions over a snapshot of
    its state. Every operation maps the snapshot before the call to the snapshot
    after it and says how the call ended; the class in SocketTransport is proved
    to follow these functions, and the lemmas at the end state what the
    connector promises. */
module SocketSpec {
  import opened Common
  import opened Xml
  import opened Session

  /** DEFAULT_SOCKET_TIMEOUT */
  const DEFAULT_SOCKET_TIMEOUT: int := 0
  /** The port of a pinned host whose SERVER_PORT is not set. */
  const DEFAULT_PORT: int := 5222
  /** How much earlier than the socket timeout the whitespace ping fires. */
  const PING_MARGIN: int := 5000
  const STREAM_CLOSE := "</stream:stream>"
  /** What follows the addressing in the opening tag. */
  const STREAM_ATTRIBUTES := "xmlns='jabber:client' xmlns:stream='http://etherx.jabber.org/streams' version='1.0'>"

  /** The layer the `writer`/`reader` fields talk through. */
  datatype Pipe = Plain | Tls | Zlib

  /** What is handed to `send(byte[])`: the opening tag of a stream with its
      addressing, the closing tag, a whitespace keepalive, or bytes of the
      caller's own. */
  datatype Output = OpenStream(address: Address) | CloseStream | Whitespace | Raw(bytes: string)

  /** The bytes of an output. */
  function Render(o: Output): string
  {
    match o
    case OpenStream(a) => "<stream:stream " + AddressAttributes(a) + STREAM_ATTRIBUTES
    case CloseStream => STREAM_CLOSE
    case Whitespace => [32 as char]
    case Raw(d) => d
  }

  /** Output handed to the writer, and the layer it went through. */
  datatype Chunk = Chunk(pipe: Pipe, data: Output)

  /** The `socket` field: the server it reaches, whether it is the TLS-layered
      socket, whether `close()` was called on it, and whether the network has
      reset the connection under it. */
  datatype Sock = Sock(host: HostEntry, secure: bool, closed: bool, reset: bool)

  /** The socket `createSocket(host)` returns. */
  function FreshSocket(h: HostEntry): Sock
  {
    Sock(h, false, false, false)
  }

  /** The layer of the streams `getOutputStream`/`getInputStream` give on a socket. */
  function PipeOf(s: Sock): Pipe
  {
    if s.secure then Tls else Plain
  }

  /** The connector's state. `hasContext` is false once the context reference is
      dropped; `events` is what was fired on the event bus, `sent` what was
      written; `closePending` stands for a scheduled close timer. */
  datatype Conn = Conn(
    hasContext: bool,
    props: Props,
    events: seq<Event>,
    sent: seq<Chunk>,
    socket: Option<Sock>,
    writer: Option<Pipe>,
    reader: Option<Pipe>,
    worker: bool,
    timer: bool,
    ping: Ping,
    closePending: bool)

  /** The state after an operation, and how the operation ended. */
  datatype Step = Step(conn: Conn, out: Outcome)

  /** What connecting to one candidate host does. */
  datatype ConnectOutcome = Opened | NoRouteToHost | UnknownHost | IoFailure

  /** What the TLS handshake does: fail, or complete with a peer certificate;
      `certifies` is the stored hostname verifier's verdict on that
      certificate for a given host name (null included). */
  datatype TlsOutcome = HandshakeFailed | Established(certifies: Option<string> -> bool)

  /** The collaborators outside the connector: the DNS resolver, the network and
      the TLS library. */
  datatype Env = Env(
    resolve: Option<string> -> seq<HostEntry>,
    connect: HostEntry -> ConnectOutcome,
    tls: TlsOutcome)

  /* ---------------------------------------------------------------------- */
  /* Stage                                                                  */

  /** `getState()`: the stored stage, disconnected when there is none or no context. */
  function GetState(c: Conn): State
  {
    if !c.hasContext then Disconnected
    else match Stage(c.props)
      case None => Disconnected
      case Some(s) => s
  }

  /** `setStage(state)` */
  function SetStage(c: Conn, s: State): Conn
  {
    if !c.hasContext then c
    else c.(props := Put(c.props, StreamScope, StageKey, VState(s)),
            events := c.events + StageEvents(Stage(c.props), s))
  }

  function Fire(c: Conn, e: Event): Conn
  {
    c.(events := c.events + [e])
  }

  function SetFlag(c: Conn, scope: Scope, k: Key, b: bool): Conn
  {
    c.(props := Put(c.props, scope, k, VBool(b)))
  }

  /* ---------------------------------------------------------------------- */
  /* Output                                                                 */

  /** Whether writing to the socket's streams throws an IOException: the
      socket was closed, or the connection was reset. */
  predicate WriteFails(c: Conn)
  {
    c.socket.Some? && (c.socket.value.closed || c.socket.value.reset)
  }

  /** Whether `send(byte[])` throws on this connector. */
  predicate WriteRaises(c: Conn)
  {
    c.writer.Some? && WriteFails(c)
  }

  /** `send(byte[])`: nothing happens without a writer; a write that throws
      comes back as a JaxmppException and nothing is recorded as sent. */
  function Write(c: Conn, data: Output): Step
  {
    if c.writer.None? then Step(c, Normal)
    else if WriteFails(c) then Step(c, Raised(SendFailed))
    else Step(c.(sent := c.sent + [Chunk(c.writer.value, data)]), Normal)
  }

  /** `keepalive()` */
  function Keepalive(c: Conn): Step
  {
    if !c.hasContext then Step(c, Raised(NullReference))
    else if Flag(c.props, DisableKeepaliveKey) == Some(true) then Step(c, Normal)
    else if GetState(c) == Connected then Write(c, Whitespace)
    else Step(c, Normal)
  }

  /** `restartStream()` */
  function RestartStream(c: Conn): Step
  {
    if !c.hasContext then Step(c, Raised(NullReference))
    else
      var w := Write(c, OpenStream(HeaderAddress(c.props)));
      if w.out.Raised? then w else Step(Fire(w.conn, StreamRestarted), Normal)
  }

  /** `terminateStream()` */
  function TerminateStream(c: Conn): Step
  {
    var st := GetState(c);
    if st == Connected || st == Connecting || st == Disconnecting then Write(c, CloseStream) else Step(c, Normal)
  }

  /* ---------------------------------------------------------------------- */
  /* Teardown                                                               */

  /** `terminateAllWorkers()`: the ping task is cancelled; a connected socket gets
      a close timer, otherwise the stage goes straight to disconnected; the
      timer is dropped. */
  function TerminateAllWorkers(c: Conn): Conn
  {
    var c1 := c.(ping := NoPing);
    var c2 := if c1.socket.Some? then c1.(closePending := true) else SetStage(c1, Disconnected);
    c2.(timer := false)
  }

  /** The close timer task scheduled by `terminateAllWorkers`, when it runs. */
  function CloseTimerElapsed(c: Conn): Step
  {
    var c1 := SetStage(c, Disconnected).(hasContext := false);
    match c1.socket
    case None => Step(c1, Raised(NullReference))
    case Some(s) => Step(c1.(socket := Some(s.(closed := true)), closePending := false), Normal)
  }

  /** `stop()`: a closing tag that cannot be written sets disconnected before
      the teardown; nothing escapes. */
  function Stop(c: Conn): Conn
  {
    if GetState(c) == Disconnected then c
    else
      var t := TerminateStream(SetStage(c, Disconnecting));
      TerminateAllWorkers(if t.out.Raised? then SetStage(t.conn, Disconnected) else t.conn)
  }

  /** `stop(true)`: close the socket at once and drop the context. */
  function StopNow(c: Conn): Step
  {
    var c1 := c.(ping := NoPing);
    match c1.socket
    case None => Step(SetStage(c1, Disconnected).(hasContext := false), Raised(NullReference))
    case Some(s) =>
      Step(SetStage(c1.(socket := Some(s.(closed := true))), Disconnected).(hasContext := false), Normal)
  }

  /* ---------------------------------------------------------------------- */
  /* Errors and incoming elements                                           */

  /** `fireOnConnected(...)` */
  function FireOnConnected(c: Conn): Conn
  {
    if GetState(c) == Disconnected then c else Fire(c, ConnectedEvent)
  }

  /** The stream error condition of an error element: the name of its first
      child in the stream-errors namespace. */
  function ErrorCondition(response: Option<Element>): Option<string>
  {
    if response.None? then None
    else
      var es := ChildrenNS(response.value, NS_STREAM_ERRORS);
      if es == [] then None else Some(es[0].name)
  }

  /** The condition is the name of the first child in the stream-errors
      namespace, and there is none exactly when no child is in it. */
  lemma {:induction false} ErrorConditionRule(response: Element)
    ensures ErrorCondition(Some(response)).None? <==>
      forall x :: x in response.children ==> x.xmlns != Some(NS_STREAM_ERRORS)
    ensures ErrorCondition(Some(response)).Some? ==>
      exists i :: 0 <= i < |response.children| && response.children[i].name == ErrorCondition(Some(response)).value
        && response.children[i].xmlns == Some(NS_STREAM_ERRORS)
        && forall j :: 0 <= j < i ==> response.children[j].xmlns != Some(NS_STREAM_ERRORS)
  {
    var es := ChildrenNS(response, NS_STREAM_ERRORS);
    InNamespaceMembers(response.children, NS_STREAM_ERRORS);
    if es != [] {
      assert es[0] in es;
      InNamespaceFirst(response.children, NS_STREAM_ERRORS);
    }
  }

  /** `fireOnError(response, caught, ...)` */
  function FireOnError(c: Conn, response: Option<Element>, cause: Option<Fault>): Step
  {
    if !c.hasContext then Step(c, Raised(NullReference))
    else Step(Fire(c, Error(ErrorCondition(response), cause)), Normal)
  }

  /** The `see-other-host` child of a stream error, if any. */
  function SeeOtherHostOf(response: Element): Option<Element>
  {
    ChildNS(response, "see-other-host", NS_STREAM_ERRORS)
  }

  function TextValue(v: Option<string>): Option<Value>
  {
    match v
    case None => None
    case Some(s) => Some(VText(s))
  }

  /** `reconnect(newHost)`: mark the reconnect, tear the stream down, forget the
      stream's properties and pin the new host; the restart itself happens
      when the reader thread terminates. */
  function Reconnect(c: Conn, newHost: Option<string>): Step
  {
    if !c.hasContext then Step(c, Raised(NullReference))
    else
      var c1 := TerminateAllWorkers(SetFlag(c, SessionScope, ReconnectingKey, true));
      var c2 := c1.(props := Store(ClearScope(c1.props, StreamScope), SessionScope, ServerHostKey, TextValue(newHost)),
                    worker := false, reader := None, writer := None);
      Step(SetFlag(c2, SessionScope, ReconnectingKey, true), Normal)
  }

  /** `onError(response, caught)` */
  function OnError(c: Conn, response: Option<Element>, cause: Option<Fault>): Step
  {
    if response.Some? && SeeOtherHostOf(response.value).Some? then
      Reconnect(c, SeeOtherHostOf(response.value).value.value)
    else
      FireOnError(TerminateAllWorkers(c), response, cause)
  }

  /** `onError(null, caught)`: with no response there is no see-other-host to
      follow, so the connection is torn down and an Error fired. */
  function OnFault(c: Conn, cause: Fault): Step
  {
    FireOnError(TerminateAllWorkers(c), None, Some(cause))
  }

  /** `onErrorInThread(e)` */
  function OnErrorInThread(c: Conn, f: Fault): Step
  {
    if GetState(c) == Disconnected then Step(c, Normal)
    else OnFault(c, f)
  }

  /** An `error` element in the streams namespace. */
  predicate IsStreamError(e: Element)
  {
    e.name == "error" && e.xmlns == Some(NS_STREAMS)
  }

  /** `onResponse(response)` */
  function OnResponse(c: Conn, e: Element): Step
  {
    if IsStreamError(e) then OnError(c, Some(e), None)
    else if !c.hasContext then Step(c, Raised(NullReference))
    else Step(Fire(c, StanzaReceived(e)), Normal)
  }

  /** `onStreamTerminate()` */
  function OnStreamTerminate(c: Conn): Conn
  {
    if GetState(c) == Disconnected then c
    else Fire(TerminateAllWorkers(SetStage(c, Disconnected)), StreamTerminated)
  }

  /* ---------------------------------------------------------------------- */
  /* Stream upgrades                                                        */

  /** Whether the hostname check rejects the peer: only a stored verifier
      checks, and it is asked about `getHostname()`. */
  predicate HostnameRejected(p: Props, tls: TlsOutcome)
  {
    tls.Established? && Get(p, HostnameVerifierKey).Some? && !tls.certifies(GetHostname(p))
  }

  function Encrypt(c: Conn): Conn
  {
    Fire(SetFlag(c, StreamScope, EncryptedKey, true), EncryptionEstablished)
  }

  /** The TLS upgrade of `proceedTLS` (the JCE back end): the old streams are
      dropped before the handshake; a completed handshake sets ENCRYPTED and
      fires EncryptionEstablished before the hostname check can reject it.
      Whatever fails, a restart whose header cannot be written included, goes
      to `onError(null, e)`. */
  function Handshake(c: Conn, tls: TlsOutcome): Step
  {
    if c.socket.None? then OnFault(c, NullReference)
    else
      var c0 := c.(writer := None, reader := None);
      if tls.HandshakeFailed? then OnFault(c0, TlsFailure)
      else if HostnameRejected(c.props, tls) then OnFault(Encrypt(c0), TlsFailure)
      else
        var s := c.socket.value.(secure := true);
        var r := RestartStream(Encrypt(c0).(socket := Some(s), writer := Some(Tls), reader := Some(Tls)));
        if r.out.Raised? then OnFault(r.conn, r.out.fault) else r
  }

  /** `proceedTLS()`: keepalive is off while the streams are swapped and is
      switched back on however the upgrade ends. */
  function ProceedTls(c: Conn, tls: TlsOutcome): Step
  {
    if !c.hasContext then Step(c, Raised(NullReference))
    else
      var r := Handshake(SetFlag(c, StreamScope, DisableKeepaliveKey, true), tls);
      Step(SetFlag(r.conn, StreamScope, DisableKeepaliveKey, false), r.out)
  }

  /** `proceedZLib()` */
  function ProceedZlib(c: Conn): Step
  {
    if !c.hasContext then Step(c, Raised(NullReference))
    else
      var c1 := SetFlag(c, StreamScope, DisableKeepaliveKey, true).(writer := None, reader := None);
      var r := if c1.socket.None? then OnFault(c1, NullReference)
               else
                 var z := RestartStream(SetFlag(c1.(writer := Some(Zlib), reader := Some(Zlib)), StreamScope, CompressedKey, true));
                 if z.out.Raised? then OnFault(z.conn, z.out.fault) else z;
      Step(SetFlag(r.conn, StreamScope, DisableKeepaliveKey, false), r.out)
  }

  /** `onTLSStanza(elem)`: `proceed` upgrades; anything else (`failure`) is only logged. */
  function OnTlsStanza(c: Conn, e: Element, tls: TlsOutcome): Step
  {
    if e.name == "proceed" then ProceedTls(c, tls) else Step(c, Normal)
  }

  /** `onZLibStanza(elem)` */
  function OnZlibStanza(c: Conn, e: Element): Step
  {
    if e.name == "compressed" && e.xmlns == Some(NS_COMPRESS) then ProceedZlib(c) else Step(c, Normal)
  }

  /** `processElement(elem)`: the routing of every element the reader thread parses. */
  function ProcessElement(c: Conn, e: Element, tls: TlsOutcome): Step
  {
    if e.xmlns == Some(NS_TLS) then OnTlsStanza(c, e, tls)
    else if e.xmlns == Some(NS_COMPRESS) then OnZlibStanza(c, e)
    else OnResponse(c, e)
  }

  /* ---------------------------------------------------------------------- */
  /* Feature checks and configuration                                       */

  /** `isTLSAvailable(sessionObject)` */
  function IsTlsAvailable(p: Props): (r: bool)
    ensures r <==>
      Features(p).Some? &&
      (exists i :: 0 <= i < |Features(p).value.children| && Matches(Features(p).value.children[i], "starttls", NS_TLS))
  {
    if Features(p).None? then false
    else
      FirstMatchSpec(Features(p).value.children, "starttls", NS_TLS);
      ChildNS(Features(p).value, "starttls", NS_TLS).Some?
  }

  /** The advertised compression methods, when there is a compression feature. */
  function CompressionMethods(p: Props): Option<seq<Element>>
  {
    if Features(p).None? then None
    else match ChildNS(Features(p).value, "compression", NS_COMPRESS_FEATURE)
      case None => None
      case Some(m) => Some(Named(m.children, "method"))
  }

  /** The server offers zlib: a `method` child of its compression feature reads "zlib". */
  predicate ZlibOffered(p: Props)
  {
    CompressionMethods(p).Some? && exists m :: m in CompressionMethods(p).value && m.value == Some("zlib")
  }

  /** `isZLibAvailable(sessionObject)` */
  method IsZlibAvailable(p: Props) returns (r: bool)
    ensures r <==> ZlibOffered(p)
  {
    var ms := CompressionMethods(p);
    if ms.None? {
      return false;
    }
    var methods := ms.value;
    var i := 0;
    while i < |methods|
      invariant 0 <= i <= |methods|
      invariant forall j :: 0 <= j < i ==> methods[j].value != Some("zlib")
    {
      if methods[i].value == Some("zlib") {
        return true;
      }
      i := i + 1;
    }
    return false;
  }

  /** `getTimeout(name, default)`: the property, or the default when it is not
      set; no timeout when that value is negative. */
  function Timeout(p: Props, k: Key, default: int): (r: Option<int>)
    ensures Number(p, k).Some? ==> (r.None? <==> Number(p, k).value < 0)
    ensures Number(p, k).None? ==> (r.None? <==> default < 0)
    ensures r.Some? ==> r.value >= 0 && r.value == (if Number(p, k).Some? then Number(p, k).value else default)
  {
    var v := match Number(p, k) case None => default case Some(n) => n;
    if v < 0 then None else Some(v)
  }

  /** The whitespace ping period `start` asks for: KEEP_ALIVE_DELAY_KEY, by
      default five seconds less than the plain socket timeout. */
  function PingDelay(p: Props): Option<int>
  {
    var base := Timeout(p, PlainSocketTimeoutKey, DEFAULT_SOCKET_TIMEOUT);
    Timeout(p, KeepAliveDelayKey, if base.None? then -1 else base.value - PING_MARGIN)
  }

  /** `getHostname()`: the user JID's domain, else DOMAIN_NAME. */
  function GetHostname(p: Props): (r: Option<string>)
    ensures UserJid(p).Some? ==> r == Some(UserJid(p).value.domain)
    ensures UserJid(p).None? ==> r == Text(p, DomainNameKey)
  {
    if UserJid(p).Some? then Some(UserJid(p).value.domain) else Text(p, DomainNameKey)
  }

  /** `getHostFromSessionObject()`: a pinned SERVER_HOST, with port 5222 unless SERVER_PORT says otherwise. */
  function HostFromSession(p: Props): (r: Option<HostEntry>)
    ensures r.Some? <==> Text(p, ServerHostKey).Some?
    ensures r.Some? ==> r.value.hostname == Text(p, ServerHostKey).value
    ensures r.Some? && Number(p, ServerPortKey).None? ==> r.value.port == DEFAULT_PORT
  {
    match Text(p, ServerHostKey)
    case None => None
    case Some(h) => Some(HostEntry(h, match Number(p, ServerPortKey) case None => DEFAULT_PORT case Some(n) => n))
  }

  /** The hosts `start` tries, in order. */
  function Candidates(p: Props, env: Env): seq<HostEntry>
  {
    match HostFromSession(p)
    case Some(h) => [h]
    case None => env.resolve(Text(p, DomainNameKey))
  }

  /** The hostname-verifier set-up at the head of `start`. */
  function SetupVerifier(p: Props): (q: Props)
    ensures Flag(p, HostnameVerifierDisabledKey) == Some(true) ==> Get(q, HostnameVerifierKey).None?
    ensures Flag(p, HostnameVerifierDisabledKey) != Some(true) ==>
      Get(q, HostnameVerifierKey) == if Get(p, HostnameVerifierKey).Some? then Get(p, HostnameVerifierKey)
                                     else Some(Entry(SessionScope, VVerifier(DefaultVerifier)))
    ensures forall j {:trigger Get(q, j)} :: j != HostnameVerifierKey ==> Get(q, j) == Get(p, j)
  {
    if Flag(p, HostnameVerifierDisabledKey) == Some(true) then Remove(p, HostnameVerifierKey)
    else if Get(p, HostnameVerifierKey).None? then Put(p, SessionScope, HostnameVerifierKey, VVerifier(DefaultVerifier))
    else p
  }

  /* ---------------------------------------------------------------------- */
  /* Start                                                                  */

  /** How the host loop of `start` ends: a socket to some host, every host
      skipped, or an I/O failure that ends the loop. */
  datatype Attempt = Reached(host: HostEntry) | Exhausted | Aborted(host: HostEntry)

  /** Failures after which the loop tries the next host. */
  predicate Skippable(o: ConnectOutcome)
  {
    o == NoRouteToHost || o == UnknownHost
  }

  /** The host loop: the first host that is not skipped decides. */
  function FirstReachable(hosts: seq<HostEntry>, connect: HostEntry -> ConnectOutcome): (r: Attempt)
    ensures r.Exhausted? <==> forall i :: 0 <= i < |hosts| ==> Skippable(connect(hosts[i]))
    ensures !r.Exhausted? ==> exists i :: 0 <= i < |hosts| && hosts[i] == r.host
                                && (forall j :: 0 <= j < i ==> Skippable(connect(hosts[j])))
                                && connect(hosts[i]) == (if r.Reached? then Opened else IoFailure)
  {
    if hosts == [] then Exhausted
    else match connect(hosts[0])
      case Opened => Reached(hosts[0])
      case IoFailure => Aborted(hosts[0])
      case _ =>
        var r := FirstReachable(hosts[1..], connect);
        assert forall i :: 1 <= i < |hosts| ==> hosts[i] == hosts[1..][i - 1];
        if r.Exhausted? then r
        else
          var k :| 0 <= k < |hosts[1..]| && hosts[1..][k] == r.host
                   && (forall j :: 0 <= j < k ==> Skippable(connect(hosts[1..][j])))
                   && connect(hosts[1..][k]) == (if r.Reached? then Opened else IoFailure);
          assert hosts[k + 1] == r.host;
          r
  }

  /** The `catch` of `start`: tear down and rethrow wrapped. */
  function StartFailure(c: Conn, f: Fault): Step
  {
    Step(TerminateAllWorkers(c), Raised(StartFailed(f)))
  }

  /** `start` once a socket is open: the stream is opened (through TLS when
      USE_PLAIN_SSL_KEY is set), the stage becomes connected and the ping is
      scheduled unless keepalive is external. */
  function Open(c: Conn, tls: TlsOutcome): Step
  {
    var r := if Flag(c.props, UsePlainSslKey) == Some(true) then ProceedTls(c, tls) else RestartStream(c);
    if r.out.Raised? then StartFailure(r.conn, r.out.fault)
    else SchedulePing(SetStage(r.conn, Connected).(ping := PingIdle))
  }

  /** The end of `start`: the ping is scheduled unless keepalive is external or
      there is no ping delay, and Connected is fired. */
  function SchedulePing(c: Conn): Step
  {
    if Flag(c.props, ExternalKeepaliveKey) == Some(true) then Step(FireOnConnected(c), Normal)
    else match PingDelay(c.props)
      case None => Step(FireOnConnected(c), Normal)
      case Some(d) =>
        if !c.timer then StartFailure(c, NullReference)
        else if d == 0 then StartFailure(c, NonPositivePeriod)
        else Step(FireOnConnected(c.(ping := PingEvery(d))), Normal)
  }

  /** What `start` does before the host loop: a fresh timer, the verifier
      set-up, the connecting stage and keepalive enabled for the new stream.
      (The candidate hosts do not depend on the keepalive flag, so the model
      reads them after it is set.) */
  function Prepare(c: Conn): Conn
  {
    SetFlag(SetStage(c.(timer := true, props := SetupVerifier(c.props)), Connecting), StreamScope, DisableKeepaliveKey, false)
  }

  /** The connector once `start` has its socket: the streams of that socket
      and a reader thread. */
  function Attach(c: Conn, s: Sock): Conn
  {
    c.(socket := Some(s), writer := Some(PipeOf(s)), reader := Some(PipeOf(s)), worker := true)
  }

  /** The `try` block of `start` from the host loop on. The field `socket` is
      only assigned when a host is reached and nothing sets it back to null,
      so when every candidate is skipped the `socket == null` check sees the
      socket an earlier connection left there: `start` goes on with it, and
      fails only when that socket was closed (its streams throw). */
  function Connect(c: Conn, env: Env): Step
  {
    match FirstReachable(Candidates(c.props, env), env.connect)
    case Aborted(h) => StartFailure(c, ConnectFailed(h))
    case Reached(h) => Open(Attach(c, FreshSocket(h)), env.tls)
    case Exhausted =>
      if c.socket.None? then StartFailure(c, CannotCreateSocket)
      else if c.socket.value.closed then StartFailure(c, SocketClosed)
      else Open(Attach(c, c.socket.value), env.tls)
  }

  /** `start()` */
  function Start(c: Conn, env: Env): Step
  {
    if !c.hasContext then Step(c.(timer := true), Raised(NullReference))
    else Connect(Prepare(c), env)
  }

  /** The host loop's ending as evidently intended: only a socket this
      attempt opened counts, so no reachable candidate means failure. */
  function ConnectIntended(c: Conn, env: Env): Step
  {
    match FirstReachable(Candidates(c.props, env), env.connect)
    case Aborted(h) => StartFailure(c, ConnectFailed(h))
    case Reached(h) => Open(Attach(c, FreshSocket(h)), env.tls)
    case Exhausted => StartFailure(c, CannotCreateSocket)
  }

  /** `start()` with the intended check. */
  function StartIntended(c: Conn, env: Env): Step
  {
    if !c.hasContext then Step(c.(timer := true), Raised(NullReference))
    else ConnectIntended(Prepare(c), env)
  }

  /** The state `workerTerminated` restarts from after a see-other-host:
      RECONNECTING removed and HostChanged fired. */
  function Restarting(c: Conn): Conn
  {
    Fire(c.(props := Remove(c.props, ReconnectingKey)), HostChanged)
  }

  /** `workerTerminated(worker)`: everything it raises is swallowed. */
  function WorkerTerminated(c: Conn, env: Env): Conn
  {
    var c1 := SetStage(c.(closePending := false), Disconnected);
    if !c1.hasContext then c1
    else if Flag(c1.props, ReconnectingKey) == Some(true) then Start(Restarting(c1), env).conn
    else Fire(c1, DisconnectedEvent)
  }
}
