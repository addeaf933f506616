/** The TCP connector as a mutable object. Each method updates the fields the
    way `SocketConnector` does and is proved to end in the state, and with the
    outcome, that the matching SocketSpec function gives; what the connector
    promises is proved about those functions in SocketProperties. */
module SocketTransport {
  import opened Common
  import opened Xml
  import opened Session
  import opened SocketSpec

  class SocketConnector {
    /** false once `context` has been set to null by the close timer or `stop(true)` */
    var hasContext: bool
    /** the context's session object */
    var props: Props
    /** what was fired on the context's event bus */
    var events: seq<Event>
    /** what was written to `writer` */
    var sent: seq<Chunk>
    var socket: Option<Sock>
    var writer: Option<Pipe>
    var reader: Option<Pipe>
    var worker: bool
    var timer: bool
    var ping: Ping
    /** a scheduled `closeTimer` */
    var closePending: bool

    /** The fields as one value. */
    function Model(): Conn
      reads this
    {
      Conn(hasContext, props, events, sent, socket, writer, reader, worker, timer, ping, closePending)
    }

    /** A connector over a context whose session object holds `p`. */
    constructor(p: Props)
      ensures Model() == Conn(true, p, [], [], None, None, None, false, false, NoPing, false)
    {
      hasContext := true;
      props := p;
      events := [];
      sent := [];
      socket := None;
      writer := None;
      reader := None;
      worker := false;
      timer := false;
      ping := NoPing;
      closePending := false;
    }

    method GetState() returns (s: State)
      ensures s == SocketSpec.GetState(Model())
    {
      if !hasContext {
        s := Disconnected;
      } else {
        match Stage(props) {
          case None => s := Disconnected;
          case Some(x) => s := x;
        }
      }
    }

    method SetStage(s: State)
      modifies this
      ensures Model() == SocketSpec.SetStage(old(Model()), s)
    {
      if hasContext {
        var prev := Stage(props);
        props := Put(props, StreamScope, StageKey, VState(s));
        if prev != Some(s) {
          events := events + [StateChanged(prev, s)];
          if s == Disconnected {
            events := events + [StreamTerminated];
          }
        }
      }
    }

    /** `send(byte[])`, the bytes being `Render(data)` */
    method Send(data: Output) returns (out: Outcome)
      modifies this
      ensures Step(Model(), out) == SocketSpec.Write(old(Model()), data)
    {
      out := Normal;
      if writer.Some? {
        if socket.Some? && (socket.value.closed || socket.value.reset) {
          return Raised(SendFailed);
        }
        sent := sent + [Chunk(writer.value, data)];
      }
    }

    method Keepalive() returns (out: Outcome)
      modifies this
      ensures Step(Model(), out) == SocketSpec.Keepalive(old(Model()))
    {
      if !hasContext {
        return Raised(NullReference);
      }
      out := Normal;
      if Flag(props, DisableKeepaliveKey) == Some(true) {
        return;
      }
      var st := GetState();
      if st == Connected {
        out := Send(Whitespace);
      }
    }

    method RestartStream() returns (out: Outcome)
      modifies this
      ensures Step(Model(), out) == SocketSpec.RestartStream(old(Model()))
    {
      if !hasContext {
        return Raised(NullReference);
      }
      out := Send(OpenStream(HeaderAddress(props)));
      if out.Raised? {
        return;
      }
      events := events + [StreamRestarted];
    }

    method TerminateStream() returns (out: Outcome)
      modifies this
      ensures Step(Model(), out) == SocketSpec.TerminateStream(old(Model()))
    {
      out := Normal;
      var st := GetState();
      if st == Connected || st == Connecting || st == Disconnecting {
        out := Send(CloseStream);
      }
    }

    method TerminateAllWorkers()
      modifies this
      ensures Model() == SocketSpec.TerminateAllWorkers(old(Model()))
    {
      ping := NoPing;
      if socket.Some? {
        closePending := true;
      } else {
        SetStage(Disconnected);
      }
      timer := false;
    }

    /** The close timer scheduled by the teardown, when it runs. */
    method CloseTimerElapsed() returns (out: Outcome)
      modifies this
      ensures Step(Model(), out) == SocketSpec.CloseTimerElapsed(old(Model()))
    {
      SetStage(Disconnected);
      hasContext := false;
      if socket.None? {
        return Raised(NullReference);
      }
      socket := Some(socket.value.(closed := true));
      closePending := false;
      out := Normal;
    }

    method Stop()
      modifies this
      ensures Model() == SocketSpec.Stop(old(Model()))
    {
      var st := GetState();
      if st == Disconnected {
        return;
      }
      SetStage(Disconnecting);
      var t := TerminateStream();
      if t.Raised? {
        SetStage(Disconnected);
      }
      TerminateAllWorkers();
    }

    /** `stop(true)` */
    method StopNow() returns (out: Outcome)
      modifies this
      ensures Step(Model(), out) == SocketSpec.StopNow(old(Model()))
    {
      ping := NoPing;
      if socket.None? {
        SetStage(Disconnected);
        hasContext := false;
        return Raised(NullReference);
      }
      socket := Some(socket.value.(closed := true));
      SetStage(Disconnected);
      hasContext := false;
      out := Normal;
    }

    method FireOnConnected()
      modifies this
      ensures Model() == SocketSpec.FireOnConnected(old(Model()))
    {
      var st := GetState();
      if st != Disconnected {
        events := events + [ConnectedEvent];
      }
    }

    method FireOnError(response: Option<Element>, cause: Option<Fault>) returns (out: Outcome)
      modifies this
      ensures Step(Model(), out) == SocketSpec.FireOnError(old(Model()), response, cause)
    {
      if !hasContext {
        return Raised(NullReference);
      }
      events := events + [Error(SocketSpec.ErrorCondition(response), cause)];
      out := Normal;
    }

    method Reconnect(newHost: Option<string>) returns (out: Outcome)
      modifies this
      ensures Step(Model(), out) == SocketSpec.Reconnect(old(Model()), newHost)
    {
      if !hasContext {
        return Raised(NullReference);
      }
      props := Put(props, SessionScope, ReconnectingKey, VBool(true));
      ghost var c0 := Model();
      assert c0 == SocketSpec.SetFlag(old(Model()), SessionScope, ReconnectingKey, true);
      TerminateAllWorkers();
      props := Store(ClearScope(props, StreamScope), SessionScope, ServerHostKey, SocketSpec.TextValue(newHost));
      worker := false;
      reader := None;
      writer := None;
      props := Put(props, SessionScope, ReconnectingKey, VBool(true));
      out := Normal;
    }

    method OnError(response: Option<Element>, cause: Option<Fault>) returns (out: Outcome)
      modifies this
      ensures Step(Model(), out) == SocketSpec.OnError(old(Model()), response, cause)
    {
      if response.Some? && SocketSpec.SeeOtherHostOf(response.value).Some? {
        out := Reconnect(SocketSpec.SeeOtherHostOf(response.value).value.value);
      } else {
        TerminateAllWorkers();
        out := FireOnError(response, cause);
      }
    }

    /** `onError(null, caught)` */
    method OnFault(f: Fault) returns (out: Outcome)
      modifies this
      ensures Step(Model(), out) == SocketSpec.OnFault(old(Model()), f)
    {
      TerminateAllWorkers();
      out := FireOnError(None, Some(f));
    }

    method OnErrorInThread(f: Fault) returns (out: Outcome)
      modifies this
      ensures Step(Model(), out) == SocketSpec.OnErrorInThread(old(Model()), f)
    {
      var st := GetState();
      if st == Disconnected {
        return Normal;
      }
      out := OnFault(f);
    }

    method OnResponse(e: Element) returns (out: Outcome)
      modifies this
      ensures Step(Model(), out) == SocketSpec.OnResponse(old(Model()), e)
    {
      if SocketSpec.IsStreamError(e) {
        out := OnError(Some(e), None);
      } else if !hasContext {
        out := Raised(NullReference);
      } else {
        events := events + [StanzaReceived(e)];
        out := Normal;
      }
    }

    method OnStreamTerminate()
      modifies this
      ensures Model() == SocketSpec.OnStreamTerminate(old(Model()))
    {
      var st := GetState();
      if st == Disconnected {
        return;
      }
      SetStage(Disconnected);
      TerminateAllWorkers();
      events := events + [StreamTerminated];
    }

    /** ENCRYPTED set and EncryptionEstablished fired. */
    method Encrypt()
      modifies this
      ensures Model() == SocketSpec.Encrypt(old(Model()))
    {
      props := Put(props, StreamScope, EncryptedKey, VBool(true));
      events := events + [EncryptionEstablished];
    }

    method Handshake(tls: TlsOutcome) returns (out: Outcome)
      modifies this
      ensures Step(Model(), out) == SocketSpec.Handshake(old(Model()), tls)
    {
      if socket.None? {
        out := OnFault(NullReference);
        return;
      }
      var rejected := SocketSpec.HostnameRejected(props, tls);
      var secured := socket.value.(secure := true);
      writer := None;
      reader := None;
      ghost var c0 := Model();
      assert c0 == old(Model()).(writer := None, reader := None);
      if tls.HandshakeFailed? {
        out := OnFault(TlsFailure);
        return;
      }
      Encrypt();
      if rejected {
        out := OnFault(TlsFailure);
        return;
      }
      socket := Some(secured);
      writer := Some(Tls);
      reader := Some(Tls);
      out := RestartStream();
      if out.Raised? {
        out := OnFault(out.fault);
      }
    }

    /** `proceedTLS()` */
    method ProceedTls(tls: TlsOutcome) returns (out: Outcome)
      modifies this
      ensures Step(Model(), out) == SocketSpec.ProceedTls(old(Model()), tls)
    {
      if !hasContext {
        return Raised(NullReference);
      }
      props := Put(props, StreamScope, DisableKeepaliveKey, VBool(true));
      assert Model() == SocketSpec.SetFlag(old(Model()), StreamScope, DisableKeepaliveKey, true);
      out := Handshake(tls);
      props := Put(props, StreamScope, DisableKeepaliveKey, VBool(false));
    }

    /** `proceedZLib()` */
    method ProceedZlib() returns (out: Outcome)
      modifies this
      ensures Step(Model(), out) == SocketSpec.ProceedZlib(old(Model()))
    {
      if !hasContext {
        return Raised(NullReference);
      }
      props := Put(props, StreamScope, DisableKeepaliveKey, VBool(true));
      writer := None;
      reader := None;
      ghost var c1 := Model();
      assert c1 == SocketSpec.SetFlag(old(Model()), StreamScope, DisableKeepaliveKey, true).(writer := None, reader := None);
      if socket.None? {
        out := OnFault(NullReference);
      } else {
        writer := Some(Zlib);
        reader := Some(Zlib);
        props := Put(props, StreamScope, CompressedKey, VBool(true));
        assert Model() == SocketSpec.SetFlag(c1.(writer := Some(Zlib), reader := Some(Zlib)), StreamScope, CompressedKey, true);
        out := RestartStream();
        if out.Raised? {
          out := OnFault(out.fault);
        }
      }
      props := Put(props, StreamScope, DisableKeepaliveKey, VBool(false));
    }

    method ProcessElement(e: Element, tls: TlsOutcome) returns (out: Outcome)
      modifies this
      ensures Step(Model(), out) == SocketSpec.ProcessElement(old(Model()), e, tls)
    {
      if e.xmlns == Some(NS_TLS) {
        if e.name == "proceed" {
          out := ProceedTls(tls);
        } else {
          out := Normal;
        }
      } else if e.xmlns == Some(NS_COMPRESS) {
        if e.name == "compressed" && e.xmlns == Some(NS_COMPRESS) {
          out := ProceedZlib();
        } else {
          out := Normal;
        }
      } else {
        out := OnResponse(e);
      }
    }

    /** The host loop of `start`: the connect attempts in order, each host
        that fails with no-route or unknown-host skipped. */
    method ConnectFirst(hosts: seq<HostEntry>, connect: HostEntry -> ConnectOutcome) returns (a: SocketSpec.Attempt)
      ensures a == SocketSpec.FirstReachable(hosts, connect)
    {
      var i := 0;
      a := SocketSpec.Exhausted;
      while i < |hosts| && a.Exhausted?
        invariant 0 <= i <= |hosts|
        invariant a.Exhausted? ==> SocketSpec.FirstReachable(hosts, connect) == SocketSpec.FirstReachable(hosts[i..], connect)
        invariant !a.Exhausted? ==> SocketSpec.FirstReachable(hosts, connect) == a
      {
        assert hosts[i..][1..] == hosts[i + 1..];
        match connect(hosts[i]) {
          case Opened => a := SocketSpec.Reached(hosts[i]);
          case IoFailure => a := SocketSpec.Aborted(hosts[i]);
          case _ =>
        }
        i := i + 1;
      }
    }

    /** `start` once the socket is open. */
    method Open(tls: TlsOutcome) returns (out: Outcome)
      modifies this
      ensures Step(Model(), out) == SocketSpec.Open(old(Model()), tls)
    {
      var r: Outcome;
      ghost var r0 := if Flag(props, UsePlainSslKey) == Some(true) then SocketSpec.ProceedTls(Model(), tls)
                      else SocketSpec.RestartStream(Model());
      if Flag(props, UsePlainSslKey) == Some(true) {
        r := ProceedTls(tls);
      } else {
        r := RestartStream();
      }
      assert Step(Model(), r) == r0;
      if r.Raised? {
        TerminateAllWorkers();
        return Raised(StartFailed(r.fault));
      }
      SetStage(Connected);
      ping := PingIdle;
      assert Model() == SocketSpec.SetStage(r0.conn, Connected).(ping := PingIdle);
      out := SchedulePing();
    }

    /** The ping scheduling and Connected event at the end of `start`. */
    method SchedulePing() returns (out: Outcome)
      modifies this
      ensures Step(Model(), out) == SocketSpec.SchedulePing(old(Model()))
    {
      if Flag(props, ExternalKeepaliveKey) != Some(true) {
        var delay := SocketSpec.PingDelay(props);
        if delay.Some? {
          if !timer {
            TerminateAllWorkers();
            return Raised(StartFailed(NullReference));
          }
          if delay.value == 0 {
            TerminateAllWorkers();
            return Raised(StartFailed(NonPositivePeriod));
          }
          ping := PingEvery(delay.value);
        }
      }
      FireOnConnected();
      out := Normal;
    }

    /** What `start` does before its host loop. */
    method PrepareStart()
      modifies this
      requires hasContext
      ensures Model() == SocketSpec.Prepare(old(Model()))
    {
      timer := true;
      props := SocketSpec.SetupVerifier(props);
      assert Model() == old(Model()).(timer := true, props := SocketSpec.SetupVerifier(old(props)));
      SetStage(Connecting);
      props := Put(props, StreamScope, DisableKeepaliveKey, VBool(false));
    }

    /** The `try` block of `start` from the host loop on. */
    method Connect(env: SocketSpec.Env) returns (out: Outcome)
      modifies this
      ensures Step(Model(), out) == SocketSpec.Connect(old(Model()), env)
    {
      var hosts := SocketSpec.Candidates(props, env);
      var a := ConnectFirst(hosts, env.connect);
      if a.Aborted? {
        TerminateAllWorkers();
        return Raised(StartFailed(ConnectFailed(a.host)));
      }
      if a.Reached? {
        socket := Some(FreshSocket(a.host));
      }
      // `socket` is not reset before the loop: without a reached host it
      // still holds whatever an earlier connection left in it.
      if socket.None? {
        TerminateAllWorkers();
        return Raised(StartFailed(CannotCreateSocket));
      }
      if socket.value.closed {
        TerminateAllWorkers();
        return Raised(StartFailed(SocketClosed));
      }
      ghost var s := socket.value;
      writer := Some(PipeOf(socket.value));
      reader := Some(PipeOf(socket.value));
      worker := true;
      assert Model() == SocketSpec.Attach(old(Model()), s);
      out := Open(env.tls);
    }

    method Start(env: SocketSpec.Env) returns (out: Outcome)
      modifies this
      ensures Step(Model(), out) == SocketSpec.Start(old(Model()), env)
    {
      if !hasContext {
        timer := true;
        return Raised(NullReference);
      }
      PrepareStart();
      out := Connect(env);
    }

    method WorkerTerminated(env: SocketSpec.Env)
      modifies this
      ensures Model() == SocketSpec.WorkerTerminated(old(Model()), env)
    {
      closePending := false;
      ghost var c0 := Model();
      assert c0 == old(Model()).(closePending := false);
      SetStage(Disconnected);
      if !hasContext {
        return;
      }
      if Flag(props, ReconnectingKey) == Some(true) {
        ghost var c1 := Model();
        props := Remove(props, ReconnectingKey);
        events := events + [HostChanged];
        assert Model() == SocketSpec.Restarting(c1);
        var _ := Start(env);
      } else {
        events := events + [DisconnectedEvent];
      }
    }
  }
}
