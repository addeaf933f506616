/** What the failover controller promises, stated over the functions of
    FailoverSpec: which stage changes lead to a reconnect, when a host is
    reported as failed, which domain is resolved, and how the resolution
    callback reports failures. */
module FailoverProperties {
  import opened Common
  import opened Session
  import opened FailoverSpec
  import WebSocketSpec

  /* ---------------------------------------------------------------------- */
  /* Domain and resolver calls                                              */

  /** The domain is DOMAIN_NAME when set, the user JID's domain otherwise, and
      missing only when neither is known. */
  lemma DomainRule(p: Props)
    ensures Text(p, DomainNameKey).Some? ==> Domain(p) == Text(p, DomainNameKey)
    ensures Text(p, DomainNameKey).None? && UserJid(p).Some? ==> Domain(p) == Some(UserJid(p).value.domain)
    ensures Domain(p).None? <==> Text(p, DomainNameKey).None? && UserJid(p).None?
  {
  }

  /** `connectionFailure` reports the current service URL as failed exactly
      when asked to, then always requests a resolution of the domain with the
      given see-other-host target; nothing else changes. */
  lemma ConnectionFailureRule(m: Mgr, seeHost: Option<string>, hostFailure: bool)
    ensures ConnectionFailure(m, seeHost, hostFailure).resolver ==
      m.resolver + (if hostFailure then [HostFailure(Text(m.props, ServiceUrlKey))] else [])
                 + [GetHostForDomain(Domain(m.props), seeHost, m.callback)]
    ensures ConnectionFailure(m, seeHost, hostFailure) == m.(resolver := ConnectionFailure(m, seeHost, hostFailure).resolver)
  {
  }

  /** The request that `connectionFailure` ends with. */
  lemma ConnectionFailureResolves(m: Mgr, seeHost: Option<string>, hostFailure: bool)
    ensures var r := ConnectionFailure(m, seeHost, hostFailure).resolver;
      |r| == |m.resolver| + (if hostFailure then 2 else 1) &&
      r[|r| - 1] == GetHostForDomain(Domain(m.props), seeHost, m.callback) &&
      r[..|m.resolver|] == m.resolver
    ensures (exists k :: |m.resolver| <= k < |ConnectionFailure(m, seeHost, hostFailure).resolver| &&
              ConnectionFailure(m, seeHost, hostFailure).resolver[k].HostFailure?) <==> hostFailure
  {
    var r := ConnectionFailure(m, seeHost, hostFailure).resolver;
    if hostFailure {
      assert r[|m.resolver|].HostFailure?;
    } else {
      assert r == m.resolver + [GetHostForDomain(Domain(m.props), seeHost, m.callback)];
      forall k | |m.resolver| <= k < |r|
        ensures !r[k].HostFailure?
      {
        assert k == |m.resolver|;
      }
    }
  }

  /* ---------------------------------------------------------------------- */
  /* Stage changes and the reconnect timer                                  */

  /** A state change to the same state does nothing. */
  lemma SameStateIgnored(m: Mgr, s: State)
    ensures OnStateChanged(m, Some(s), s) == m
  {
  }

  /** Only connecting → disconnecting does something, and what it does is
      schedule one reconnect timer of RECONNECT_DELAY; disconnecting after
      having been connected, and every other change, triggers nothing. */
  lemma ReconnectOnlyFromConnecting(m: Mgr, from: Option<State>, to: State)
    ensures OnStateChanged(m, from, to) != m <==> from == Some(Connecting) && to == Disconnecting
    ensures from == Some(Connecting) && to == Disconnecting ==>
      OnStateChanged(m, from, to) == m.(timers := m.timers + [RECONNECT_DELAY])
  {
    if from == Some(Connecting) && to == Disconnecting {
      assert |OnStateChanged(m, from, to).timers| == |m.timers| + 1;
    }
  }

  /** When the reconnect timer fires, the current service URL is reported as
      failed and the domain is resolved again, with no see-other-host target. */
  lemma ReconnectReportsHostFailure(m: Mgr)
    requires m.timers == []
    ensures var m1 := RunReconnectTimer(OnStateChanged(m, Some(Connecting), Disconnecting));
      m1.resolver == m.resolver + [HostFailure(Text(m.props, ServiceUrlKey)),
                                   GetHostForDomain(Domain(m.props), None, m.callback)] &&
      m1.timers == [] && m1.events == m.events
  {
    var m0 := OnStateChanged(m, Some(Connecting), Disconnecting);
    assert m0.timers == [RECONNECT_DELAY];
    assert m0.timers[1..] == [];
  }

  /** With no timer pending, firing one does nothing. */
  lemma NoTimerNoReconnect(m: Mgr)
    requires m.timers == []
    ensures RunReconnectTimer(m) == m
  {
  }

  /** A WebSocket connector stopped while still connecting publishes the stage
      change from connecting to disconnecting, which is exactly the change the
      manager answers with a reconnect timer. */
  lemma ConnectingStopSchedulesReconnect(c: WebSocketSpec.WsConn, terminate: bool, m: Mgr)
    requires WebSocketSpec.GetState(c) == Some(Connecting)
    ensures var r := WebSocketSpec.Stop(c, terminate);
      |r.conn.events| > |c.events| &&
      r.conn.events[|c.events|] == StateChanged(Some(Connecting), Disconnecting)
    ensures OnStateChanged(m, Some(Connecting), Disconnecting).timers == m.timers + [RECONNECT_DELAY]
  {
    var c1 := WebSocketSpec.SetStage(c, Disconnecting);
    StageEventsRule(Some(Connecting), Disconnecting);
    assert c1.events == c.events + [StateChanged(Some(Connecting), Disconnecting)];
    var r := WebSocketSpec.Stop(c, terminate);
    assert r.conn.events[..|c1.events|] == c1.events by {
      var t := if terminate then WebSocketSpec.WsStep(c1, Normal) else WebSocketSpec.TerminateStream(c1);
      assert t.conn.events == c1.events;
    }
    assert r.conn.events[|c.events|] == r.conn.events[..|c1.events|][|c.events|];
  }

  /* ---------------------------------------------------------------------- */
  /* See-other-host and initialization                                      */

  /** A see-other-host redirect resolves the domain again with the new host as
      the target, and reports no host as failed. */
  lemma SeeOtherHostResolves(m: Mgr, seeHost: Option<string>)
    ensures OnSeeOtherHost(m, seeHost) ==
      m.(resolver := m.resolver + [GetHostForDomain(Domain(m.props), seeHost, m.callback)])
  {
  }

  /** `initialize` keeps the client of the first call, always leaves the
      callback in place, answers whether a service URL is set, and requests a
      resolution (with the callback) exactly when it is not. */
  lemma InitializeRule(m: Mgr, j: Option<nat>)
    ensures Initialize(m, j).mgr.jaxmpp == (if m.jaxmpp.Some? then m.jaxmpp else j)
    ensures Initialize(m, j).mgr.callback
    ensures Initialize(m, j).ready <==> ServiceUrlKey in m.props
    ensures Initialize(m, j).ready ==> Initialize(m, j).mgr.resolver == m.resolver
    ensures !Initialize(m, j).ready ==>
      Initialize(m, j).mgr.resolver == m.resolver + [GetHostForDomain(Domain(m.props), None, true)]
    ensures Initialize(m, j).mgr.events == m.events && Initialize(m, j).mgr.props == m.props
  {
  }

  /** With a service URL set, a second `initialize` changes nothing, whatever
      client it is given. */
  lemma {:induction false} InitializeOnce(m: Mgr, j: Option<nat>, k: Option<nat>)
    requires ServiceUrlKey in m.props
    requires j.Some?
    ensures Initialize(Initialize(m, j).mgr, k) == Initialize(m, j)
  {
    var m1 := Initialize(m, j).mgr;
    assert m1.jaxmpp.Some? && m1.callback && m1.props == m.props;
    assert m1.(jaxmpp := m1.jaxmpp, callback := true) == m1;
  }

  /** Without one, every `initialize` requests a resolution again. */
  lemma InitializeRetries(m: Mgr, j: Option<nat>, k: Option<nat>)
    requires ServiceUrlKey !in m.props
    ensures |Initialize(Initialize(m, j).mgr, k).mgr.resolver| == |m.resolver| + 2
  {
  }

  /* ---------------------------------------------------------------------- */
  /* The resolution callback                                                */

  /** A resolved URL is handed to `login`; a login that fails with a
      JaxmppException becomes an undefined-condition Error, any other
      exception escapes, and a null client fails before logging in. */
  lemma UrlResolvedRule(m: Mgr, url: Option<string>, login: Outcome)
    ensures m.jaxmpp.None? ==> OnUrlResolved(m, url, login) == MgrStep(m, Raised(NullReference))
    ensures m.jaxmpp.Some? ==> OnUrlResolved(m, url, login).mgr.logins == m.logins + [url]
    ensures m.jaxmpp.Some? ==>
      (OnUrlResolved(m, url, login).mgr.events ==
         m.events + (if login.Raised? && login.fault.IsJaxmppException() then [Error(Some(UNDEFINED_CONDITION), None)] else []))
    ensures m.jaxmpp.Some? ==>
      (OnUrlResolved(m, url, login).out.Raised? <==> login.Raised? && !login.fault.IsJaxmppException())
    ensures OnUrlResolved(m, url, login).mgr.resolver == m.resolver
  {
  }

  /** A failed resolution fires exactly one remote-connection-failed Error. */
  lemma UrlFailedRule(m: Mgr)
    ensures OnUrlFailed(m) == m.(events := m.events + [Error(Some(REMOTE_CONNECTION_FAILED), None)])
  {
  }
}
