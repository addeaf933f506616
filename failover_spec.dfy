/** The GWT failover controller (`ConnectionManager`) as pure functions over a
    snapshot of its state. It listens to the connector's stage changes and
    see-other-host events and asks the web DNS resolver for another endpoint;
    the resolver and the event bus are logs of the calls made to them. The
    class in Failover is proved to follow these functions. */
module FailoverSpec {
  import opened Common
  import opened Session

  /** The delay, in milliseconds, of the reconnect timer. */
  const RECONNECT_DELAY: int := 10
  /** `StreamError.undefined_condition` */
  const UNDEFINED_CONDITION := "undefined-condition"
  /** `StreamError.remote_connection_failed` */
  const REMOTE_CONNECTION_FAILED := "remote-connection-failed"

  /** A call made on the web DNS resolver: `hostFailure(url)`, or
      `getHostForDomain(domain, seeHost, callback)` where `withCallback` says
      whether the callback passed was already created (it is null before the
      first `initialize`). */
  datatype ResolverCall =
    | HostFailure(url: Option<string>)
    | GetHostForDomain(domain: Option<string>, seeHost: Option<string>, withCallback: bool)

  /** The manager's state: the session object of its context, the client it
      logs in with (`jaxmpp`, identified by a number, None while null),
      whether the resolution callback exists, the resolver calls made, the
      events fired, the delays of the reconnect timers still pending, and the
      URLs `login` was called with. */
  datatype Mgr = Mgr(
    props: Props,
    jaxmpp: Option<nat>,
    callback: bool,
    resolver: seq<ResolverCall>,
    events: seq<Event>,
    timers: seq<int>,
    logins: seq<Option<string>>)

  /** The manager after `initialize`, and what it answered. */
  datatype InitStep = InitStep(mgr: Mgr, ready: bool)

  /** The manager after a resolver callback, and how the callback ended. */
  datatype MgrStep = MgrStep(mgr: Mgr, out: Outcome)

  /** The domain `connectionFailure` asks about: DOMAIN_NAME, else the domain
      of the user's bare JID, else null. */
  function Domain(p: Props): Option<string>
  {
    if Text(p, DomainNameKey).Some? then Text(p, DomainNameKey)
    else if UserJid(p).Some? then Some(UserJid(p).value.domain)
    else None
  }

  /** `connectionFailure(seeHost, hostFailure)` */
  function ConnectionFailure(m: Mgr, seeHost: Option<string>, hostFailure: bool): Mgr
  {
    var reported := if hostFailure then [HostFailure(Text(m.props, ServiceUrlKey))] else [];
    m.(resolver := m.resolver + reported + [GetHostForDomain(Domain(m.props), seeHost, m.callback)])
  }

  /** `initialize(jaxmpp)`: the client and the callback are kept from the first
      call; without a service URL a resolution is requested. The answer says
      whether a service URL is set. */
  function Initialize(m: Mgr, j: Option<nat>): InitStep
  {
    var m1 := m.(jaxmpp := if m.jaxmpp.None? then j else m.jaxmpp, callback := true);
    var hasUrl := Get(m.props, ServiceUrlKey).Some?;
    InitStep(if hasUrl then m1 else ConnectionFailure(m1, None, false), hasUrl)
  }

  /** `onStateChanged(sessionObject, oldState, newState)`: only a connector that
      drops to disconnecting while still connecting schedules a reconnect. */
  function OnStateChanged(m: Mgr, from: Option<State>, to: State): Mgr
  {
    if from == Some(to) then m
    else if to == Disconnecting && from == Some(Connecting) then m.(timers := m.timers + [RECONNECT_DELAY])
    else m
  }

  /** The oldest pending reconnect timer fires: `connectionFailure(null, true)`. */
  function RunReconnectTimer(m: Mgr): Mgr
  {
    if m.timers == [] then m
    else ConnectionFailure(m.(timers := m.timers[1..]), None, true)
  }

  /** `onSeeOtherHost(seeHost, handled)`, apart from the `handled` flag, which
      it always sets. */
  function OnSeeOtherHost(m: Mgr, seeHost: Option<string>): Mgr
  {
    ConnectionFailure(m, seeHost, false)
  }

  /** The callback's `onUrlResolved(domain, url)`; `login` is how
      `jaxmpp.login(url)` ends. */
  function OnUrlResolved(m: Mgr, url: Option<string>, login: Outcome): MgrStep
  {
    if m.jaxmpp.None? then MgrStep(m, Raised(NullReference))
    else
      var m1 := m.(logins := m.logins + [url]);
      if login.Raised? && login.fault.IsJaxmppException() then
        MgrStep(m1.(events := m1.events + [Error(Some(UNDEFINED_CONDITION), None)]), Normal)
      else MgrStep(m1, login)
  }

  /** The callback's `onUrlFailed()` */
  function OnUrlFailed(m: Mgr): Mgr
  {
    m.(events := m.events + [Error(Some(REMOTE_CONNECTION_FAILED), None)])
  }
}
