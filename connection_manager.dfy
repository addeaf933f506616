/** The failover controller as a mutable object. Each handler updates the
    fields the way `ConnectionManager` does and is proved to end in the state
    that the matching FailoverSpec function gives; what the controller
    promises is proved about those functions in FailoverProperties. */
module Failover {
  import opened Common
  import opened Session
  import opened FailoverSpec

  class ConnectionManager {
    /** the session object of the context given by `setContext` */
    var props: Props
    /** `jaxmpp`, identified by a number; None while null */
    var jaxmpp: Option<nat>
    /** whether `webDnsCallback` was created */
    var callback: bool
    /** the calls made on the web DNS resolver */
    var resolver: seq<ResolverCall>
    /** what was fired on the context's event bus */
    var events: seq<Event>
    /** the delays of the reconnect timers scheduled and not yet run */
    var timers: seq<int>
    /** the URLs `jaxmpp.login` was called with */
    var logins: seq<Option<string>>

    /** The fields as one value. */
    function Model(): Mgr
      reads this
    {
      Mgr(props, jaxmpp, callback, resolver, events, timers, logins)
    }

    /** `new ConnectionManager()` followed by `setContext(context)`, the
        context's session object holding `p`. */
    constructor(p: Props)
      ensures Model() == Mgr(p, None, false, [], [], [], [])
    {
      props := p;
      jaxmpp := None;
      callback := false;
      resolver := [];
      events := [];
      timers := [];
      logins := [];
    }

    method ConnectionFailure(seeHost: Option<string>, hostFailure: bool)
      modifies this
      ensures Model() == FailoverSpec.ConnectionFailure(old(Model()), seeHost, hostFailure)
    {
      if hostFailure {
        var url := Text(props, ServiceUrlKey);
        resolver := resolver + [HostFailure(url)];
      }
      var domain := Text(props, DomainNameKey);
      if domain.None? {
        var userJid := UserJid(props);
        if userJid.Some? {
          domain := Some(userJid.value.domain);
        }
      }
      resolver := resolver + [GetHostForDomain(domain, seeHost, callback)];
    }

    /** `initialize(jaxmpp)`; `ready` is its answer. */
    method Initialize(j: Option<nat>) returns (ready: bool)
      modifies this
      ensures InitStep(Model(), ready) == FailoverSpec.Initialize(old(Model()), j)
    {
      if jaxmpp.None? {
        jaxmpp := j;
      }
      if !callback {
        callback := true;
      }
      if ServiceUrlKey !in props {
        ConnectionFailure(None, false);
      }
      ready := ServiceUrlKey in props;
    }

    /** `onStateChanged(sessionObject, oldState, newState)` */
    method OnStateChanged(from: Option<State>, to: State)
      modifies this
      ensures Model() == FailoverSpec.OnStateChanged(old(Model()), from, to)
    {
      if from == Some(to) {
        return;
      }
      if to == Disconnecting && from == Some(Connecting) {
        timers := timers + [RECONNECT_DELAY];
      }
    }

    /** The oldest pending reconnect timer runs. */
    method RunReconnectTimer()
      modifies this
      ensures Model() == FailoverSpec.RunReconnectTimer(old(Model()))
    {
      if timers == [] {
        return;
      }
      timers := timers[1..];
      ConnectionFailure(None, true);
    }

    /** `onSeeOtherHost(seeHost, handled)`; `handled` is the value left in the flag. */
    method OnSeeOtherHost(seeHost: Option<string>) returns (handled: bool)
      modifies this
      ensures handled
      ensures Model() == FailoverSpec.OnSeeOtherHost(old(Model()), seeHost)
    {
      handled := true;
      ConnectionFailure(seeHost, false);
    }

    /** The callback's `onUrlResolved(domain, url)`; `login` is how
        `jaxmpp.login(url)` ends. */
    method OnUrlResolved(url: Option<string>, login: Outcome) returns (out: Outcome)
      modifies this
      ensures MgrStep(Model(), out) == FailoverSpec.OnUrlResolved(old(Model()), url, login)
    {
      if jaxmpp.None? {
        return Raised(NullReference);
      }
      logins := logins + [url];
      if login.Raised? && login.fault.IsJaxmppException() {
        events := events + [Error(Some(UNDEFINED_CONDITION), None)];
        return Normal;
      }
      out := login;
    }

    /** The callback's `onUrlFailed()` */
    method OnUrlFailed()
      modifies this
      ensures Model() == FailoverSpec.OnUrlFailed(old(Model()))
    {
      events := events + [Error(Some(REMOTE_CONNECTION_FAILED), None)];
    }
  }
}
