/** What every connector shares: the connector stage, the scoped property store
    of the session object, the events published on the event bus, the faults
    (Java exceptions) an operation can raise, and the from/to addressing rule of
    the stream header. */
module Session {
  import opened Common
  import opened Xml

  /** `Connector.State`. */
  datatype State = Disconnected | Connecting | Connected | Disconnecting

  /** `SessionObject.Scope`: stream-scoped entries die with the stream. */
  datatype Scope = SessionScope | StreamScope | UserScope

  /** The property names the connectors read or write. */
  datatype Key =
    | StageKey                     // CONNECTOR_STAGE_KEY
    | DisableKeepaliveKey          // DISABLE_KEEPALIVE_KEY
    | ExternalKeepaliveKey         // EXTERNAL_KEEPALIVE_KEY
    | EncryptedKey                 // ENCRYPTED_KEY
    | CompressedKey                // COMPRESSED_KEY
    | ReconnectingKey              // RECONNECTING_KEY
    | SeeOtherHostKey              // SEE_OTHER_HOST_KEY
    | ServerHostKey                // SERVER_HOST
    | ServerPortKey                // SERVER_PORT
    | UserBareJidKey               // USER_BARE_JID
    | DomainNameKey                // DOMAIN_NAME
    | PlainSocketTimeoutKey        // PLAIN_SOCKET_TIMEOUT_KEY
    | KeepAliveDelayKey            // KEEP_ALIVE_DELAY_KEY
    | UsePlainSslKey               // USE_PLAIN_SSL_KEY
    | UseBouncyCastleKey           // USE_BOUNCYCASTLE_KEY
    | HostnameVerifierDisabledKey  // HOSTNAME_VERIFIER_DISABLED_KEY
    | HostnameVerifierKey          // HOSTNAME_VERIFIER_KEY
    | StreamFeaturesKey            // the features element kept by the stream-features module
    | ServiceUrlKey                // BOSH_SERVICE_URL_KEY (also the WebSocket URL)
    | ForceRfcKey                  // WebSocketConnector.FORCE_RFC_KEY

  /** A bare JID `local@domain` (the local part may be absent). */
  datatype Jid = Jid(local: Option<string>, domain: string)

  /** `BareJID.toString()` */
  function JidText(j: Jid): string
  {
    match j.local
    case None => j.domain
    case Some(l) => l + "@" + j.domain
  }

  /** The hostname verifier stored in the session: the built-in one or a caller's. */
  datatype Verifier = DefaultVerifier | CustomVerifier(id: nat)

  datatype Value =
    | VState(state: State)
    | VBool(flag: bool)
    | VInt(num: int)
    | VText(text: string)
    | VJid(jid: Jid)
    | VElement(elem: Element)
    | VVerifier(verifier: Verifier)

  datatype Entry = Entry(scope: Scope, value: Value)

  /** The session object: each present key holds a value and the scope it was set in. */
  type Props = map<Key, Entry>

  /** `getProperty(key)` together with the scope the value was set in. */
  function Get(p: Props, k: Key): Option<Entry>
  {
    if k in p then Some(p[k]) else None
  }

  /** `setProperty(scope, key, value)` with a value that is not null. */
  function Put(p: Props, scope: Scope, k: Key, v: Value): Props
  {
    p[k := Entry(scope, v)]
  }

  /** `setProperty(key, null)`: the key is removed. */
  function Remove(p: Props, k: Key): Props
  {
    p - {k}
  }

  /** `setProperty(scope, key, value)` for a value that may be null. */
  function Store(p: Props, scope: Scope, k: Key, v: Option<Value>): Props
  {
    match v
    case None => Remove(p, k)
    case Some(x) => Put(p, scope, k, x)
  }

  /** Setting a property changes that property only: it then holds the value
      with the scope it was set in, or is gone for a null value. */
  lemma StoreRule(p: Props, scope: Scope, k: Key, v: Option<Value>)
    ensures Get(Store(p, scope, k, v), k) == (if v.Some? then Some(Entry(scope, v.value)) else None)
    ensures forall j :: j != k ==> Get(Store(p, scope, k, v), j) == Get(p, j)
  {
  }

  /** `clear(scope)`: every entry of that scope is dropped, every other one kept. */
  function ClearScope(p: Props, scope: Scope): (q: Props)
    ensures forall j {:trigger Get(q, j)} :: Get(q, j) == (if Get(p, j).Some? && Get(p, j).value.scope != scope then Get(p, j) else None)
  {
    map k | k in p && p[k].scope != scope :: p[k]
  }

  /** A Boolean property (`getProperty(key)` read as a `Boolean`). */
  function Flag(p: Props, k: Key): Option<bool>
  {
    match Get(p, k)
    case Some(Entry(_, VBool(b))) => Some(b)
    case _ => None
  }

  function Number(p: Props, k: Key): Option<int>
  {
    match Get(p, k)
    case Some(Entry(_, VInt(n))) => Some(n)
    case _ => None
  }

  function Text(p: Props, k: Key): Option<string>
  {
    match Get(p, k)
    case Some(Entry(_, VText(t))) => Some(t)
    case _ => None
  }

  function Stage(p: Props): Option<State>
  {
    match Get(p, StageKey)
    case Some(Entry(_, VState(s))) => Some(s)
    case _ => None
  }

  function UserJid(p: Props): Option<Jid>
  {
    match Get(p, UserBareJidKey)
    case Some(Entry(_, VJid(j))) => Some(j)
    case _ => None
  }

  function Features(p: Props): Option<Element>
  {
    match Get(p, StreamFeaturesKey)
    case Some(Entry(_, VElement(e))) => Some(e)
    case _ => None
  }

  /** A candidate server: `SocketConnector.Entry`. */
  datatype HostEntry = HostEntry(hostname: string, port: int)

  /** The exceptions a connector operation can raise. */
  datatype Fault =
    | NullReference              // NullPointerException
    | IndexOutOfRange            // StringIndexOutOfBoundsException
    | NotConnected               // JaxmppException("Not connected")
    | CannotCreateSocket         // JaxmppException("Cannot create socket.")
    | ConnectFailed(host: HostEntry)  // an IOException other than no-route or unknown-host
    | TlsFailure                 // the TLS handshake or the hostname check failed
    | NonPositivePeriod          // IllegalArgumentException from Timer.schedule
    | StartFailed(cause: Fault)  // JaxmppException wrapping what made start fail
    | LoginFailed                // JaxmppException from Jaxmpp.login
    | MalformedXml               // the browser's XML parser rejected a frame
    | SendFailed                 // JaxmppException wrapping an IOException of write or flush
    | SocketClosed               // SocketException from the streams of a closed socket
  {
    /** Whether the fault is a `JaxmppException`, the only kind some handlers catch. */
    predicate IsJaxmppException()
    {
      NotConnected? || CannotCreateSocket? || StartFailed? || LoginFailed? || SendFailed?
    }
  }

  /** How a Java operation ended: normally or by throwing. */
  datatype Outcome = Normal | Raised(fault: Fault)

  /** The keepalive timer task: none, created but not scheduled, or repeating. */
  datatype Ping = NoPing | PingIdle | PingEvery(period: int)

  /** The events a connector publishes on the event bus. */
  datatype Event =
    | StateChanged(from: Option<State>, to: State)
    | StreamTerminated
    | StreamRestarted
    | ConnectedEvent
    | DisconnectedEvent
    | EncryptionEstablished
    | HostChanged
    | StanzaReceived(stanza: Element)
    | Error(condition: Option<string>, cause: Option<Fault>)
    | SeeOtherHost(target: Option<string>)

  /** The events `setStage` fires when the stored stage goes from `prev` to `next`:
      one StateChanged, followed by StreamTerminated when the new stage is
      disconnected, and nothing at all when the stage does not change. */
  function StageEvents(prev: Option<State>, next: State): seq<Event>
  {
    if prev == Some(next) then []
    else [StateChanged(prev, next)] + (if next == Disconnected then [StreamTerminated] else [])
  }

  /** A stage change fires exactly one StateChanged, and StreamTerminated after
      it exactly when the new stage is disconnected; staying put fires nothing. */
  lemma StageEventsRule(prev: Option<State>, next: State)
    ensures StageEvents(prev, next) == [] <==> prev == Some(next)
    ensures prev != Some(next) ==> StageEvents(prev, next)[0] == StateChanged(prev, next)
    ensures prev != Some(next) ==> |StageEvents(prev, next)| == (if next == Disconnected then 2 else 1)
    ensures |StageEvents(prev, next)| == 2 ==> StageEvents(prev, next)[1] == StreamTerminated
  {
  }

  /** The `from` and `to` attributes of a stream header. */
  datatype Address = Address(from: Option<string>, to: Option<string>)

  /** The addressing rule of both stream headers: with a user JID, and unless
      SEE_OTHER_HOST_KEY is explicitly false, the header names the JID as `from`
      and its domain as `to`; otherwise `to` is DOMAIN_NAME and there is no `from`. */
  function Addressing(jid: Option<Jid>, seeOtherHost: Option<bool>, domain: Option<string>): Address
  {
    if jid.Some? && (seeOtherHost.None? || seeOtherHost.value) then
      Address(Some(JidText(jid.value)), Some(jid.value.domain))
    else
      Address(None, domain)
  }

  /** The header has a `from` exactly when there is a user JID and
      SEE_OTHER_HOST_KEY is not false; `from` is then the JID and `to` its
      domain, and otherwise `to` is the configured domain. */
  lemma AddressingRule(jid: Option<Jid>, seeOtherHost: Option<bool>, domain: Option<string>)
    ensures Addressing(jid, seeOtherHost, domain).from.Some? <==> jid.Some? && seeOtherHost != Some(false)
    ensures Addressing(jid, seeOtherHost, domain).from.Some? ==>
      Addressing(jid, seeOtherHost, domain) == Address(Some(JidText(jid.value)), Some(jid.value.domain))
    ensures Addressing(jid, seeOtherHost, domain).from.None? ==> Addressing(jid, seeOtherHost, domain).to == domain
  {
  }

  /** The addressing of the session object's current header. */
  function HeaderAddress(p: Props): Address
  {
    Addressing(UserJid(p), Flag(p, SeeOtherHostKey), Text(p, DomainNameKey))
  }

  /** One `name='value' ` attribute, or nothing for a null value. */
  function Attribute(name: string, v: Option<string>): string
  {
    match v
    case None => ""
    case Some(x) => name + "='" + x + "' "
  }

  /** The `from='…' to='…' ` part of a header. */
  function AddressAttributes(a: Address): string
  {
    Attribute("from", a.from) + Attribute("to", a.to)
  }
}
