# jaxmpp transport layer in Dafny

This project models the connection layer of jaxmpp, a Java XMPP client library.
It covers three classes:

- `SocketConnector` is the TCP connector of the J2SE build. It picks a host, opens
  the XML stream, upgrades it to TLS or zlib, routes incoming elements, handles
  stream errors and see-other-host redirects, and keeps the connection alive with
  a whitespace ping.
- `WebSocketConnector` is the XMPP-over-WebSocket connector of the GWT build
  (RFC 7395 framing, or the older `<stream:stream>` framing). It rewrites each
  incoming frame into a parseable document and dispatches the children, sends the
  stream headers, and switches once from the legacy framing to RFC framing.
- `ConnectionManager` is the GWT failover controller. It answers stage changes
  and see-other-host events by asking the web DNS resolver for another endpoint.

Each connector is modelled in three layers:

- A spec module (`SocketSpec`, `WebSocketSpec`, `FailoverSpec`) holds pure
  functions over a snapshot of the object's state. Each function maps the state
  before a call to the state after it, together with the `Outcome` (normal return
  or the Java exception thrown).
- A class (`SocketTransport.SocketConnector`, `WebSocketTransport.WebSocketConnector`,
  `Failover.ConnectionManager`) has the Java object's fields. Its methods update
  them step by step, and each is proved to end in the state the spec function
  gives.
- A properties module (`SocketProperties`, `WebSocketProperties`,
  `FailoverProperties`) proves what the connector promises about the spec
  functions.

Shared pieces live in their own modules:

- `Session` holds the connector stage, the scoped property store of the session
  object, events, faults and the from/to rule of the stream header.
- `Xml` holds the element tree and child lookups.
- `WebSocketFrames` holds the frame rewrite and the WebSocket headers.
- `Common` holds option and string helpers.

The rest of the system is modelled as follows:

- The event bus is an append-only log of events.
- What is written to a socket is a log of structured outputs. `Render` gives the
  bytes.
- Outside collaborators are parameters: DNS, connect attempts, the TLS handshake
  result, the browser's XML parser, and the result of `login`.

Where the system's specification and the code disagree, the model follows the
code:

- The WebSocket fallback switches from the legacy framing *to* RFC framing.
  `onClose` sets `rfcCompatible = true` and starts again.
- WebSocket `stop` moves to disconnecting and never to disconnected. A second
  `stop` therefore fires Disconnected again.
- WebSocket `stop` never sends the closing tag. `terminateStream` only sends it
  when the stage is connected or connecting, and `stop` has already set
  disconnecting by then.
- A successful TLS upgrade does not clear the stream-scoped properties. Only
  ENCRYPTED and the keepalive flag are written.
- A ping delay of exactly 0 makes the socket `start` fail, because
  `Timer.schedule` refuses a period that is not positive.
- The socket `start` checks `socket == null` after its host loop, and the field
  is never reset, so a socket left from an earlier connection is used when no
  host is reached (see Findings). The intended check is modelled beside it as
  `SocketSpec.StartIntended`.
- The WebSocket frame rewrite is the code's, which throws for a frame such as
  `<stream:features/>`. The intended rewrite is modelled beside it as
  `WebSocketFrames.Rewrite` (see Findings).

## Model

| member | source | states |
|---|---|---|
| Session.StageEventsRule | jaxmpp-j2se/src/main/java/tigase/jaxmpp/j2se/connectors/socket/SocketConnector.java:819-833 | a stage change fires exactly one StateChanged(old, new), followed by StreamTerminated exactly when the new stage is disconnected; an unchanged stage fires nothing |
| Session.AddressingRule | jaxmpp-j2se/src/main/java/tigase/jaxmpp/j2se/connectors/socket/SocketConnector.java:257-269 | the header has a `from` iff a user JID is set and SEE_OTHER_HOST_KEY is not false; `from` is then the JID and `to` its domain, otherwise `to` is DOMAIN_NAME |
| SocketSpec.IsTlsAvailable | jaxmpp-j2se/src/main/java/tigase/jaxmpp/j2se/connectors/socket/SocketConnector.java:125-132 | true iff stream features are stored and contain a `starttls` child in the xmpp-tls namespace |
| SocketSpec.IsZlibAvailable | jaxmpp-j2se/src/main/java/tigase/jaxmpp/j2se/connectors/socket/SocketConnector.java:143-160 | the loop answers true iff the features hold a compress-namespace `compression` element whose `method` children include one with value "zlib" |
| SocketSpec.ErrorConditionRule | jaxmpp-j2se/src/main/java/tigase/jaxmpp/j2se/connectors/socket/SocketConnector.java:555-569 | the Error event carries no condition iff the response has no child in the stream-errors namespace, and otherwise the name of the first such child |
| SocketSpec.Timeout | jaxmpp-j2se/src/main/java/tigase/jaxmpp/j2se/connectors/socket/SocketConnector.java:670-674 | the property value, or the default when absent; null iff that value is negative |
| SocketSpec.HostFromSession | jaxmpp-j2se/src/main/java/tigase/jaxmpp/j2se/connectors/socket/SocketConnector.java:901-909 | a pinned host exists iff SERVER_HOST is set; its name is SERVER_HOST and its port 5222 when SERVER_PORT is absent |
| SocketSpec.SetupVerifier | jaxmpp-j2se/src/main/java/tigase/jaxmpp/j2se/connectors/socket/SocketConnector.java:338-342 | a disabled verifier removes HOSTNAME_VERIFIER_KEY, a missing one gets the default, and no other property changes |
| SocketSpec.FirstReachable | jaxmpp-j2se/src/main/java/tigase/jaxmpp/j2se/connectors/socket/SocketConnector.java:377-384 | the host loop is exhausted iff every candidate fails with no-route or unknown-host; otherwise it stops at a candidate of the list |
| SocketProperties.SetStageStoresStage | jaxmpp-j2se/src/main/java/tigase/jaxmpp/j2se/connectors/socket/SocketConnector.java:819-833 | `setStage` stores the stage, fires its events only on a change, changes nothing else, and does nothing without a context |
| SocketProperties.SetStageIdempotent | jaxmpp-j2se/src/main/java/tigase/jaxmpp/j2se/connectors/socket/SocketConnector.java:819-833 | setting the same stage a second time fires nothing |
| SocketProperties.KeepaliveWritesSpaceOnlyWhenConnected | jaxmpp-j2se/src/main/java/tigase/jaxmpp/j2se/connectors/socket/SocketConnector.java:206-213 | the keepalive writes exactly the byte 32, and only when DISABLE_KEEPALIVE is not true, the stage is connected and a writer exists; a write on a closed or reset socket raises the wrapped IOException and changes nothing |
| SocketProperties.PingDelayRule | jaxmpp-j2se/src/main/java/tigase/jaxmpp/j2se/connectors/socket/SocketConnector.java:457-471 | the ping period is KEEP_ALIVE_DELAY_KEY when set, else the plain socket timeout minus 5000; a negative value means no ping |
| SocketProperties.PingDelayReadsTwoKeys | jaxmpp-j2se/src/main/java/tigase/jaxmpp/j2se/connectors/socket/SocketConnector.java:457-471 | the ping period depends only on KEEP_ALIVE_DELAY_KEY and the plain socket timeout |
| SocketProperties.DefaultTimeoutMeansNoPing | jaxmpp-j2se/src/main/java/tigase/jaxmpp/j2se/connectors/socket/SocketConnector.java:457-471 | with the default timeout of 0, a ping is scheduled iff KEEP_ALIVE_DELAY_KEY is set to a value that is not negative |
| SocketProperties.PinnedHostIsOnlyCandidate | jaxmpp-j2se/src/main/java/tigase/jaxmpp/j2se/connectors/socket/SocketConnector.java:347-369 | a pinned SERVER_HOST is the only candidate; the resolver is not consulted |
| SocketProperties.PrepareFacts | jaxmpp-j2se/src/main/java/tigase/jaxmpp/j2se/connectors/socket/SocketConnector.java:328-371 | before its loop `start` is connecting, with a fresh timer and only the stage events fired; every setting other than the stage, the verifier and DISABLE_KEEPALIVE is left alone |
| SocketProperties.PrepareKeepsKey | jaxmpp-j2se/src/main/java/tigase/jaxmpp/j2se/connectors/socket/SocketConnector.java:338-369 | every setting other than the stage, the hostname verifier and DISABLE_KEEPALIVE reads the same after the preparation at the head of `start` |
| SocketProperties.PrepareKeepsCandidates | jaxmpp-j2se/src/main/java/tigase/jaxmpp/j2se/connectors/socket/SocketConnector.java:338-369 | the loop sees the candidates the caller configured |
| SocketProperties.PrepareKeepsKeepalive | jaxmpp-j2se/src/main/java/tigase/jaxmpp/j2se/connectors/socket/SocketConnector.java:371-471 | the ping delay, USE_PLAIN_SSL_KEY and EXTERNAL_KEEPALIVE_KEY read after the loop are the caller's |
| SocketProperties.StartReached | jaxmpp-j2se/src/main/java/tigase/jaxmpp/j2se/connectors/socket/SocketConnector.java:377-436 | a loop that reaches a host opens the stream on that host |
| SocketProperties.OpenPlain | jaxmpp-j2se/src/main/java/tigase/jaxmpp/j2se/connectors/socket/SocketConnector.java:390-473 | a plain open writes the header, reaches connected and schedules the ping by the delay rule; a period of 0, or a header that cannot be written, makes `start` fail and tear down |
| SocketProperties.StartFailsWhenNoHostReachable | jaxmpp-j2se/src/main/java/tigase/jaxmpp/j2se/connectors/socket/SocketConnector.java:377-388 | with the intended check (`SocketSpec.StartIntended`), when every candidate is skipped `start` fails with "Cannot create socket." and tears down (no ping, no timer) |
| SocketProperties.StartWhenNoHostReachable | jaxmpp-j2se/src/main/java/tigase/jaxmpp/j2se/connectors/socket/SocketConnector.java:377-388 | in the code's `start`, when every candidate is skipped, "Cannot create socket." comes only with no socket in the field; a closed leftover socket fails on its streams, and an open one is used to open the stream |
| SocketProperties.StartUsesFirstReachableHost | jaxmpp-j2se/src/main/java/tigase/jaxmpp/j2se/connectors/socket/SocketConnector.java:377-384 | `start` connects to the first candidate not skipped, with a fresh plain socket to it, and every earlier one failed with no-route or unknown-host |
| SocketProperties.OpenKeepsSocket | jaxmpp-j2se/src/main/java/tigase/jaxmpp/j2se/connectors/socket/SocketConnector.java:390-473 | opening the stream, whether it reaches connected or fails, leaves the socket the host loop chose in place |
| SocketProperties.ZeroPingDelayFailsStart | jaxmpp-j2se/src/main/java/tigase/jaxmpp/j2se/connectors/socket/SocketConnector.java:457-478 | a ping period of exactly 0 makes `start` fail and tears the connection down |
| SocketProperties.DefaultStartSchedulesNoPing | jaxmpp-j2se/src/main/java/tigase/jaxmpp/j2se/connectors/socket/SocketConnector.java:457-471 | with default settings a successful start schedules no ping |
| SocketProperties.OpenWithoutPingConnects | jaxmpp-j2se/src/main/java/tigase/jaxmpp/j2se/connectors/socket/SocketConnector.java:427-473 | an open with no ping to schedule ends connected, with Connected as the last event, unless the header cannot be written, which makes `start` fail |
| SocketProperties.DefaultStartEndsConnected | jaxmpp-j2se/src/main/java/tigase/jaxmpp/j2se/connectors/socket/SocketConnector.java:328-479 | with default settings a start that reaches a host ends connected, with Connected last |
| SocketProperties.StopClosesStream | jaxmpp-j2se/src/main/java/tigase/jaxmpp/j2se/connectors/socket/SocketConnector.java:511-525 | `stop` moves to disconnecting, writes `</stream:stream>` through the current writer, and cancels ping and timer; it reaches disconnected at once without a socket, or when the closing tag cannot be written (the catch branch), and otherwise leaves the close to the timer |
| SocketProperties.StopWhenDisconnected | jaxmpp-j2se/src/main/java/tigase/jaxmpp/j2se/connectors/socket/SocketConnector.java:512-515 | `stop` when disconnected changes nothing |
| SocketProperties.StopNowRule | jaxmpp-j2se/src/main/java/tigase/jaxmpp/j2se/connectors/socket/SocketConnector.java:527-545 | `stop(true)` cancels the ping, closes the socket so every later write throws, sets disconnected and drops the context, writing nothing; without a socket it throws |
| SocketProperties.CloseTimerElapsedRule | jaxmpp-j2se/src/main/java/tigase/jaxmpp/j2se/connectors/socket/SocketConnector.java:1156-1171 | the close timer sets disconnected, drops the context, closes the socket and clears the pending close, writing nothing; it throws only when the socket is gone |
| SocketProperties.OnErrorInThreadRule | jaxmpp-j2se/src/main/java/tigase/jaxmpp/j2se/connectors/socket/SocketConnector.java:691-697 | on a disconnected connector nothing changes; otherwise `onError(null, e)`: ping cancelled, timer dropped, a close pending on a socket (disconnected without one), and an Error with the fault as the last event |
| SocketProperties.ProcessElementRouting | jaxmpp-j2se/src/main/java/tigase/jaxmpp/j2se/connectors/socket/SocketConnector.java:215-250 | the xmpp-tls namespace goes to the TLS handler (`proceed` upgrades, `failure` only logs), the compress namespace to the zlib handler, a stream error to `onError`, and anything else to exactly one StanzaReceived |
| SocketProperties.StreamErrorFiresError | jaxmpp-j2se/src/main/java/tigase/jaxmpp/j2se/connectors/socket/SocketConnector.java:676-689 | a stream error without see-other-host cancels ping and timer and ends with an Error carrying the error's condition |
| SocketProperties.BeforeReconnectProps | jaxmpp-j2se/src/main/java/tigase/jaxmpp/j2se/connectors/socket/SocketConnector.java:1121-1127 | only the stage and RECONNECTING entries differ between the caller's properties and those `reconnect` clears |
| SocketProperties.ReconnectTearsDown | jaxmpp-j2se/src/main/java/tigase/jaxmpp/j2se/connectors/socket/SocketConnector.java:1121-1141 | `reconnect` drops worker, reader, writer and ping, keeps the socket for the close timer, and fires nothing while a socket is open |
| SocketProperties.ReconnectEvents | jaxmpp-j2se/src/main/java/tigase/jaxmpp/j2se/connectors/socket/SocketConnector.java:1121-1141 | `reconnect` fires nothing while a socket is open, and otherwise only the stage events of going disconnected |
| SocketProperties.ReconnectPinsHost | jaxmpp-j2se/src/main/java/tigase/jaxmpp/j2se/connectors/socket/SocketConnector.java:1124-1133 | afterwards RECONNECTING is true and SERVER_HOST is the new host, both session-scoped |
| SocketProperties.ReconnectClearsStreamScope | jaxmpp-j2se/src/main/java/tigase/jaxmpp/j2se/connectors/socket/SocketConnector.java:1127 | afterwards no property is stream-scoped |
| SocketProperties.ReconnectKeepsSessionSettings | jaxmpp-j2se/src/main/java/tigase/jaxmpp/j2se/connectors/socket/SocketConnector.java:1124-1133 | every other property that was not stream-scoped keeps its value |
| SocketProperties.SeeOtherHostRouting | jaxmpp-j2se/src/main/java/tigase/jaxmpp/j2se/connectors/socket/SocketConnector.java:676-685 | a see-other-host stream error is handled by `reconnect` with the new host |
| SocketProperties.SeeOtherHostReconnects | jaxmpp-j2se/src/main/java/tigase/jaxmpp/j2se/connectors/socket/SocketConnector.java:1121-1141 | a see-other-host error sets RECONNECTING, clears the stream scope, pins SERVER_HOST and drops worker, reader and writer |
| SocketProperties.SeeOtherHostFiresNoError | jaxmpp-j2se/src/main/java/tigase/jaxmpp/j2se/connectors/socket/SocketConnector.java:676-689 | unlike every other stream error it fires no Error event |
| SocketProperties.WorkerTerminatedRestartsOnlyWhenReconnecting | jaxmpp-j2se/src/main/java/tigase/jaxmpp/j2se/connectors/socket/SocketConnector.java:1211-1235 | with RECONNECTING true the flag is cleared, HostChanged fired and `start` run; otherwise Disconnected is fired |
| SocketProperties.SeeOtherHostRestartsAgainstNewHost | jaxmpp-j2se/src/main/java/tigase/jaxmpp/j2se/connectors/socket/SocketConnector.java:1211-1235 | after a see-other-host, the reader's end restarts the connector with the new host as its only candidate |
| SocketProperties.AfterSeeOtherHostHost | jaxmpp-j2se/src/main/java/tigase/jaxmpp/j2se/connectors/socket/SocketConnector.java:347-352 | after a see-other-host reconnect and restart, SERVER_HOST is the new host |
| SocketProperties.AfterSeeOtherHostPort | jaxmpp-j2se/src/main/java/tigase/jaxmpp/j2se/connectors/socket/SocketConnector.java:347-352 | after it, SERVER_PORT is the caller's unless that was stream-scoped |
| SocketProperties.SeeOtherHostPinsCandidate | jaxmpp-j2se/src/main/java/tigase/jaxmpp/j2se/connectors/socket/SocketConnector.java:347-352 | that restart has exactly the new host as candidate |
| SocketProperties.SameAddressingSameHeader | jaxmpp-j2se/src/main/java/tigase/jaxmpp/j2se/connectors/socket/SocketConnector.java:253-280 | the header depends only on the user JID, SEE_OTHER_HOST_KEY and DOMAIN_NAME |
| SocketProperties.HostnameCheckedAgainstDomain | jaxmpp-j2se/src/main/java/tigase/jaxmpp/j2se/connectors/socket/SocketConnector.java:1091-1103 | a stored verifier is asked about the user JID's domain when a JID is set and about DOMAIN_NAME otherwise (`getHostname()`); without one no certificate is rejected |
| SocketProperties.HandshakeSucceeds | jaxmpp-j2se/src/main/java/tigase/jaxmpp/j2se/connectors/socket/SocketConnector.java:1028-1109 | a handshake the hostname check accepts restarts the stream over the upgraded connector; a restart header that cannot be written goes to `onError` |
| SocketProperties.TlsUpgradeEncrypts | jaxmpp-j2se/src/main/java/tigase/jaxmpp/j2se/connectors/socket/SocketConnector.java:1070-1117 | a successful TLS upgrade sets ENCRYPTED and enables keepalive again |
| SocketProperties.TlsUpgradeRestartsOnce | jaxmpp-j2se/src/main/java/tigase/jaxmpp/j2se/connectors/socket/SocketConnector.java:1070-1109 | it fires EncryptionEstablished, then restarts the stream exactly once with the same header through the TLS writer; when that header cannot be written, an Error follows instead and nothing is written |
| SocketProperties.OnErrorWithoutResponse | jaxmpp-j2se/src/main/java/tigase/jaxmpp/j2se/connectors/socket/SocketConnector.java:676-689 | `onError(null, e)` only tears down and fires an Error with the cause |
| SocketProperties.HandshakeFails | jaxmpp-j2se/src/main/java/tigase/jaxmpp/j2se/connectors/socket/SocketConnector.java:1093-1115 | a failed handshake hands the failure to `onError` without restarting or writing |
| SocketProperties.TlsFailureFiresError | jaxmpp-j2se/src/main/java/tigase/jaxmpp/j2se/connectors/socket/SocketConnector.java:1110-1118 | a failed upgrade tears down and fires an Error; keepalive is enabled again |
| SocketProperties.ZlibUpgradeRestartsOnce | jaxmpp-j2se/src/main/java/tigase/jaxmpp/j2se/connectors/socket/SocketConnector.java:750-817 | compression sets COMPRESSED and enables keepalive again, and restarts the stream once through the zlib writer, or, when the header cannot be written, tears down and fires an Error |
| SocketProperties.HeaderFromUser | jaxmpp-j2se/src/main/java/tigase/jaxmpp/j2se/connectors/socket/SocketConnector.java:257-262 | with a user JID and SEE_OTHER_HOST_KEY not false the header says `from='<jid>' to='<domain>'` |
| SocketProperties.HeaderToDomain | jaxmpp-j2se/src/main/java/tigase/jaxmpp/j2se/connectors/socket/SocketConnector.java:263-269 | otherwise it has no `from` and `to` is DOMAIN_NAME |
| SocketProperties.HeaderUnaddressed | jaxmpp-j2se/src/main/java/tigase/jaxmpp/j2se/connectors/socket/SocketConnector.java:263-273 | with neither, the header carries no address |
| SocketProperties.StreamTerminateFiresTwice | jaxmpp-j2se/src/main/java/tigase/jaxmpp/j2se/connectors/socket/SocketConnector.java:722-735 | an end of stream while connected fires StreamTerminated twice: from the stage change and from `onStreamTerminate` |
| SocketProperties.StaleSocketSurvivesReconnect | jaxmpp-j2se/src/main/java/tigase/jaxmpp/j2se/connectors/socket/SocketConnector.java:377-388 | after a see-other-host, when the new host fails with no-route, the old socket is still in the field and the code's `start` opens the stream on it; the intended check fails with "Cannot create socket." |
| SocketTransport.SocketConnector.constructor | jaxmpp-j2se/src/main/java/tigase/jaxmpp/j2se/connectors/socket/SocketConnector.java:162-165 | a connector with a context, nothing open and no events |
| SocketTransport.SocketConnector.GetState | jaxmpp-j2se/src/main/java/tigase/jaxmpp/j2se/connectors/socket/SocketConnector.java:182-188 | the stored stage; disconnected without a context or a stored stage |
| SocketTransport.SocketConnector.SetStage | jaxmpp-j2se/src/main/java/tigase/jaxmpp/j2se/connectors/socket/SocketConnector.java:819-833 | ends in `SocketSpec.SetStage` of the old state |
| SocketTransport.SocketConnector.Send | jaxmpp-j2se/src/main/java/tigase/jaxmpp/j2se/connectors/socket/SocketConnector.java:282-297 | the output is written through the current writer, or dropped without one; on a closed or reset socket the IOException comes back as a JaxmppException and nothing is recorded |
| SocketTransport.SocketConnector.Keepalive | jaxmpp-j2se/src/main/java/tigase/jaxmpp/j2se/connectors/socket/SocketConnector.java:206-213 | ends in `SocketSpec.Keepalive` of the old state |
| SocketTransport.SocketConnector.RestartStream | jaxmpp-j2se/src/main/java/tigase/jaxmpp/j2se/connectors/socket/SocketConnector.java:253-280 | ends in `SocketSpec.RestartStream`: header written and StreamRestarted fired, or the write failure passed on |
| SocketTransport.SocketConnector.TerminateStream | jaxmpp-j2se/src/main/java/tigase/jaxmpp/j2se/connectors/socket/SocketConnector.java:1200-1209 | writes `</stream:stream>` only when connected, connecting or disconnecting |
| SocketTransport.SocketConnector.TerminateAllWorkers | jaxmpp-j2se/src/main/java/tigase/jaxmpp/j2se/connectors/socket/SocketConnector.java:1143-1198 | cancels the ping, schedules the close timer when a socket is open and goes disconnected otherwise, and drops the timer |
| SocketTransport.SocketConnector.CloseTimerElapsed | jaxmpp-j2se/src/main/java/tigase/jaxmpp/j2se/connectors/socket/SocketConnector.java:1156-1171 | the close timer sets disconnected, drops the context and closes the socket |
| SocketTransport.SocketConnector.Stop | jaxmpp-j2se/src/main/java/tigase/jaxmpp/j2se/connectors/socket/SocketConnector.java:511-525 | ends in `SocketSpec.Stop`: disconnecting, the closing tag, disconnected when that write fails, then the teardown |
| SocketTransport.SocketConnector.StopNow | jaxmpp-j2se/src/main/java/tigase/jaxmpp/j2se/connectors/socket/SocketConnector.java:527-545 | `stop(true)`: ping cancelled, socket closed, disconnected, context dropped |
| SocketTransport.SocketConnector.FireOnConnected | jaxmpp-j2se/src/main/java/tigase/jaxmpp/j2se/connectors/socket/SocketConnector.java:547-553 | Connected is fired unless the stage is disconnected |
| SocketTransport.SocketConnector.FireOnError | jaxmpp-j2se/src/main/java/tigase/jaxmpp/j2se/connectors/socket/SocketConnector.java:555-569 | an Error with the response's first stream-error condition and the cause |
| SocketTransport.SocketConnector.Reconnect | jaxmpp-j2se/src/main/java/tigase/jaxmpp/j2se/connectors/socket/SocketConnector.java:1121-1141 | ends in `SocketSpec.Reconnect` of the old state |
| SocketTransport.SocketConnector.OnError | jaxmpp-j2se/src/main/java/tigase/jaxmpp/j2se/connectors/socket/SocketConnector.java:676-689 | ends in `SocketSpec.OnError` of the old state |
| SocketTransport.SocketConnector.OnFault | jaxmpp-j2se/src/main/java/tigase/jaxmpp/j2se/connectors/socket/SocketConnector.java:1110-1115 | `onError(null, e)` for a fault caught by an upgrade |
| SocketTransport.SocketConnector.OnErrorInThread | jaxmpp-j2se/src/main/java/tigase/jaxmpp/j2se/connectors/socket/SocketConnector.java:691-697 | nothing when disconnected, otherwise teardown and an Error |
| SocketTransport.SocketConnector.OnResponse | jaxmpp-j2se/src/main/java/tigase/jaxmpp/j2se/connectors/socket/SocketConnector.java:699-716 | a stream error goes to `onError`, anything else is one StanzaReceived |
| SocketTransport.SocketConnector.OnStreamTerminate | jaxmpp-j2se/src/main/java/tigase/jaxmpp/j2se/connectors/socket/SocketConnector.java:722-735 | nothing when disconnected; otherwise disconnected, teardown and StreamTerminated |
| SocketTransport.SocketConnector.Encrypt | jaxmpp-j2se/src/main/java/tigase/jaxmpp/j2se/connectors/socket/SocketConnector.java:1070-1085 | the handshake listener sets ENCRYPTED and fires EncryptionEstablished |
| SocketTransport.SocketConnector.Handshake | jaxmpp-j2se/src/main/java/tigase/jaxmpp/j2se/connectors/socket/SocketConnector.java:1028-1119 | ends in `SocketSpec.Handshake`: streams dropped, `getHostname()` checked by a stored verifier, then restart or `onError` |
| SocketTransport.SocketConnector.ProceedTls | jaxmpp-j2se/src/main/java/tigase/jaxmpp/j2se/connectors/socket/SocketConnector.java:737-743 | ends in `SocketSpec.ProceedTls` of the old state |
| SocketTransport.SocketConnector.ProceedZlib | jaxmpp-j2se/src/main/java/tigase/jaxmpp/j2se/connectors/socket/SocketConnector.java:750-817 | keepalive off during the swap and on again after it, COMPRESSED set, stream restarted |
| SocketTransport.SocketConnector.ProcessElement | jaxmpp-j2se/src/main/java/tigase/jaxmpp/j2se/connectors/socket/SocketConnector.java:238-250 | ends in `SocketSpec.ProcessElement` of the old state |
| SocketTransport.SocketConnector.ConnectFirst | jaxmpp-j2se/src/main/java/tigase/jaxmpp/j2se/connectors/socket/SocketConnector.java:377-384 | the host loop returns `SocketSpec.FirstReachable` of the candidates |
| SocketTransport.SocketConnector.Open | jaxmpp-j2se/src/main/java/tigase/jaxmpp/j2se/connectors/socket/SocketConnector.java:390-436 | ends in `SocketSpec.Open`: writer, reader, worker, then TLS or header, then connected |
| SocketTransport.SocketConnector.SchedulePing | jaxmpp-j2se/src/main/java/tigase/jaxmpp/j2se/connectors/socket/SocketConnector.java:438-473 | ends in `SocketSpec.SchedulePing` of the old state |
| SocketTransport.SocketConnector.PrepareStart | jaxmpp-j2se/src/main/java/tigase/jaxmpp/j2se/connectors/socket/SocketConnector.java:328-371 | ends in `SocketSpec.Prepare` of the old state |
| SocketTransport.SocketConnector.Connect | jaxmpp-j2se/src/main/java/tigase/jaxmpp/j2se/connectors/socket/SocketConnector.java:346-478 | ends in `SocketSpec.Connect`: a reached host gets a fresh socket; when none is reached the code's `socket == null` check decides, over whatever socket the field still holds |
| SocketTransport.SocketConnector.Start | jaxmpp-j2se/src/main/java/tigase/jaxmpp/j2se/connectors/socket/SocketConnector.java:328-479 | ends in `SocketSpec.Start` of the old state, the code's socket check included |
| SocketTransport.SocketConnector.WorkerTerminated | jaxmpp-j2se/src/main/java/tigase/jaxmpp/j2se/connectors/socket/SocketConnector.java:1211-1235 | ends in `SocketSpec.WorkerTerminated` of the old state |
| WebSocketFrames.NameEnd | jaxmpp-gwt/src/main/java/tigase/jaxmpp/gwt/client/connectors/WebSocketConnector.java:286-290 | the end of the tag name: no earlier space, `/` or `>`, and one of them (or the end of the frame) there |
| WebSocketFrames.NameEndUnique | jaxmpp-gwt/src/main/java/tigase/jaxmpp/gwt/client/connectors/WebSocketConnector.java:286-290 | that position is the only one with those two properties |
| WebSocketFrames.InsertStreamNsRoundTrip | jaxmpp-gwt/src/main/java/tigase/jaxmpp/gwt/client/connectors/WebSocketConnector.java:286-291 | the declaration goes right after the tag name, and removing it gives the frame back |
| WebSocketFrames.RewriteRoundTrip | jaxmpp-gwt/src/main/java/tigase/jaxmpp/gwt/client/connectors/WebSocketConnector.java:276-294 | every rewrite rule only adds text: undoing the rule that applied gives the frame back |
| WebSocketFrames.InsertStreamNsDeclares | jaxmpp-gwt/src/main/java/tigase/jaxmpp/gwt/client/connectors/WebSocketConnector.java:286-291 | after the insertion the frame contains `xmlns:stream` |
| WebSocketFrames.StreamOpenNameEnd | jaxmpp-gwt/src/main/java/tigase/jaxmpp/gwt/client/connectors/WebSocketConnector.java:280-284 | in a frame opening with `<stream:stream ` the tag name ends at that space |
| WebSocketFrames.RewriteOpensClosedStream | jaxmpp-gwt/src/main/java/tigase/jaxmpp/gwt/client/connectors/WebSocketConnector.java:276-284 | a frame ending with `</stream:stream>` comes out starting with `<stream:stream ` |
| WebSocketFrames.CloseAfterOpen | jaxmpp-gwt/src/main/java/tigase/jaxmpp/gwt/client/connectors/WebSocketConnector.java:282-284 | in a frame starting with the opening tag, a closing tag can only occur after it |
| WebSocketFrames.InsertKeepsTail | jaxmpp-gwt/src/main/java/tigase/jaxmpp/gwt/client/connectors/WebSocketConnector.java:290 | text after the tag name survives the insertion, shifted by the declaration |
| WebSocketFrames.RewriteClosesOpenStream | jaxmpp-gwt/src/main/java/tigase/jaxmpp/gwt/client/connectors/WebSocketConnector.java:280-291 | a frame starting with `<stream:stream ` comes out containing `</stream:stream>` |
| WebSocketFrames.InsertStreamNsAsWrittenFails | jaxmpp-gwt/src/main/java/tigase/jaxmpp/gwt/client/connectors/WebSocketConnector.java:286-290 | the insertion as written throws iff the frame lacks a space or a `>` |
| WebSocketFrames.InsertStreamNsAgrees | jaxmpp-gwt/src/main/java/tigase/jaxmpp/gwt/client/connectors/WebSocketConnector.java:286-290 | with a space and a `>` and no `/` ending the name, the insertion as written is the intended one |
| WebSocketFrames.RewriteAgrees | jaxmpp-gwt/src/main/java/tigase/jaxmpp/gwt/client/connectors/WebSocketConnector.java:276-294 | outside the namespace rule the rewrite as written and the intended one agree |
| WebSocketFrames.EmptyFeaturesNameEnd | jaxmpp-gwt/src/main/java/tigase/jaxmpp/gwt/client/connectors/WebSocketConnector.java:286-290 | the tag name of `<stream:features/>` ends at its `/` |
| WebSocketFrames.EmptyFeaturesRule | jaxmpp-gwt/src/main/java/tigase/jaxmpp/gwt/client/connectors/WebSocketConnector.java:276-291 | `<stream:features/>` falls under the namespace rule and contains no space |
| WebSocketFrames.EmptyFeaturesFrame | jaxmpp-gwt/src/main/java/tigase/jaxmpp/gwt/client/connectors/WebSocketConnector.java:286-290 | `<stream:features/>` makes the rewrite as written throw; the intended rewrite yields `<stream:features xmlns:stream='…' />` |
| WebSocketFrames.HeaderFraming | jaxmpp-gwt/src/main/java/tigase/jaxmpp/gwt/client/connectors/WebSocketConnector.java:345-380 | the header starts with `<open ` iff in RFC mode, and only then ends with `/>` |
| WebSocketFrames.HeaderBody | jaxmpp-gwt/src/main/java/tigase/jaxmpp/gwt/client/connectors/WebSocketConnector.java:353-367 | both headers carry the same addressing and `version='1.0'` between their opening and tail |
| WebSocketProperties.SetStageStoresStage | jaxmpp-gwt/src/main/java/tigase/jaxmpp/gwt/client/connectors/WebSocketConnector.java:398-419 | the stage is stored, events fire only on a change (the recursive call adds none), nothing else changes |
| WebSocketProperties.SendOnlyWhenConnected | jaxmpp-gwt/src/main/java/tigase/jaxmpp/gwt/client/connectors/WebSocketConnector.java:390-396 | the frame reaches the socket iff the stage is connected; otherwise "Not connected" is thrown and nothing changes |
| WebSocketProperties.KeepaliveSendsSpaceOnlyWhenConnected | jaxmpp-gwt/src/main/java/tigase/jaxmpp/gwt/client/connectors/WebSocketConnector.java:216-221 | a single space is sent, and only when keepalive is not disabled and the stage is connected |
| WebSocketProperties.RestartStreamSendsHeader | jaxmpp-gwt/src/main/java/tigase/jaxmpp/gwt/client/connectors/WebSocketConnector.java:345-380 | when connected, the opening tag of the framing in use is sent, addressed by the session's from/to rule |
| WebSocketProperties.HeaderFromUser | jaxmpp-gwt/src/main/java/tigase/jaxmpp/gwt/client/connectors/WebSocketConnector.java:353-358 | with a user JID and SEE_OTHER_HOST_KEY not false, both headers name the JID as `from` and its domain as `to` |
| WebSocketProperties.HeaderWithoutUser | jaxmpp-gwt/src/main/java/tigase/jaxmpp/gwt/client/connectors/WebSocketConnector.java:359-365 | otherwise `to` is DOMAIN_NAME, and there is no address when that is unset |
| WebSocketProperties.StopWhenDisconnected | jaxmpp-gwt/src/main/java/tigase/jaxmpp/gwt/client/connectors/WebSocketConnector.java:446-449 | `stop` when disconnected changes nothing |
| WebSocketProperties.StopOutcome | jaxmpp-gwt/src/main/java/tigase/jaxmpp/gwt/client/connectors/WebSocketConnector.java:446-462 | otherwise: disconnecting, no ping timer, socket closed, Disconnected fired |
| WebSocketProperties.StopSendsNothing | jaxmpp-gwt/src/main/java/tigase/jaxmpp/gwt/client/connectors/WebSocketConnector.java:450-453 | `stop` never sends a closing tag, because the stage is already disconnecting when `terminateStream` looks at it |
| WebSocketProperties.StopFiresDisconnected | jaxmpp-gwt/src/main/java/tigase/jaxmpp/gwt/client/connectors/WebSocketConnector.java:446-462 | Disconnected is fired once, after the stage events, and the stage stays disconnecting |
| WebSocketProperties.StopTwiceFiresDisconnectedTwice | jaxmpp-gwt/src/main/java/tigase/jaxmpp/gwt/client/connectors/WebSocketConnector.java:446-462 | a second `stop` fires Disconnected again and no stage event |
| WebSocketProperties.OnErrorStopsAndFiresError | jaxmpp-gwt/src/main/java/tigase/jaxmpp/gwt/client/connectors/WebSocketConnector.java:223-234 | `onError` always stops and then fires an Error with the cause, also after a see-other-host |
| WebSocketProperties.SeeOtherHostFiresEvent | jaxmpp-gwt/src/main/java/tigase/jaxmpp/gwt/client/connectors/WebSocketConnector.java:236-253 | a see-other-host child fires SeeOtherHost with its host before anything else |
| WebSocketProperties.StopEventsExtend | jaxmpp-gwt/src/main/java/tigase/jaxmpp/gwt/client/connectors/WebSocketConnector.java:446-462 | `stop` only appends events |
| WebSocketProperties.ParserErrorSkipped | jaxmpp-gwt/src/main/java/tigase/jaxmpp/gwt/client/connectors/WebSocketConnector.java:309-311 | a `parsererror` child changes nothing |
| WebSocketProperties.FramedOpenIgnored | jaxmpp-gwt/src/main/java/tigase/jaxmpp/gwt/client/connectors/WebSocketConnector.java:313-328 | in RFC mode a framing `<open/>` changes nothing |
| WebSocketProperties.FramedCloseWithUri | jaxmpp-gwt/src/main/java/tigase/jaxmpp/gwt/client/connectors/WebSocketConnector.java:314-321 | a framing `<close/>` with see-other-uri fires SeeOtherHost(uri), stops, and fires an Error |
| WebSocketProperties.FramedCloseStops | jaxmpp-gwt/src/main/java/tigase/jaxmpp/gwt/client/connectors/WebSocketConnector.java:314-337 | without see-other-uri it stops and is then delivered as a stanza |
| WebSocketProperties.StreamErrorToOnError | jaxmpp-gwt/src/main/java/tigase/jaxmpp/gwt/client/connectors/WebSocketConnector.java:331-334 | a stream error goes to `onError` with the element |
| WebSocketProperties.PlainStanzaDelivered | jaxmpp-gwt/src/main/java/tigase/jaxmpp/gwt/client/connectors/WebSocketConnector.java:335-337 | any other element fires exactly one StanzaReceived |
| WebSocketProperties.DispatchStanzas | jaxmpp-gwt/src/main/java/tigase/jaxmpp/gwt/client/connectors/WebSocketConnector.java:306-339 | a frame of plain stanzas fires one StanzaReceived per stanza, in order, and nothing else |
| WebSocketProperties.ParserErrorsIgnored | jaxmpp-gwt/src/main/java/tigase/jaxmpp/gwt/client/connectors/WebSocketConnector.java:308-311 | dispatching a frame equals dispatching it with its `parsererror` children removed |
| WebSocketProperties.ReceivedRule | jaxmpp-gwt/src/main/java/tigase/jaxmpp/gwt/client/connectors/WebSocketConnector.java:296-304 | a `stream:stream`, `stream` or `root` element delivers its children, anything else itself |
| WebSocketProperties.NullFrameRaises | jaxmpp-gwt/src/main/java/tigase/jaxmpp/gwt/client/connectors/WebSocketConnector.java:267-268 | a null frame throws at `trim()` and changes nothing |
| WebSocketProperties.SingleCharacterTrim | jaxmpp-gwt/src/main/java/tigase/jaxmpp/gwt/client/connectors/WebSocketConnector.java:267-271 | `trim()` empties one character iff it is at most a space, and otherwise keeps it |
| WebSocketProperties.KeepaliveFrameIgnored | jaxmpp-gwt/src/main/java/tigase/jaxmpp/gwt/client/connectors/WebSocketConnector.java:267-271 | a one-character frame that trims to nothing changes nothing |
| WebSocketProperties.FrameDispatched | jaxmpp-gwt/src/main/java/tigase/jaxmpp/gwt/client/connectors/WebSocketConnector.java:276-339 | any other frame whose rewrite does not throw is rewritten as the code does, parsed, and its elements dispatched in the framing mode in use |
| WebSocketProperties.RewriteFailureEscapes | jaxmpp-gwt/src/main/java/tigase/jaxmpp/gwt/client/connectors/WebSocketConnector.java:286-290 | a frame under the namespace rule without both a space and a `>` raises StringIndexOutOfBoundsException, which escapes `onMessage` with nothing changed |
| WebSocketProperties.EmptyFeaturesEscapes | jaxmpp-gwt/src/main/java/tigase/jaxmpp/gwt/client/connectors/WebSocketConnector.java:114-121 | `<stream:features/>` makes `onMessage` throw StringIndexOutOfBoundsException |
| WebSocketProperties.StartRule | jaxmpp-gwt/src/main/java/tigase/jaxmpp/gwt/client/connectors/WebSocketConnector.java:422-438 | the framing comes from FORCE_RFC_KEY (false when unset) only while undecided; connecting; a socket for the service URL |
| WebSocketProperties.OnOpenConnects | jaxmpp-gwt/src/main/java/tigase/jaxmpp/gwt/client/connectors/WebSocketConnector.java:124-158 | connected, the header of that framing sent, a ping every 175000 ms unless the keepalive is external, Connected last |
| WebSocketProperties.FallbackSwitchesToRfc | jaxmpp-gwt/src/main/java/tigase/jaxmpp/gwt/client/connectors/WebSocketConnector.java:74-85 | a legacy stream closed while connected and before features arrived starts again in RFC mode |
| WebSocketProperties.OtherCloses | jaxmpp-gwt/src/main/java/tigase/jaxmpp/gwt/client/connectors/WebSocketConnector.java:86-97 | any other close: an Error when disconnecting was asked for, otherwise `stop(true)` |
| WebSocketProperties.StopKeepsRfc | jaxmpp-gwt/src/main/java/tigase/jaxmpp/gwt/client/connectors/WebSocketConnector.java:446-462 | `stop` keeps the framing mode |
| WebSocketProperties.OnErrorKeepsRfc | jaxmpp-gwt/src/main/java/tigase/jaxmpp/gwt/client/connectors/WebSocketConnector.java:223-234 | `onError` keeps the framing mode |
| WebSocketProperties.DispatchOneKeepsRfc | jaxmpp-gwt/src/main/java/tigase/jaxmpp/gwt/client/connectors/WebSocketConnector.java:308-338 | one pass of the dispatch loop keeps the framing mode |
| WebSocketProperties.DispatchKeepsRfc | jaxmpp-gwt/src/main/java/tigase/jaxmpp/gwt/client/connectors/WebSocketConnector.java:306-339 | the whole dispatch loop keeps the framing mode |
| WebSocketProperties.RfcModeIsSticky | jaxmpp-gwt/src/main/java/tigase/jaxmpp/gwt/client/connectors/WebSocketConnector.java:74-85 | once RFC framing is on, `start`, `onOpen`, `onClose`, `onMessage` and `stop` keep it on, so the fallback cannot happen again |
| WebSocketProperties.OpenKeepsRfc | jaxmpp-gwt/src/main/java/tigase/jaxmpp/gwt/client/connectors/WebSocketConnector.java:124-158 | `onOpen` keeps RFC framing on |
| WebSocketProperties.MessageKeepsRfc | jaxmpp-gwt/src/main/java/tigase/jaxmpp/gwt/client/connectors/WebSocketConnector.java:115-121 | `onMessage` keeps the framing mode |
| WebSocketProperties.FallbackAtMostOnce | jaxmpp-gwt/src/main/java/tigase/jaxmpp/gwt/client/connectors/WebSocketConnector.java:74-85 | after the fallback the connector is in RFC mode and cannot fall back again |
| WebSocketProperties.SocketErrorFiresError | jaxmpp-gwt/src/main/java/tigase/jaxmpp/gwt/client/connectors/WebSocketConnector.java:100-112 | a socket error cancels the ping and fires an Error, nothing more |
| WebSocketTransport.WebSocketConnector.constructor | jaxmpp-gwt/src/main/java/tigase/jaxmpp/gwt/client/connectors/WebSocketConnector.java:68-71 | no socket, no ping timer, framing undecided |
| WebSocketTransport.WebSocketConnector.GetState | jaxmpp-gwt/src/main/java/tigase/jaxmpp/gwt/client/connectors/WebSocketConnector.java:200-203 | the stored stage, null when none |
| WebSocketTransport.WebSocketConnector.SetStage | jaxmpp-gwt/src/main/java/tigase/jaxmpp/gwt/client/connectors/WebSocketConnector.java:398-419 | ends in `WebSocketSpec.SetStage` of the old state |
| WebSocketTransport.WebSocketConnector.FireOnError | jaxmpp-gwt/src/main/java/tigase/jaxmpp/gwt/client/connectors/WebSocketConnector.java:174-188 | an Error without condition, with the cause |
| WebSocketTransport.WebSocketConnector.FireOnConnected | jaxmpp-gwt/src/main/java/tigase/jaxmpp/gwt/client/connectors/WebSocketConnector.java:167-172 | Connected unless disconnected |
| WebSocketTransport.WebSocketConnector.Send | jaxmpp-gwt/src/main/java/tigase/jaxmpp/gwt/client/connectors/WebSocketConnector.java:390-396 | ends in `WebSocketSpec.Send` of the old state |
| WebSocketTransport.WebSocketConnector.Keepalive | jaxmpp-gwt/src/main/java/tigase/jaxmpp/gwt/client/connectors/WebSocketConnector.java:216-221 | ends in `WebSocketSpec.Keepalive` of the old state |
| WebSocketTransport.WebSocketConnector.RestartStream | jaxmpp-gwt/src/main/java/tigase/jaxmpp/gwt/client/connectors/WebSocketConnector.java:345-380 | ends in `WebSocketSpec.RestartStream` of the old state |
| WebSocketTransport.WebSocketConnector.TerminateStream | jaxmpp-gwt/src/main/java/tigase/jaxmpp/gwt/client/connectors/WebSocketConnector.java:464-473 | ends in `WebSocketSpec.TerminateStream` of the old state |
| WebSocketTransport.WebSocketConnector.Stop | jaxmpp-gwt/src/main/java/tigase/jaxmpp/gwt/client/connectors/WebSocketConnector.java:440-462 | ends in `WebSocketSpec.Stop` of the old state |
| WebSocketTransport.WebSocketConnector.HandleSeeOtherHost | jaxmpp-gwt/src/main/java/tigase/jaxmpp/gwt/client/connectors/WebSocketConnector.java:236-253 | fires SeeOtherHost for a see-other-host child and answers false in every case |
| WebSocketTransport.WebSocketConnector.OnError | jaxmpp-gwt/src/main/java/tigase/jaxmpp/gwt/client/connectors/WebSocketConnector.java:223-234 | ends in `WebSocketSpec.OnError` of the old state |
| WebSocketTransport.WebSocketConnector.HandleSeeOtherUri | jaxmpp-gwt/src/main/java/tigase/jaxmpp/gwt/client/connectors/WebSocketConnector.java:255-263 | ends in `WebSocketSpec.HandleSeeOtherUri` of the old state |
| WebSocketTransport.WebSocketConnector.DispatchChild | jaxmpp-gwt/src/main/java/tigase/jaxmpp/gwt/client/connectors/WebSocketConnector.java:308-338 | one pass of the loop ends in `WebSocketSpec.DispatchOne` |
| WebSocketTransport.WebSocketConnector.ParseSocketData | jaxmpp-gwt/src/main/java/tigase/jaxmpp/gwt/client/connectors/WebSocketConnector.java:265-342 | ends in `WebSocketSpec.ParseSocketData`: the code's rewrite, which may throw StringIndexOutOfBoundsException, then the parse and the dispatch |
| WebSocketTransport.WebSocketConnector.DispatchAll | jaxmpp-gwt/src/main/java/tigase/jaxmpp/gwt/client/connectors/WebSocketConnector.java:306-339 | the loop ends in `WebSocketSpec.DispatchAll` of the state before it |
| WebSocketTransport.WebSocketConnector.Guard | jaxmpp-gwt/src/main/java/tigase/jaxmpp/gwt/client/connectors/WebSocketConnector.java:118-120 | a JaxmppException leaving a callback goes to `onError(null, ex)` |
| WebSocketTransport.WebSocketConnector.OnMessage | jaxmpp-gwt/src/main/java/tigase/jaxmpp/gwt/client/connectors/WebSocketConnector.java:114-121 | ends in `WebSocketSpec.OnMessage` of the old state |
| WebSocketTransport.WebSocketConnector.Start | jaxmpp-gwt/src/main/java/tigase/jaxmpp/gwt/client/connectors/WebSocketConnector.java:421-438 | ends in `WebSocketSpec.Start` of the old state |
| WebSocketTransport.WebSocketConnector.OnOpen | jaxmpp-gwt/src/main/java/tigase/jaxmpp/gwt/client/connectors/WebSocketConnector.java:123-158 | ends in `WebSocketSpec.OnOpen` of the old state |
| WebSocketTransport.WebSocketConnector.OnClose | jaxmpp-gwt/src/main/java/tigase/jaxmpp/gwt/client/connectors/WebSocketConnector.java:73-98 | ends in `WebSocketSpec.OnClose` of the old state |
| WebSocketTransport.WebSocketConnector.OnSocketError | jaxmpp-gwt/src/main/java/tigase/jaxmpp/gwt/client/connectors/WebSocketConnector.java:100-112 | ping cancelled and an Error fired |
| FailoverProperties.DomainRule | jaxmpp-gwt/src/main/java/tigase/jaxmpp/gwt/client/ConnectionManager.java:136-142 | the domain is DOMAIN_NAME when set, else the user JID's domain, and missing iff neither is known |
| FailoverProperties.ConnectionFailureRule | jaxmpp-gwt/src/main/java/tigase/jaxmpp/gwt/client/ConnectionManager.java:130-144 | `hostFailure(url)` is called iff `hostFailure`, then `getHostForDomain(domain, seeHost, callback)`; nothing else changes |
| FailoverProperties.ConnectionFailureResolves | jaxmpp-gwt/src/main/java/tigase/jaxmpp/gwt/client/ConnectionManager.java:130-144 | the resolver log grows by 2 or 1 calls, ends with the resolution request, and holds a host failure among the new calls iff `hostFailure` |
| FailoverProperties.SameStateIgnored | jaxmpp-gwt/src/main/java/tigase/jaxmpp/gwt/client/ConnectionManager.java:99-100 | a change to the same state does nothing |
| FailoverProperties.ReconnectOnlyFromConnecting | jaxmpp-gwt/src/main/java/tigase/jaxmpp/gwt/client/ConnectionManager.java:105-120 | a stage change does something iff it goes from connecting to disconnecting, and then it schedules one 10 ms timer |
| FailoverProperties.ReconnectReportsHostFailure | jaxmpp-gwt/src/main/java/tigase/jaxmpp/gwt/client/ConnectionManager.java:108-115 | the timer reports the service URL as failed and resolves the domain again without a see-other-host target |
| FailoverProperties.NoTimerNoReconnect | jaxmpp-gwt/src/main/java/tigase/jaxmpp/gwt/client/ConnectionManager.java:108-115 | with no timer scheduled, nothing runs |
| FailoverProperties.ConnectingStopSchedulesReconnect | jaxmpp-gwt/src/main/java/tigase/jaxmpp/gwt/client/ConnectionManager.java:105-115 | a WebSocket connector stopped while connecting publishes StateChanged(connecting, disconnecting), which schedules the reconnect timer |
| FailoverProperties.SeeOtherHostResolves | jaxmpp-gwt/src/main/java/tigase/jaxmpp/gwt/client/ConnectionManager.java:125-128 | a redirect resolves the domain with the new host as target and reports no host failure |
| FailoverProperties.InitializeRule | jaxmpp-gwt/src/main/java/tigase/jaxmpp/gwt/client/ConnectionManager.java:63-95 | the first client is kept, the callback exists afterwards, the answer is true iff a service URL is set, and a resolution is requested iff it is not |
| FailoverProperties.InitializeOnce | jaxmpp-gwt/src/main/java/tigase/jaxmpp/gwt/client/ConnectionManager.java:63-88 | with a service URL, a second `initialize` changes nothing, whatever client it is given |
| FailoverProperties.InitializeRetries | jaxmpp-gwt/src/main/java/tigase/jaxmpp/gwt/client/ConnectionManager.java:90-92 | without one, every `initialize` requests a resolution again |
| FailoverProperties.UrlResolvedRule | jaxmpp-gwt/src/main/java/tigase/jaxmpp/gwt/client/ConnectionManager.java:70-79 | the URL is handed to `login`; a JaxmppException becomes an undefined-condition Error, others escape; a null client throws first |
| FailoverProperties.UrlFailedRule | jaxmpp-gwt/src/main/java/tigase/jaxmpp/gwt/client/ConnectionManager.java:82-86 | a failed resolution fires exactly one remote-connection-failed Error |
| Failover.ConnectionManager.constructor | jaxmpp-gwt/src/main/java/tigase/jaxmpp/gwt/client/ConnectionManager.java:49-57 | a manager on a context, with no client, no callback and empty logs |
| Failover.ConnectionManager.ConnectionFailure | jaxmpp-gwt/src/main/java/tigase/jaxmpp/gwt/client/ConnectionManager.java:130-144 | ends in `FailoverSpec.ConnectionFailure` of the old state |
| Failover.ConnectionManager.Initialize | jaxmpp-gwt/src/main/java/tigase/jaxmpp/gwt/client/ConnectionManager.java:63-95 | ends in `FailoverSpec.Initialize` of the old state, with its answer |
| Failover.ConnectionManager.OnStateChanged | jaxmpp-gwt/src/main/java/tigase/jaxmpp/gwt/client/ConnectionManager.java:98-121 | ends in `FailoverSpec.OnStateChanged` of the old state |
| Failover.ConnectionManager.RunReconnectTimer | jaxmpp-gwt/src/main/java/tigase/jaxmpp/gwt/client/ConnectionManager.java:108-114 | ends in `FailoverSpec.RunReconnectTimer` of the old state |
| Failover.ConnectionManager.OnSeeOtherHost | jaxmpp-gwt/src/main/java/tigase/jaxmpp/gwt/client/ConnectionManager.java:125-128 | `handled` is always true, and the state ends in `FailoverSpec.OnSeeOtherHost` |
| Failover.ConnectionManager.OnUrlResolved | jaxmpp-gwt/src/main/java/tigase/jaxmpp/gwt/client/ConnectionManager.java:70-79 | ends in `FailoverSpec.OnUrlResolved` of the old state |
| Failover.ConnectionManager.OnUrlFailed | jaxmpp-gwt/src/main/java/tigase/jaxmpp/gwt/client/ConnectionManager.java:82-86 | ends in `FailoverSpec.OnUrlFailed` of the old state |

## Left out

- TLS: the BouncyCastle path (`proceedBCTLS`, `getAuthType`, certificate-chain conversion), trust and key managers, and socket factories are foreign crypto code. The JCE handshake is a parameter: it fails, or completes with a certificate, and the stored verifier's verdict on that certificate for each host name is part of the parameter.
- Compression: the Deflater/Inflater stream wrapping in `proceedZLib`, including its reflection on `flushParm`, is a foreign library. Only its effects on the flags and the writer are modelled.
- Sockets, proxies, `createSocket` and `closeSocket`: each connect attempt is an oracle outcome per host. `Socket.isConnected()` is modelled as "a socket object exists".
- Threads and timers: the reader thread (`Worker`), `ioMutex`, `synchronized`, the timing of `java.util.Timer` and the GWT `Timer`. Timers are pending flags or queues, and their firing is a separate operation (`CloseTimerElapsed`, `RunReconnectTimer`).
- DNS: `DNSResolver`, a user-supplied `DnsResolver` and `WebDnsResolver` are not modelled. The candidate list is a parameter, and the web resolver is a log of calls.
- The GWT `XMLParser` and `GwtElement` are not modelled. The parser is a function parameter, with None standing for a parse exception.
- The WebSocket platform object is not modelled. It is the `socket` field's URL and closed flag, and `onOpen` takes the chosen subprotocol as a parameter.
- SocketSpec.Write: a write throws only on a closed or reset socket. A reset (the peer dropping the connection) is part of the socket state given to an operation; no operation sets it. Failures of `flush` and partial writes are not told apart from a failed write.
- SocketSpec.Handshake: the HandshakeCompletedListener is run synchronously, right after the handshake and before the hostname check and the restart. JSSE may call it later on its own thread, so ENCRYPTED and EncryptionEstablished may in fact come after the check or the restart.
- SocketTransport.SocketConnector.Handshake: the same synchronous run of the handshake listener as `SocketSpec.Handshake`.
- SocketProperties.TlsUpgradeRestartsOnce: the order EncryptionEstablished, then StreamRestarted, is the order of the synchronous listener; with the listener on the JSSE thread, only the occurrence of both events is promised.
- SocketProperties.HandshakeFails: with the listener on the JSSE thread, a certificate the hostname check rejects may leave ENCRYPTED unset when `onError` runs.
- `send(Element)` is not modelled: serializing stanzas is outside this model. Only the string and byte sends are modelled.
- `createSessionLogic`, `isSecure`, `isCompressed`, `startTLS`/`startZLib` and logging are not modelled. They are outside the connection logic modelled here.
- The StreamError enumeration is not modelled: an Error condition is the name of the stream-error element, or the fixed names undefined-condition and remote-connection-failed.
- WebSocketSpec.FireOnError: the scan of the response's stream-error children is left out, because every caller in `WebSocketConnector` passes a null response.
- WebSocketSpec.OnOpen: a ping timer left from an earlier open is not cancelled in the source. The model simply replaces the `ping` field, so the old timer's keepalives are not modelled.
- Properties holding a value of the wrong type (a `ClassCastException` for EXTERNAL_KEEPALIVE_KEY, FORCE_RFC_KEY or the service URL) are read as absent.
- The timestamp written with each stage change (CONNECTOR_STAGE_TIMESTAMP_KEY) is a clock value and is not modelled.
- `ConnectionManager.setContext` is not modelled as an operation: it registers the handlers on the event bus, and the constructor of `Failover.ConnectionManager` stands for a manager whose context is set.
- The session object's own code is not part of this model. `setProperty` without a scope is taken to be session-scoped, a null value removes the key, and `clear(stream)` drops the stream-scoped entries.

## Findings

| source | as written | input that shows it | evidently intended | confidence | as-written member | corrected member |
|---|---|---|---|---|---|---|
| jaxmpp-j2se/src/main/java/tigase/jaxmpp/j2se/connectors/socket/SocketConnector.java:377-388 | `socket` is never reset before the host loop, so `socket == null` looks at whatever an earlier connection left there | after a see-other-host, `reconnect` keeps the old socket for the close timer and `start` runs against the new host; if that host fails with no-route, the check passes with the old server's socket | fail with "Cannot create socket." when this attempt reached no host | medium, not executed | SocketProperties.StaleSocketSurvivesReconnect | SocketProperties.StartFailsWhenNoHostReachable |
| jaxmpp-gwt/src/main/java/tigase/jaxmpp/gwt/client/connectors/WebSocketConnector.java:286-290 | the insertion point is the smaller of `indexOf(" ")` and `indexOf(">")`, which is -1 when either is missing | `<stream:features/>` (no space): `substring(0, -1)` throws StringIndexOutOfBoundsException | insert the declaration right after the tag name | high, not executed | WebSocketProperties.EmptyFeaturesEscapes | WebSocketFrames.Rewrite |
