# Samsung air-conditioner protocol state machine, modelled in Dafny

This project models the per-connection protocol of `py-samsung-airconditioner`.
The client talks to an air conditioner over one TLS connection. The connection
carries CRLF-terminated lines: first a `DPLUG-<version>` marker, then one-line
XML documents whose top-level element is `Update`, `Request` or `Response`.
There are two implementations of the protocol object:

- `samsung_ac/client.py` is the full version. It checks the version line. On
  `InvalidateAccount` it either authenticates with the configured token
  (`AuthToken`) or starts the pairing flow (`GetToken`) with a 30-second
  pairing timer. After authentication it writes a caller-supplied post-auth
  command and can re-send it on a periodic timer. It stores DeviceState
  attribute lists and forwards documents to a callback. After every received
  chunk it decides whether to close the connection (`stay_connected`).
- `samsung_ac/protocol.py` is an older version that only acquires a token.

Both are modelled in the source's own form. Each is a class whose methods
update the same fields as the Python object (`authenticated`,
`stay_connected`, `waiting_for_token`, `response_data`). The methods write to a
`Transport` object, which records the requests written and whether it has been
closed. Each method is proved to follow a specification function over a state
value:

- For client.py the state value is `Client.Session`.
- For protocol.py it is `Pairing.Link`, the part of the state both variants share.

The lemmas state what the source promises about those functions. Some are
about one chunk of lines. Others are about whole runs of events: received
chunks and timer expiries.

Files:

- `messages.dfy`: decoded documents (`Doc`), received lines, requests,
  printed diagnostics (`Notice`), and the two line prefixes. Also defines
  `FirstStopAt`, an independent description of the line the loop stops at.
- `transport.dfy`: the transport's write log and closed flag.
- `pairing.dfy`: the token-acquisition flow (`TokenFlow`) and the pairing
  timer's expiry. The code is the same in both source files, so it is
  modelled once.
- `client.dfy` and `client_properties.dfy`: client.py and its properties.
- `token_protocol.dfy` and `token_protocol_properties.dfy`: protocol.py and
  its properties.

Details of the code that the model keeps exactly as written:

- After authentication, every document that is not a DeviceState snapshot
  still sets `stay_connected` to the caller's `stay_connected` option
  (client.py:103-104). So in fetch-once mode (`stay_connected=False`), any
  other document closes the connection, including one the client does not
  recognise.
- There is no separate "authenticating" state. `InvalidateAccount` with a
  token only writes the `AuthToken` request.
- The pairing timer is never cancelled. A completion only clears
  `waiting_for_token`, and the timer's expiry checks that flag.
- The periodic timer is re-armed by each of its own expiries, not by each
  DeviceState delivery.
- Token retrieval failure is `Response{Authenticate, Fail}`, and it is acted
  on only while `waiting_for_token` is set.
- Before authentication, unhandled documents are only printed and are never
  handed to the callback.
- protocol.py closes the transport itself on an unsupported version
  (protocol.py:43-48), and `data_received` closes it a second time; client.py
  leaves closing to `data_received` (client.py:61-64).

## Model

| member | source | states |
|---|---|---|
| Pairing.TokenFlow | samsung_ac/client.py:151-198 | Writes exactly one GetToken request, and only on InvalidateAccount. Ends the session (clears `stay_connected`) only on a completed non-empty token, or on an Authenticate failure while the token is awaited. Reports the token exactly when it completes. Sets `waiting_for_token` on GetToken/Ready and clears it exactly on a completion or a refusal. Never closes the transport or cancels a pairing timer. Any other document only adds an "unsupported" diagnostic. |
| Pairing.PairTimerExpired | samsung_ac/client.py:206-209 | Closes the transport and reports the timeout exactly when `waiting_for_token` is still set. Otherwise only the timer count changes. The expiry never clears the wait flag itself. |
| Client.PostAuth | samsung_ac/client.py:212-220 | Writes the configured post-auth command exactly once, or nothing if none is set. Arms one more timer exactly when an interval is configured. |
| Client.Authenticate | samsung_ac/client.py:110-147 | Authenticated afterwards iff already authenticated or the document is AuthToken/Okay. Writes exactly one AuthToken request carrying the token on InvalidateAccount, and the post-auth writes on AuthToken/Okay, and nothing otherwise. `stay_connected` is cleared exactly on AuthToken/Fail. |
| Client.Deliver | samsung_ac/client.py:82-106 | Once authenticated, every document leaves `stay_connected` equal to the caller's option. Only a DeviceState/Okay document with attributes replaces `response_data`. The callback, if registered, receives the document once. Nothing is written. |
| Client.HandleDocument | samsung_ac/client.py:67-106 | Handling a document never closes the transport and never loses authentication. |
| Client.HandleLines | samsung_ac/client.py:56-106 | The line loop never closes the transport itself and never loses authentication. |
| Client.RejectVersion | samsung_ac/client.py:58-64 | An unsupported version clears `stay_connected` and reports it, without writing or closing the transport itself. |
| Client.ProcessChunk | samsung_ac/client.py:52-56 | `handle_data` resets `stay_connected` and runs the line loop; it never closes the transport and never loses authentication. |
| Client.ReceiveChunk | samsung_ac/client.py:40-44 | The transport is closed after a chunk exactly when it was already closed or `stay_connected` is false after handling. |
| Client.PairTimerTick | samsung_ac/client.py:206-209 | A pairing-timer expiry closes the transport and reports the timeout exactly when the token is still awaited; it writes nothing and leaves authentication alone. |
| Client.Step | samsung_ac/client.py:40-44 | One event: a chunk reaches `data_received` only while the transport is open, and a timer expiry only while a timer of its kind is armed. A closed transport stays closed and ignores chunks, and authentication is never lost. |
| Client.Run | samsung_ac/client.py:40-44 | Once the transport is closed, no sequence of events reopens it. |
| Client.PostAuthTimerTick | samsung_ac/client.py:216-225 | Each post-auth timer expiry writes the command once more. It re-arms exactly one timer when an interval is configured. |
| Client.ClientProtocol.constructor | samsung_ac/client.py:9-33 | A fresh protocol is unauthenticated, not waiting, has no data, no timers and no transport. |
| Client.ClientProtocol.ConnectionMade | samsung_ac/client.py:35-38 | Records the transport and marks the protocol connected. |
| Client.ClientProtocol.ConnectionLost | samsung_ac/client.py:46-49 | Marks the protocol disconnected. |
| Client.ClientProtocol.DataReceived | samsung_ac/client.py:40-44 | The new state is `ReceiveChunk` of the old state. |
| Client.ClientProtocol.HandleData | samsung_ac/client.py:52-106 | The loop with early returns leaves exactly the state `ProcessChunk` specifies. |
| Client.ClientProtocol.DoAuth | samsung_ac/client.py:110-147 | The new state is `Authenticate` of the old state. |
| Client.ClientProtocol.GetAuthToken | samsung_ac/client.py:151-198 | The new link state is `TokenFlow` of the old one. |
| Client.ClientProtocol.WaitForTokenExpired | samsung_ac/client.py:206-209 | The new state is the pairing-timer expiry of the old state. |
| Client.ClientProtocol.HandlePostAuth | samsung_ac/client.py:212-220 | The new state is `PostAuth` of the old state. |
| Client.ClientProtocol.PostAuthTimerExpired | samsung_ac/client.py:216-225 | The new state is `PostAuthTimerTick` of the old state. |
| ClientProperties.SkippedLinesChangeNothing | samsung_ac/client.py:56-67 | A chunk holding neither a rejected version nor a document changes no state at all. |
| ClientProperties.FirstStopDecides | samsung_ac/client.py:56-106 | At most one line per chunk is acted on: the chunk's effect is that of its first rejected version or first document. |
| ClientProperties.QuietChunkKeepsConnection | samsung_ac/client.py:53 | Every chunk starts with `stay_connected` set. A chunk with nothing to act on keeps the connection open and changes nothing else. |
| ClientProperties.UnsupportedVersionCloses | samsung_ac/client.py:58-64 | A version line other than `DPLUG-1.6` clears `stay_connected`, abandons the rest of the chunk, and closes the connection. Nothing is written. |
| ClientProperties.InvalidateAccountSendsToken | samsung_ac/client.py:112-126 | Unauthenticated with a token, InvalidateAccount writes exactly one AuthToken request bearing that token. The connection stays open. |
| ClientProperties.InvalidateAccountStartsPairing | samsung_ac/client.py:153-164 | Unauthenticated without a token, InvalidateAccount writes exactly one GetToken request. The connection stays open. |
| ClientProperties.AuthOkayHandsOff | samsung_ac/client.py:131-137 | AuthToken/Okay authenticates, writes exactly the post-auth command and arms the timer if configured. The connection stays open. |
| ClientProperties.AuthFailCloses | samsung_ac/client.py:140-143 | AuthToken/Fail reports the device's error code, writes nothing and closes the connection. |
| ClientProperties.DeviceStateDelivered | samsung_ac/client.py:84-95 | Once authenticated, DeviceState/Okay with attributes stores them and hands the document to the callback once. It writes nothing, and the connection closes exactly when the caller did not ask to stay connected. |
| ClientProperties.OtherDocumentForwarded | samsung_ac/client.py:97-106 | Once authenticated, any other document is forwarded to the callback, or reported if there is none. It leaves `response_data` alone, writes nothing, and still closes unless the caller asked to stay connected. |
| ClientProperties.AuthenticationIsMonotonic | samsung_ac/client.py:131-132 | Once authenticated, every later run of events keeps `authenticated` set. |
| ClientProperties.ChunkAddsCommandOnlyOnAuth | samsung_ac/client.py:131-137 | A chunk adds a post-auth command to the write log exactly when it authenticates and a command is configured. |
| ClientProperties.ChunkKeepsTimers | samsung_ac/client.py:216-218 | A chunk arms a post-auth timer only by authenticating, and only when an interval is configured. |
| ClientProperties.CommandOnceWithoutTimer | samsung_ac/client.py:212-220 | With no interval configured, the post-auth command is written exactly once over any run, when the run authenticates. |
| ClientProperties.TimerInvariantHolds | samsung_ac/client.py:216-218 | Once authenticated with an interval, exactly one post-auth timer is pending; otherwise none. Every run of events preserves this. |
| ClientProperties.PeriodicPolling | samsung_ac/client.py:212-225 | With the timer armed, k expiries write the command k more times, keep the timer armed, and change nothing else. |
| ClientProperties.ClosedWithoutPairingIsQuiet | samsung_ac/client.py:206-209 | A closed session that no longer awaits a token stays closed and emits no further diagnostic, whatever fires. |
| ClientProperties.TokenCompletionWinsRace | samsung_ac/client.py:167-174 | A completed token clears the wait and closes the connection with exactly one token result. A later pairing-timer expiry adds nothing. |
| ClientProperties.ChunkKeepsWait | samsung_ac/client.py:151-198 | Unauthenticated with no token configured, a chunk whose decisive document neither completes nor refuses the token keeps `waiting_for_token` set, reports no token, stays unauthenticated and disarms no pairing timer. |
| ClientProperties.WaitHolds | samsung_ac/client.py:167-209 | Over any run of events none of which completes or refuses the token, the wait survives, no token is reported and authentication is not gained; with no pairing expiry among them, no pairing timer is lost. |
| ClientProperties.PairingTimesOut | samsung_ac/client.py:179-209 | GetToken/Ready arms one pairing timer and sets `waiting_for_token`. After any events that neither complete nor refuse the token, the token is still awaited and none has been reported; the timer is still pending if no expiry came in between, and the next expiry of an armed timer closes the connection and reports that pairing expired, still without a token. |
| ClientProperties.RunAppend | samsung_ac/client.py:40-44 | Handling two runs of events one after the other is handling their concatenation. |
| ClientProperties.ClosedIdleSessionIsInert | samsung_ac/client.py:40-44 | A closed session with no timer armed ignores every further event. |
| ClientProperties.AcquireTokenScenario | samsung_ac/client.py:151-198 | Acquire-token run: exactly one GetToken request, the power-on prompt and then the token XYZ, and the connection closes. The later timer expiry is silent. |
| ClientProperties.FetchOnceScenario | samsung_ac/client.py:82-137 | Fetch-once run: exactly one AuthToken request with T1, then the post-auth command. The attributes are stored and the connection closes. |
| ClientProperties.AuthFailureScenario | samsung_ac/client.py:140-143 | Authentication failure run: error 403 is reported, the connection closes, and nothing more is written whatever follows. |
| TokenProtocol.HandleLines | samsung_ac/protocol.py:38-100 | The line loop closes the transport only together with ending the session, and only appends to the write log. |
| TokenProtocol.ReceiveChunk | samsung_ac/protocol.py:22-26 | The transport is closed after a chunk exactly when it was already closed or `stay_connected` is false after handling. |
| TokenProtocol.RejectVersion | samsung_ac/protocol.py:40-48 | An unsupported version closes the transport at once, clears `stay_connected` and reports it, without writing. |
| TokenProtocol.ProcessChunk | samsung_ac/protocol.py:34-38 | `handle_data` resets `stay_connected` and runs the line loop; it closes the transport only together with ending the session, and never reopens it. |
| TokenProtocol.Step | samsung_ac/protocol.py:22-26 | One event: a chunk reaches `data_received` only while the transport is open, and a pairing expiry only while a pairing timer is armed. A closed transport stays closed and ignores chunks. |
| TokenProtocol.Run | samsung_ac/protocol.py:22-26 | Once the transport is closed, no sequence of events reopens it. |
| TokenProtocol.TokenClientProtocol.constructor | samsung_ac/protocol.py:9-15 | A fresh protocol is not waiting, has no timers and no transport. |
| TokenProtocol.TokenClientProtocol.ConnectionMade | samsung_ac/protocol.py:17-20 | Records the transport and marks the protocol connected. |
| TokenProtocol.TokenClientProtocol.ConnectionLost | samsung_ac/protocol.py:28-31 | Marks the protocol disconnected. |
| TokenProtocol.TokenClientProtocol.DataReceived | samsung_ac/protocol.py:22-26 | The new state is `ReceiveChunk` of the old state. |
| TokenProtocol.TokenClientProtocol.HandleData | samsung_ac/protocol.py:34-100 | The loop with early returns leaves exactly the state `ProcessChunk` specifies. |
| TokenProtocol.TokenClientProtocol.WaitForTokenExpired | samsung_ac/protocol.py:108-111 | The new state is the pairing-timer expiry of the old state. |
| TokenProtocolProperties.SkippedLinesChangeNothing | samsung_ac/protocol.py:38-51 | A chunk holding neither a rejected version nor a document changes no state at all. |
| TokenProtocolProperties.FirstStopDecides | samsung_ac/protocol.py:38-100 | At most one line per chunk is acted on: the chunk's effect is that of its first rejected version or first document. |
| TokenProtocolProperties.QuietChunkKeepsConnection | samsung_ac/protocol.py:35 | A chunk with nothing to act on keeps the connection open and changes nothing else. |
| TokenProtocolProperties.UnsupportedVersionCloses | samsung_ac/protocol.py:40-48 | A version line other than `DPLUG-1.6` closes the transport, clears `stay_connected` and abandons the rest of the chunk. |
| TokenProtocolProperties.InvalidateAccountRequestsToken | samsung_ac/protocol.py:55-66 | InvalidateAccount writes exactly one GetToken request, with no token involved. The connection stays open and the wait flag is unchanged. |
| TokenProtocolProperties.TokenCompletionCloses | samsung_ac/protocol.py:69-76 | A completed non-empty token clears the wait, reports the token, writes nothing and closes the connection. |
| TokenProtocolProperties.UnhandledDocumentIsReported | samsung_ac/protocol.py:98-100 | Any document the flow does not handle, including a completion with an empty token, is only reported. The connection stays open. |
| TokenProtocolProperties.RefusalEndsOnlyWhileWaiting | samsung_ac/protocol.py:89-96 | Authenticate/Fail ends the session exactly when the token is awaited. Otherwise it is only reported. |
| TokenProtocolProperties.ChunkKeepsWait | samsung_ac/protocol.py:53-100 | A chunk whose decisive document neither completes nor refuses the token keeps `waiting_for_token` set, reports no token and disarms no pairing timer. |
| TokenProtocolProperties.WaitHolds | samsung_ac/protocol.py:69-111 | Over any run of events none of which completes or refuses the token, the wait survives and no token is reported; with no pairing expiry among them, no pairing timer is lost. |
| TokenProtocolProperties.PairingTimesOut | samsung_ac/protocol.py:81-111 | GetToken/Ready arms the pairing wait. After any events that neither complete nor refuse the token, the token is still awaited and none has been reported; the timer is still pending if no expiry came in between, and the next expiry of an armed timer closes the connection and reports that pairing expired, still without a token. |
| TokenProtocolProperties.RunAppend | samsung_ac/protocol.py:22-26 | Handling two runs of events one after the other is handling their concatenation. |
| TokenProtocolProperties.ClosedWithoutPairingIsQuiet | samsung_ac/protocol.py:108-111 | A closed link that no longer awaits a token stays closed, writes nothing and emits no diagnostic, whatever fires. |
| TokenProtocolProperties.TokenCompletionWinsRace | samsung_ac/protocol.py:69-76 | A completed token yields exactly one result. A later pairing-timer expiry adds nothing. |

## Left out

- XML parsing and serialisation are done by `xmltodict`, a foreign library. Received documents are the abstract `Doc` values. Requests are `Request` values. The envelope round trip is therefore not modelled.
- A document missing an attribute the code reads (for example `@Status` or `DeviceState/Device`) raises `KeyError` in Python. The model assumes every attribute is present.
- Decoding the received bytes and `splitlines()` are not modelled. A chunk is given as its sequence of lines.
- `handle_data` does not buffer partial lines across chunks (client.py:54,68; protocol.py:36,52). A `<?xml` line that is cut off or otherwise malformed makes `xmltodict.parse` raise, and the exception aborts the connection through asyncio. The model assumes every `<?xml` line decodes to a `Doc`.
- TLS and socket setup, and the `on_con_lost` future, are I/O plumbing in samsung_ac/__init__.py and are not part of this model.
- asyncio scheduling is replaced by explicit timer events. Each armed timer is a pending count, and its expiry is an event. The 30-second and periodic durations are not modelled.
- `waiting_for_token` is set when the `wait_for_token` task starts running (client.py:203, protocol.py:105). The model sets it when the timer is armed.
- Events the event loop would not deliver are skipped by `Run`: a chunk on a closed transport, or a timer expiry with no timer armed.
- Writes made after the transport is closed are still recorded. Whether asyncio drops them is not modelled.
- Printing is recorded as a ghost log of diagnostics. The "Protocol version", "Connected" and "Disconnected" messages are not recorded.
- The response callback is recorded as a ghost log of the documents passed to it. What the callback does (stream-stats.py) is not part of this model.
- protocol.py keeps its `ac` argument but never reads it, so the model of that variant has no configuration.
- protocol.py closes the transport twice after an unsupported version, once in `handle_data` and once in `data_received`. Closing is idempotent, so the model has a single closed flag and cannot tell the two apart.
- get-stats.py, stream-stats.py and get-auth-token.py (argument parsing, configuration files, InfluxDB export, JSON output, and the float coercion of numeric attribute values) are not part of this model.
