# eventbus-plus in Dafny

eventbus-plus bridges a browser to the Vert.x event bus over one WebSocket. Both sides
exchange one JSON envelope with six optional fields (`type`, `data`, `address`,
`replyAddress`, `trackId`, `body`).

The **server** is a WebSocket handler. It dispatches each envelope on its `type`:
- `ping` is answered with `pong`.
- `register` creates a bus consumer for the session and acknowledges it with the client's
  track id once the bus confirms it.
- `unregister` cancels one consumer.
- `send` either issues a bus request, answers a bus message held for a reply, or does a plain
  send.
- `publish` broadcasts.

The server keeps two process-wide maps. The registry maps a session to its consumers by
address. The correlator holds the bus messages that wait for a reply, keyed by their reply
address. Closing a connection cancels all of its consumers.

The **client** (`EventBus` in the browser library) keeps:
- a table of handlers per address;
- one-shot tables for pending replies and pending registrations;
- a queue of subscriptions made before the connection was ready, drained when the server
  sends `done`;
- the connection state.

It turns the page URL into a WebSocket URL, and reconnects after a drop the user did not ask
for.

The project is five modules:
- `Wrappers` (`wrappers.dfy`): `Option`.
- `Envelopes` (`envelope.dfy`): the envelope record and its `PONG` and `DONE` constants.
- `Bridge` (`bridge.dfy`): the server, as the class `Server`. Its state is the registry, the
  correlator, an outbox of envelopes written to sessions, and a log of the calls made on the
  bus. The bus's later callbacks are methods that the environment calls:
  - `OnRegisterComplete`: a registration is confirmed.
  - `OnDelivery`: a message is delivered to a consumer.
  - `OnRequestResult`: a request's result arrives.
- `WsUrl` (`ws_url.dfy`): the client's URL rewrite `_toWS` and JavaScript's `String.replace`
  with a string pattern.
- `EventBusClient` (`client.dfy`): the client, as the class `EventBus`. What it sends is
  appended to `outbox`. The callbacks it calls and the promises it settles are appended to
  `invoked`. Socket events are methods the environment calls.

The two Java handlers are one model. `src/main/java/io/github/bigtrouble/EventBusPlusWSHandler.java`
and `src/main/java/com/kiabus/EventBusPlusWebSocketHandler.java` differ only in the WebSocket
API they are written against. Their parts correspond as follows (first file, then second):
- `Bridge.Server.OnOpen`: `afterConnectionEstablished` (44-46), `onOpen` (40-43).
- `Bridge.Server.HandleText`: `handleTextMessage` (49-60), `onMessage` (45-56).
- `Bridge.Server.OnClose`: `afterConnectionClosed` (64-73), `onClose` (59-69).
- `Bridge.Server.OnSend`: `onSendMessage` (80-100), `onSendMessage` (76-96).
- `Bridge.Server.OnUnregister`: `onUnRegister` (106-120), `onUnRegister` (102-116).
- `Bridge.Server.OnRegister`: `onRegister` (126-143), `onRegister` (122-139).
- `Bridge.Delivery`: `deliverMessage` (146-160), `deliverMessage` (142-156).
- `Bridge.Server.OnRequestResult`: the failure branch calls the `deliverErrorMessage` stub
  (163-165 and 159-161), which does nothing.

Where the code and the design intent differ, the model follows the code. The two exceptions
are the defects listed under "## Findings": the client class uses the corrected definitions
there, and "## Left out" names each member affected. The differences the model keeps:
- A duplicate `register` overwrites the registry entry. The old consumer is never cancelled.
- An unknown address or session in `unregister` is only logged.
- A failed request sends nothing to the client.
- The client does reconnect. `_init` is scheduled again after a close the user did not ask
  for.
- The client's unregister envelope has type `unRegister`, which the server's switch does not
  match. `EventBusClient.ServerIgnoresClientUnregister` states this. Together with the
  `Unknown` case of `Bridge.Server.HandleText`, it shows that a client unregister leaves the
  server's state unchanged.

Error paths that the code does not handle are modelled as `Threw`:
- A null `type` makes the `switch` throw.
- A null address is rejected by the bus's `consumer`, `request` and `publish`, and by the
  `remove` of a concurrent map.

In each case nothing changes.

## Model

| member | source | states |
|---|---|---|
| Envelopes.Blank | src/main/java/com/kiabus/EventBusMessage.java:7-17 | the no-argument envelope has all six fields absent, and it is the only envelope that does |
| Envelopes.Pong | src/main/java/com/kiabus/EventBusMessage.java:19-24 | `PONG` has type `pong` and no other field |
| Envelopes.Done | src/main/java/com/kiabus/EventBusMessage.java:20-24 | `DONE` has type `done` and no other field |
| Bridge.RouteOf | src/main/java/io/github/bigtrouble/EventBusPlusWSHandler.java:52-59 | a null type is the throwing case; a type outside the five cases is the logging default; each of `ping`, `register`, `unregister`, `send` and `publish`, spelled exactly, and nothing else reaches its own branch |
| Bridge.Put | src/main/java/io/github/bigtrouble/EventBusPlusWSHandler.java:137-138 | after `register` the key (session, address) holds the new consumer, whatever it held before; every other key is untouched; the session becomes known |
| Bridge.Unregistered | src/main/java/io/github/bigtrouble/EventBusPlusWSHandler.java:107-112 | the named key becomes empty, every other key is untouched, no session is added or removed, and a missing key leaves the registry as it was |
| Bridge.UnregisterActions | src/main/java/io/github/bigtrouble/EventBusPlusWSHandler.java:112-119 | exactly the named consumer is cancelled when present, and nothing otherwise |
| Bridge.Closed | src/main/java/io/github/bigtrouble/EventBusPlusWSHandler.java:65 | the closed session loses its whole inner map; every other session keeps all its consumers |
| Bridge.CancelAll | src/main/java/com/kiabus/EventBusPlusWebSocketHandler.java:62-68 | the teardown loop cancels every consumer of the session exactly once and does nothing else, in any iteration order |
| Bridge.SendAction | src/main/java/io/github/bigtrouble/EventBusPlusWSHandler.java:93-98 | a replyless send answers the message held under its address exactly when the correlator holds one, passing on the body; otherwise it is a plain bus send to the address |
| Bridge.SendsTo | src/main/java/io/github/bigtrouble/EventBusPlusWSHandler.java:92-99 | successive replyless sends to one address make one bus call each, in order, the held message being removed by the first; `Bridge.HeldMessageAnsweredOnce` states which calls answer |
| Bridge.HeldMessageAnsweredOnce | src/main/java/io/github/bigtrouble/EventBusPlusWSHandler.java:92-99 | of successive replyless sends to one address, only the first answers the held message; every later one, and the first when nothing is held, is a plain bus send |
| Bridge.Remember | src/main/java/io/github/bigtrouble/EventBusPlusWSHandler.java:152-156 | a delivery expecting a reply adds exactly its reply address to the correlator, holding that message; other entries stay; a delivery without one leaves the correlator as it was |
| Bridge.RememberedIsAnswered | src/main/java/com/kiabus/EventBusPlusWebSocketHandler.java:88-95 | the message a delivery held is what the next replyless send to its reply address answers, once; later sends there are plain sends |
| Bridge.Delivery | src/main/java/com/kiabus/EventBusPlusWebSocketHandler.java:142-156 | a reply envelope carries only the reply address and the body; a subscription delivery carries the subscribed address, the message's own reply address and the body; neither has a type |
| Bridge.RegisterAck | src/main/java/io/github/bigtrouble/EventBusPlusWSHandler.java:131-136 | the acknowledgment carries the client's track id and the body `{address}`, and no type, address or reply address |
| Bridge.UnregisterUndoesRegister | src/main/java/io/github/bigtrouble/EventBusPlusWSHandler.java:106-143 | unregistering a freshly registered address restores the registry, except that a new session keeps an empty inner map |
| Bridge.Server.constructor | src/main/java/io/github/bigtrouble/EventBusPlusWSHandler.java:33-34 | both maps start empty and nothing has been written or called |
| Bridge.Server.OnOpen | src/main/java/com/kiabus/EventBusPlusWebSocketHandler.java:40-43 | opening a connection writes exactly `DONE` to it and changes nothing else |
| Bridge.Server.HandleText | src/main/java/io/github/bigtrouble/EventBusPlusWSHandler.java:48-60 | per type: `ping` writes exactly one `pong`; an unknown type only logs; a null type throws; both leave the maps untouched; `publish` makes one bus publish; the others as below |
| Bridge.Server.OnRegister | src/main/java/io/github/bigtrouble/EventBusPlusWSHandler.java:126-143 | one new consumer subscribed and filed under (session, address); a previous consumer there is overwritten, differs from the new one and is not cancelled, and the overwrite is only logged |
| Bridge.Server.OnUnregister | src/main/java/io/github/bigtrouble/EventBusPlusWSHandler.java:106-120 | a present address is removed and only its consumer is cancelled; an unknown session or address changes nothing and is logged |
| Bridge.Server.OnSend | src/main/java/io/github/bigtrouble/EventBusPlusWSHandler.java:80-100 | with a reply address, one bus request; without one, the held message is taken out of the correlator and answered, or else a plain send |
| Bridge.Server.OnClose | src/main/java/io/github/bigtrouble/EventBusPlusWSHandler.java:64-73 | the session's inner map is removed and each of its consumers cancelled once; other sessions, the correlator and the outbox are untouched |
| Bridge.Server.OnRegisterComplete | src/main/java/com/kiabus/EventBusPlusWebSocketHandler.java:127-132 | the consumer's session receives exactly the acknowledgment with its track id and address |
| Bridge.Server.OnDelivery | src/main/java/io/github/bigtrouble/EventBusPlusWSHandler.java:146-160 | the subscribed session receives one envelope naming the subscribed address; a message expecting a reply is held in the correlator under that reply address |
| Bridge.Server.OnRequestResult | src/main/java/io/github/bigtrouble/EventBusPlusWSHandler.java:84-91 | a successful request writes one envelope with the original reply address and the reply's body and no address; a failed one writes nothing |
| WsUrl.ReplaceFirst | src/main/front/src/eventbus-plus.js:22-23 | JavaScript's `replace` with a string pattern; it has no contract of its own, and `WsUrl.ReplaceAbsent` and `WsUrl.ReplaceAtFirst` state what it does |
| WsUrl.Absolute | src/main/front/src/eventbus-plus.js:21 | the path made absolute; no contract of its own, its two cases are stated through `WsUrl.ToWS` |
| WsUrl.ToWSAsWritten | src/main/front/src/eventbus-plus.js:20-25 | `_toWS` as written; no contract of its own, `WsUrl.AsWrittenAgreesOnPlainUrls` and `WsUrl.EmbeddedSchemeIsRewritten` state how it behaves |
| WsUrl.ReplaceAbsent | src/main/front/src/eventbus-plus.js:22-23 | `replace` returns its input when the pattern does not occur |
| WsUrl.ReplaceAtFirst | src/main/front/src/eventbus-plus.js:22-23 | `replace` rewrites exactly the first occurrence of the pattern and keeps what surrounds it |
| WsUrl.ToWS | src/main/front/src/eventbus-plus.js:20-25 | a path not starting with a scheme gets the origin in front; an `https://` URL becomes `wss://` and an `http://` one `ws://`, with the rest kept |
| WsUrl.ToWSRoundTrip | src/main/front/src/eventbus-plus.js:20-25 | mapping the WebSocket scheme back gives the absolute HTTP URL: nothing but the scheme is changed |
| WsUrl.AsWrittenAgreesOnPlainUrls | src/main/front/src/eventbus-plus.js:20-25 | the code as written and the scheme-only rewrite agree on every URL that holds no second `http://` or `https://` |
| WsUrl.EmbeddedSchemeIsRewritten | src/main/front/src/eventbus-plus.js:22-23 | for `http://a/https://b` the code as written gives `ws://a/wss://b`; the scheme-only rewrite gives `ws://a/https://b` |
| EventBusClient.ServerIgnoresClientUnregister | src/main/front/src/eventbus-plus.js:331-335 | the client's `unRegister` envelope takes the server's logging default, never its unregister branch |
| EventBusClient.ServerRoutesClientEnvelopes | src/main/front/src/eventbus-plus.js:196-307 | the client's `register`, `send`, request and `publish` envelopes each reach the server branch for their kind (envelopes without `headers`; see "## Left out" on Jackson) |
| EventBusClient.ClientRoutesServerEnvelopes | src/main/front/src/eventbus-plus.js:39-117 | `pong`, `done`, a register acknowledgment, a reply and a subscription delivery from the server each take the listener branch meant for them |
| EventBusClient.BranchOf | src/main/front/src/eventbus-plus.js:39-116 | the listener's chain of tests: `pong` and `done` by type first, then a non-empty address, then a non-empty reply address, then a non-empty track id, each branch carrying the value tested; anything else is stray |
| EventBusClient.IndexOf | src/main/front/src/eventbus-plus.js:328 | the index of the first record with the callback, or -1 exactly when no record has it |
| EventBusClient.AddRecord | src/main/front/src/eventbus-plus.js:293-313 | the record is appended to its address's list, which is created when missing; other addresses keep their lists |
| EventBusClient.RemoveRecord | src/main/front/src/eventbus-plus.js:325-339 | the first record with the callback is spliced out, an emptied address is deleted, other addresses keep their lists, and an unknown address or callback changes nothing |
| EventBusClient.RemoveUndoesAdd | src/main/front/src/eventbus-plus.js:325-339 | unregistering a callback undoes the `consumer` call that filed it |
| EventBusClient.InvokeHandlersAsWritten | src/main/front/src/eventbus-plus.js:65-81 | the handler loop as written: with a reply needed and two or more handlers it throws at the second handler and calls no more; with a reply needed and no handler it throws at the closing warning; on a closed connection the first reply attempt throws |
| EventBusClient.InvokeHandlers | src/main/front/src/eventbus-plus.js:62-82 | every handler is called in order, and a message needing a reply gets exactly the first handler's result as its only reply; on a closed connection the first reply attempt throws |
| EventBusClient.DrainIsFifo | src/main/front/src/eventbus-plus.js:49-56 | draining the queue is first-in first-out: each address gets its queued records after its earlier ones, in queue order |
| EventBusClient.RegistersOncePerNewAddress | src/main/front/src/eventbus-plus.js:293-309 | the drain sends `register` once for each address that had no record and never for one that did; afterwards the addresses with records are the old ones plus these |
| EventBusClient.NewRecords | src/main/front/src/eventbus-plus.js:49-56 | the records a drain files as pending registrations: one per address it sends `register` for, at the same index and for that address |
| EventBusClient.PendingKeys | src/main/front/src/eventbus-plus.js:295-301 | filing pending registrations adds exactly the new track ids as keys and keeps every earlier entry |
| EventBusClient.PendingFilesEach | src/main/front/src/eventbus-plus.js:295-301 | with distinct track ids, each id holds the record filed with it |
| EventBusClient.LongerThanAll | src/main/front/src/eventbus-plus.js:7-11 | every table has a key length beyond all its keys, so there is always a fresh `t-` or `reply-` id |
| EventBusClient.Stalled | src/main/front/src/eventbus-plus.js:49-55 | the queue a drain on a connection that is not open leaves: empty exactly when no entry has an address; otherwise its last entry, the one `consumer` queued again, has an address, and no entry is new |
| EventBusClient.EventBus.constructor | src/main/front/src/eventbus-plus.js:13-33 | empty tables and queue, state CONNECTING, the socket URL from `_toWS` |
| EventBusClient.EventBus.OnSocketOpen | src/main/front/src/eventbus-plus.js:34 | the state becomes OPEN and nothing else changes |
| EventBusClient.EventBus.OnSocketClose | src/main/front/src/eventbus-plus.js:120-138 | the state becomes CLOSED, and a reconnection is scheduled exactly when the user did not close the bus |
| EventBusClient.EventBus.Reconnect | src/main/front/src/eventbus-plus.js:27-33 | the three tables are reset and the state is CONNECTING again; the queue and the listener sets survive |
| EventBusClient.EventBus.AddEventListener | src/main/front/src/eventbus-plus.js:152-164 | `open` and `close` listeners are added to their set; any other type changes nothing |
| EventBusClient.EventBus.RemoveEventListener | src/main/front/src/eventbus-plus.js:173-185 | `open` and `close` listeners are removed from their set; any other type changes nothing |
| EventBusClient.EventBus.Send | src/main/front/src/eventbus-plus.js:196-207 | on an open connection exactly one `send` envelope goes out; otherwise `INVALID_STATE_ERR` and nothing goes out |
| EventBusClient.EventBus.Publish | src/main/front/src/eventbus-plus.js:261-271 | on an open connection exactly one `publish` envelope goes out; otherwise `INVALID_STATE_ERR` and nothing goes out |
| EventBusClient.EventBus.Request | src/main/front/src/eventbus-plus.js:218-250 | a handler is filed under a fresh `reply-` key and one `send` envelope carrying that key goes out; the promise is returned only without a callback; `INVALID_STATE_ERR` when not open |
| EventBusClient.EventBus.Consumer | src/main/front/src/eventbus-plus.js:280-315 | not open: queued, nothing sent; open and new address: the list `[ret]`, a fresh `t-` pending registration and exactly one `register` with that id; open and known address: one more record, nothing sent, resolved at once |
| EventBusClient.EventBus.UnregisterHandler | src/main/front/src/eventbus-plus.js:325-339 | the handlers become `RemoveRecord` of the old ones; `unRegister` goes out only when the last record of an address goes and the connection is open |
| EventBusClient.EventBus.OnDone | src/main/front/src/eventbus-plus.js:43-59 | open: the queue ends empty, the handlers are the drained ones, the outbox gains exactly the `register`s for the new addresses in order, and the pending registrations gain exactly one record per new address under fresh, distinct track ids; not open: the first entry with an address is queued again, the drain stalls and nothing else changes |
| EventBusClient.EventBus.DrainOpen | src/main/front/src/eventbus-plus.js:49-56 | on an open connection every queued entry is taken off in order; the handlers become the drained table, the outbox gains exactly the `register`s for the new addresses, and the pending registrations gain exactly their records, one fresh track id each |
| EventBusClient.EventBus.DrainNext | src/main/front/src/eventbus-plus.js:49-55 | one more entry is taken off the front of the queue and drained, extending every part of the drained state by that entry |
| EventBusClient.EventBus.DrainStalled | src/main/front/src/eventbus-plus.js:49-56 | on a connection that is not open, entries without an address are dropped and the first with one is queued again by `consumer`, after which the drain waits; handlers, pending registrations and outbox are unchanged |
| EventBusClient.EventBus.DrainEntry | src/main/front/src/eventbus-plus.js:50-55 | one queue entry with an address goes through `consumer`; one without is dropped. On an open connection the entry is filed, and a new address gets exactly one `register` and one pending registration under a fresh track id; otherwise the entry is queued again and the drain stalls |
| EventBusClient.EventBus.OnMessage | src/main/front/src/eventbus-plus.js:35-118 | a reply or track acknowledgment deletes its entry and settles it at most once; an address-bearing message calls the handlers and appends exactly one reply when one is needed, the connection is open and a handler exists, and nothing otherwise; `done` drains as `OnDone` states; `pong` and stray envelopes change nothing |
| EventBusClient.EventBus.Close | src/main/front/src/eventbus-plus.js:345-354 | the state becomes CLOSING, the bus counts as closed by the user, and every table and listener set is empty |

## Left out

- The transports are left out: Spring's `WebSocketSession`, the Jakarta `Session` and the browser `WebSocket`. Frames written are appended to an outbox, and socket events are methods.
- Jackson and `JSON.parse`/`JSON.stringify` are left out. The envelope is a datatype with optional fields, and a body is an opaque token. Jackson's default rejection of unknown properties is therefore not modelled either. It matters because the client sends a `headers` property, which the server's envelope lacks, whenever headers are given: `request(address, body, callback)` sets them to `{}`.
- `headers` are not modelled on the client, for the same reason.
- The Vert.x bus is left out. Its calls are entries in a log, and its callbacks are environment steps. Whether a cancelled consumer still receives messages is the bus's concern.
- Concurrency is left out: the atomicity of `ConcurrentHashMap`, and callbacks on other threads. Steps are sequential.
- The two Java classes each have their own static maps. The model has one server, which stands for either class.
- Logging is left out (`log.*`, `console.*`), except as the `LoggedError` outcome.
- The `deliverErrorMessage` stub is a no-op, so a failed request writes nothing.
- The client's ping timer (`setInterval`/`clearInterval`) and the reconnection delay (`setTimeout`) are left out. `Reconnect` is the callback of that delay.
- The user's open and close listeners and `onopen`/`onclose` are left out: they are kept in sets but not called. The `unregister` closure inside a consumer record is left out; it only calls `UnregisterHandler`.
- `uuidv4` and `EventBus.prototype.uuid` draw on `crypto.getRandomValues`. They become a choice of any prefixed string that is not yet a key.
- User callbacks are pure. A handler cannot register, unregister or send while the listener iterates, so the in-place `splice` during iteration is not modelled. A handler's return value is a function from the callback to the reply body.
- The `msg.err` branch for replies is left out. A reply settles its handler with `msg.body`, because no server path sets `err`.
- EventBusClient.EventBus.OnDone: the `await` between registrations is not modelled. On an open connection the drain runs to the end in one step, and messages that arrive while it waits for an acknowledgment are not interleaved. The resolution of queued `consumer` promises (`resolve(rr)`) is not recorded.
- EventBusClient.EventBus.OnMessage: the address branch runs the corrected handler loop `EventBusClient.InvokeHandlers`, not the one as written. With a reply needed, an open connection and two or more handlers, the code as written throws at the second handler, so a third or later handler is never called (see "## Findings"); the model calls every handler. `EventBusClient.InvokeHandlersAsWritten` models the code as written, including the throw at line 80 for an empty handler list; the class never reaches that case, because an address with no record is deleted from `handlers` (`EventBusClient.WellFiled`).
- EventBusClient.EventBus.constructor: `socketUrl` is the corrected `WsUrl.ToWS`, not `_toWS` as written. For a URL that embeds a second `http://` or `https://` the two differ (see "## Findings"). `WsUrl.AsWrittenAgreesOnPlainUrls` proves they agree on every other URL.
- EventBusClient.EventBus.Reconnect: `socketUrl` is recomputed with the corrected `WsUrl.ToWS`, not `_toWS` as written, for the same reason and with the same scope as the constructor.
- EventBusClient.EventBus.Close: `trackHandlers` becomes an empty map, not `null`. Once the state is CLOSING, no listener step or `consumer` call can reach it.
- EventBusClient: JavaScript object keys inherited from `Object.prototype`, such as `constructor`, are not modelled; such an address in `handlers` would already look present.
- The configuration and test files are not part of this model (`EventBusPlusWebSocketConfig.java`, `TestWebServer.java`, `vite.config.js`). Neither is the `EventBusMessage` of the `io.github.bigtrouble` package: it is taken to have the same six fields as the `com.kiabus` one.

## Findings

| source | as written | input that shows it | evidently intended | confidence | as-written member | corrected member |
|---|---|---|---|---|---|---|
| src/main/front/src/eventbus-plus.js:74 | the warning for a second handler refers to `address`, a name not declared in the listener, so it throws a ReferenceError and the remaining handlers are not called; the warning at line 80 for a reply never sent refers to the same name | an open connection, two handlers on one address, and a message to that address with a reply address | warn (with `msg.address`) and go on calling every handler, replying once | not executed | EventBusClient.InvokeHandlersAsWritten | EventBusClient.InvokeHandlers |
| src/main/front/src/eventbus-plus.js:22-23 | `replace` with a string pattern rewrites the first occurrence anywhere, so a URL whose path or query holds another URL can have that inner scheme rewritten | `http://a/https://b` becomes `ws://a/wss://b` | only the leading scheme is rewritten, giving `ws://a/https://b` | not executed | WsUrl.ToWSAsWritten | WsUrl.ToWS |
