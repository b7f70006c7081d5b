# useWebSocket as a verified state machine

This project models `useWebSocket`, a reconnecting WebSocket client. One
socket carries many named channels. Subscriptions are kept in an ordered
registry and replayed whenever the transport opens again. A heartbeat ping is
sent on an interval.

Every public call (`send`, `subscribe`, `unsubscribe`, `close`, `open`), every
transport event (`onopen`, `onclose`, `onerror`, `onmessage`) and every timer
firing (the reconnect `setTimeout` and the heartbeat `setInterval`) is a pure
function. Each one takes an immutable `State` and returns a `Transition`: the
next state and the trace of effects it performs. Those effects are frames
handed to the transport, transports created or closed, timers started or cancelled, hooks
and callbacks invoked, and errors captured.

Files, leaves first:

- `wrappers.dfy`: `Option`, standing for "maybe undefined".
- `js_values.dfy`: abstract JavaScript values, truthiness, and
  `String.prototype.includes`.
- `frames.dfy`: outbound frames, the classification `send` applies to
  them, inbound frames, and the `first === '0'` normalisation.
- `registry.dfy`: the subscription `Map` as a sequence of
  `(channel, frame, callback)` entries with distinct keys, in insertion order.
- `router.dfy`: the decision the message handler makes for one parsed frame.
- `socket.dfy`: the client state, effects, every operation and event, the
  event dispatcher `Step` and runs of events.
- `socket_properties.dfy`: replay, the invariant over all events and runs,
  message outcomes, and lifecycle scenarios.

The model follows the code as written, including these behaviours a reader
might not expect:

- `send` hands the frame to the transport's `send` whenever a transport
  handle exists, whatever its ready state. This includes CONNECTING, for
  subscribe frames and heartbeat pings alike, not only OPEN
  (`HeartbeatWhileConnecting`). The `Transmit` effect records that hand-off.
- The heartbeat interval is started by `_init`, not on open. `close()` cancels
  neither it nor a pending reconnect. What the model proves is the code's
  guarantee: `_init` clears the interval it holds before starting another, so
  at most one is live (`Inv`).
- `open()` on a live transport goes through `close()`, so it empties the
  registry.
- Reconnect timers are not deduplicated. Each unexpected close event
  schedules one (`ReconnectsAccumulate`).
- The value stored as the last message is the frame after normalisation,
  because the handler changes the parsed object in place before storing it.
- The event handlers do not depend on which transport fired them. They are
  modelled as total steps, so a stale transport's close event behaves as the
  code makes it behave: it clears the current handle and schedules a
  reconnect (`StaleCloseAfterReopen`).

## Model

| member | source | states |
|---|---|---|
| `JsValues.IncludesIff` | src/socket.js:35-39 | the `includes` test on the event holds exactly when the pattern occurs at some position of the event string |
| `Frames.KindOf` | src/socket.js:35-43 | a frame is an add request iff its event contains "addChannel"; it is a remove request iff the event contains "removeChannel" but not "addChannel"; otherwise it is neither |
| `Frames.AddChannelFrameIsAdd` | src/socket.js:114-116 | the frame `subscribe` builds takes the addChannel branch of `send` |
| `Frames.RemoveChannelFrameIsRemove` | src/socket.js:119-121 | the frame `unsubscribe` builds takes the removeChannel branch, because "removeChannel" does not contain "addChannel" |
| `Frames.PingFrameIsPlain` | src/socket.js:1-3 | the heartbeat frame takes neither branch, so it never touches the registry |
| `Frames.Normalize` | src/socket.js:86-88 | when `first` is the string "0", `data` becomes `ticker`; every other field is kept, and other frames are unchanged |
| `Frames.NormalizeIdempotent` | src/socket.js:86-88 | normalising an already normalised frame changes nothing |
| `Registry.HasIff` | src/socket.js:36 | `has(key)` holds iff some entry carries that key |
| `Registry.HasAt` | src/socket.js:36 | the key of every stored entry is reported present by `has` |
| `Registry.HasAppend` | src/socket.js:37 | after appending an entry, a key is present iff it was present before or is the new entry's key |
| `Registry.Lookup` | src/socket.js:89 | `get(key)` finds an entry iff the key is present, and the entry found carries that key |
| `Registry.LookupAt` | src/socket.js:84-89 | with distinct keys, `get` returns exactly the entry stored at the key's position |
| `Registry.Delete` | src/socket.js:41 | after `delete(key)` the key is absent and the registry is no longer than before |
| `Registry.DeleteAbsent` | src/socket.js:40-42 | deleting an absent key leaves the registry identical |
| `Registry.DeleteConcat` | src/socket.js:41 | deleting a key from two registries placed one after the other is deleting it from each |
| `Registry.AbsentAround` | src/socket.js:36-37 | with distinct keys, the key at a position occurs neither before nor after it |
| `Registry.DeleteOnlyOccurrence` | src/socket.js:41 | deleting a key that occurs in exactly one entry removes that entry and keeps what lies before and after it |
| `Registry.DeleteAt` | src/socket.js:119-123 | deleting a present key removes exactly its entry and keeps every other entry in its relative order |
| `Registry.AppendValid` | src/socket.js:36-38 | appending an addChannel entry under an absent key keeps keys distinct and entries well formed |
| `Registry.DeleteValid` | src/socket.js:39-42 | deleting any key keeps the registry invariant |
| `Registry.RemoveAtValid` | src/socket.js:122 | removing one entry keeps the registry invariant |
| `Router.Route` | src/socket.js:79-93 | a frame is discarded iff `tong` is truthy; an error is reported iff the channel is registered and `success` is falsy; a callback runs only for a registered channel with truthy `success`; the frame changes only through normalisation of such a frame |
| `Router.RouteRegistered` | src/socket.js:84-93 | for the channel at position i: with truthy `success`, the normalised frame goes to that entry's callback (or nowhere if it has none); with falsy `success`, the unchanged frame is reported |
| `Router.RouteUnregistered` | src/socket.js:84-93 | a frame for an unregistered channel causes no callback and no error report |
| `Socket.Send` | src/socket.js:33-46 | returns true; only the registry can change; the frame is transmitted iff a transport exists; an add request registers the channel only if it is absent (the first registration wins); a remove request deletes exactly that channel and keeps the others in order; any other frame leaves the registry unchanged; the invariant is preserved |
| `Socket.Subscribe` | src/socket.js:114-118 | a registered channel causes no change and no effect; a new channel appends one `addChannel` entry with the callback at the end, and its frame is transmitted iff a transport exists |
| `Socket.Unsubscribe` | src/socket.js:119-124 | an absent channel causes no change and no effect; a present channel is removed by itself, other entries keep their order, and the `removeChannel` frame is transmitted iff a transport exists |
| `Socket.Close` | src/socket.js:26-31 | without a transport nothing changes; otherwise the client is marked explicitly closed, the registry is emptied, and the transport is closed with code 1000 by default; status and timers are untouched |
| `Socket.Init` | src/socket.js:48-103 | does nothing when explicitly closed or without a url; otherwise it creates a transport, sets CONNECTING, and replaces the held heartbeat interval, so at most one stays live |
| `Socket.OpenClient` | src/socket.js:109-113 | `open()` always clears `explicitlyClosed`; on a live transport it first closes it and empties the registry; with a url it ends CONNECTING and creates a transport for the configured url and protocols; the pending reconnects, the last message and the configuration are unchanged |
| `Socket.OnOpen` | src/socket.js:55-63 | the status becomes OPEN and `onConnected` runs first |
| `Socket.ReplayKeepsStatus` | src/socket.js:58-62 | replaying frames through `send` does not change the status |
| `Socket.OnClose` | src/socket.js:65-72 | status becomes CLOSED and the transport handle is dropped; nothing else changes except one more pending reconnect; the first effect is the `onDisconnected` call with the close event, and a reconnect is scheduled iff the client was not explicitly closed |
| `Socket.OnError` | src/socket.js:74-77 | the state is unchanged; the error is captured with the url and then passed to `onError` |
| `Socket.OnMessage` | src/socket.js:79-96 | a frame with truthy `tong` changes nothing and has no effect; any other frame changes only the last message and fires `onMessage` exactly once, as the final effect |
| `Socket.ReconnectFired` | src/socket.js:70 | a pending reconnect timer fires `_init` once and is consumed; with none pending nothing happens |
| `Socket.HeartbeatTick` | src/socket.js:98-103 | a tick never changes the state; it transmits a ping iff an interval is live and a transport exists |
| `Socket.Create` | src/socket.js:126 | a new client satisfies the invariant with an empty registry and no last message; with `immediate` (default true) and a url it is CONNECTING; without `immediate` or without a url it does nothing |
| `SocketProperties.ReplayTransparent` | src/socket.js:58-62 | replaying registered addChannel frames leaves the state identical and transmits each frame once, in order, iff a transport exists |
| `SocketProperties.RequestsRegistered` | src/socket.js:59-60 | every stored frame is an addChannel request for a channel that is registered, so replaying it never re-registers anything |
| `SocketProperties.OnOpenReplaysRegistry` | src/socket.js:55-63 | on open, the state changes only in status, which becomes OPEN; the effects are `onConnected` followed by exactly the registered frames in insertion order, each once |
| `SocketProperties.StepPreservesInv` | src/socket.js:36-42 | every operation, transport event and timer keeps channels pairwise distinct, entries well formed, and at most one heartbeat interval live |
| `SocketProperties.RunPreservesInv` | src/socket.js:36-42 | every run of events keeps the invariant |
| `SocketProperties.ClientKeepsInv` | src/socket.js:126 | a constructed client keeps the invariant through any sequence of events |
| `SocketProperties.OnMessageRegistered` | src/socket.js:84-95 | for a registered channel: with truthy `success`, the last message becomes the normalised frame and the effects are the callback (if any) and then `onMessage`; with falsy `success`, the effects are the error capture keyed by channel and then `onMessage` |
| `SocketProperties.OnMessageUnregistered` | src/socket.js:84-95 | for an unregistered channel, the last message becomes the frame and `onMessage` is the only effect |
| `SocketProperties.SubscribeTwice` | src/socket.js:114-118 | subscribing twice to one new channel yields one entry, holding the first callback, and one addChannel frame in total |
| `SocketProperties.FirstRegistrationWins` | src/socket.js:35-38 | `send` with an addChannel frame for a registered channel leaves the state unchanged |
| `SocketProperties.DropAndReconnect` | src/socket.js:65-72 | after an unexpected drop, the reconnect timer and the new open event, the state differs only in being OPEN, and every registered frame is sent again in insertion order after the disconnect, reconnect, heartbeat and connect effects |
| `SocketProperties.CloseThenDrop` | src/socket.js:26-31 | an explicit close followed by the close event leaves the client CLOSED with an empty registry and no reconnect scheduled |
| `SocketProperties.StaleCloseAfterReopen` | src/socket.js:65-72 | `open()` on a live transport installs a new one; the old transport's close event, arriving afterwards, drops the new handle, leaves the registry empty and schedules a reconnect |
| `SocketProperties.ReconnectsAccumulate` | src/socket.js:69-71 | two unexpected close events, with an `open()` between them and no timer firing, leave two more reconnects pending |
| `SocketProperties.HeartbeatWhileConnecting` | src/socket.js:98-103 | while CONNECTING, a heartbeat tick hands a ping to the transport |
| `SocketProperties.NoHeartbeatWithoutTransport` | src/socket.js:44 | after the transport's close event, heartbeat ticks transmit nothing |

## Left out

- The real `WebSocket` transport is replaced by effects in the trace. Frames
  are records, so `JSON.stringify` and `JSON.parse` are not modelled, and
  neither is the exception a malformed payload (or a `null` one) would throw
  in the message handler.
- Timer timing is not modelled. Pending reconnects and live heartbeat
  intervals are counts. Timer firings are events, and each one does nothing
  when no timer of its kind is live.
- The `Date`-based ping timestamp is an opaque string parameter.
- Vue `ref` reactivity is not modelled: the refs are plain fields of the state.
- The `beforeunload` listener that `_init` adds when `autoClose` is set is a
  platform hook and is not modelled.
- The hooks (`onConnected`, `onDisconnected`, `onError`, `onMessage`,
  `captureError`) and the channel callbacks are opaque. The trace records each
  call point; when an optional hook was not supplied, its `?.` call does
  nothing, and the model does not distinguish that case.
- The transport passed to the hooks and the raw message event are not
  modelled. `onMessage` is recorded with the parsed frame.
- JavaScript values are abstracted. Numbers are integers, so NaN and
  fractions are not covered. An `event` field that is not a string is treated
  as absent; the real `includes` would throw or behave as array membership.
  A callback that is neither a function nor nullish, which would throw when
  called, is not modelled.
- What a real `WebSocket` does with a frame handed to its `send` is not
  modelled. During CONNECTING it throws `InvalidStateError`. So `subscribe`
  would register the channel and then throw, and a heartbeat tick would throw
  inside its timer callback. During CLOSING the frame is silently discarded.
  The model records only the hand-off (`Transmit`).
- Hooks and channel callbacks are assumed not to call back into the client
  while they run. The source calls them synchronously, so re-entry
  interleaves with the handler that is running. For example, an `onConnected`
  that subscribes a new channel sends that frame once itself, and the replay
  that follows sends it again. The model treats each event as atomic.
- Frames passed to `send` are assumed not to be mutated after the call. The
  registry holds the caller's object by reference, and replay sends its
  current contents. A caller that changes a stored frame's `channel` or
  `event` would break the registry invariant `Valid`, which the model keeps.
- Object-valued channels in inbound frames are over-approximated. In the
  source every parsed frame's objects are fresh, so a parsed object channel
  never equals a registered key under `Map.has`. The model compares values
  structurally, so an inbound `Obj` channel with the same identity as a
  registered one is routed to it. String, number, boolean and nullish
  channels behave as in the source.
- `protocols` and `interval` are carried in the configuration and appear in
  the effects. They have no other role.
