# NotifyIt channel bookkeeping, modelled in Dafny

NotifyIt relays events to browsers connected over socket.io. An HTTP
`POST /pub/:channel/:eventName` is broadcast to every connected socket. When a
Postgres connection string is configured ("bridging"), a socket may
`subscribe` to a channel. The first subscriber of a channel opens one Postgres
client that `LISTEN`s on it. That client's notifications are sent as
`notification` events to the channel's room. When a socket disconnects, a
cleanup for each of its rooms is deferred with `process.nextTick`, and each
cleanup ends the channel's client.

The model is one sequential state machine, class `NotifyIt.Hub`. Node runs the
callbacks one at a time, so each callback is a method that runs to completion.
The state is:

- `roomsOf`: the socket manager's room table. It maps each connected socket to
  the room keys it is in, in the order it joined them. socket.io files the
  namespace room as `""` and `join(channel)` as `"/" + channel`
  (`Naming.RoomKey`). `Connected()` and `Room(key)` are derived from it.
- `listening`: the module-level map from a channel to its upstream client.
- `owner`: each live upstream client and the channel its notification
  handler captured. `nextHandle` hands out fresh client identities.
- `pending`: the room keys of deferred cleanups that have not run yet, oldest
  first. `RunCleanup` is the separate step that drains it.
- `log` (ghost): every `Opened(handle, channel)` and `Closed(handle)` of an
  upstream client.
- `bridging`: whether a connection string was configured.

`Valid()` ties the log to the live clients (`OpenClients(log) == owner`). It
also requires `listening` and `owner` to be inverse maps, and that no socket is
in a room twice. Every step preserves it. So at most one upstream client is open
per channel (`AtMostOneClientPerChannel`).

Steps return what they emit as `Emission(to, name, data)` values. `to` is the
exact set of sockets reached. `JSON.parse` is an oracle passed in as a
function `Parser = string -> Option<Json>`.

Behaviour as written, which the model keeps:

- The cleanup reads `.lenth` of the room's clients array. That property does
  not exist, so the count is always `undefined` and teardown always runs
  (`Lenth`, `TeardownGateAlwaysOpen`). A channel's client is therefore ended
  when the first of its members disconnects, even if other members remain
  (`Scenarios.PrematureTeardown`).
- A second cleanup for the same channel finds no entry and calls `.end()` on
  `undefined`. The model returns this as the outcome `EndOnUndefined` and
  changes nothing else.
- Where a reference-counted design would differ, the model follows the code.
  Teardown does not wait for the channel to be empty. Closing a client twice is
  an error, not a no-op. Notifications go only to the channel's room, never
  under `all`. A malformed JSON body is answered 500 and then 200.
- The cleanup finds its channel with `room.split('/')[1]`. A channel whose name
  contains `/`, such as `"a/b"`, is therefore cleaned up as `"a"`
  (`Naming.CleanupOfNestedName`). So the `"a/b"` client is never ended, and its
  `listening` entry outlives the room's last member
  (`Scenarios.NestedChannelNeverEnded`). If `"a"` has a client, a cleanup of
  `"/a/b"` ends it while `"a"` still has members
  (`Scenarios.NestedCleanupEndsParent`).
- `publish` logs `obj.toString()` before it emits. A parsed object with its own
  `"toString"` key, such as the body `{"toString":1}`, makes that call throw. So
  does an array holding such an object. Nothing is then emitted, and the
  handler never sends its 200 (`Scenarios.ToStringKeyAbortsPublish`).
- Without a `:` restriction on channel names, two different publishes can share
  one event name (`Naming.EventNameCollides`).

## Model

| member | source | states |
|---|---|---|
| `Naming.EventName` | notifyit.js:110 | The event name is the channel, then `:`, then the event name: both parts can be read back from it. |
| `Naming.EventNameInjective` | notifyit.js:110 | When neither channel holds `:`, equal event names mean equal channels and equal event names. |
| `Naming.EventNameCollides` | notifyit.js:110 | `("a:b","c")` and `("a","b:c")` give the same event name. |
| `Naming.RoomKey` | notifyit.js:128 | The room key of a channel is `/` followed by the channel, which can be read back from it. |
| `Naming.UpToSlash` | notifyit.js:154 | The result is the prefix of the string before its first `/`, or the whole string if it has no `/`. |
| `Naming.AfterFirstSlash` | notifyit.js:154 | It is undefined exactly when there is no `/`. Otherwise it is the text after the first `/`. |
| `Naming.SecondSegment` | notifyit.js:154 | `split('/')[1]` is undefined exactly when there is no `/`. Otherwise it is the text right after the first `/`, free of `/`, and followed by a `/` or the end of the string. |
| `Naming.CleanupChannel` | notifyit.js:154-158 | The name looked up in `listening` is `"undefined"` for a key without `/`. Otherwise it is the `/`-free second segment. |
| `Naming.CleanupChannelOfRoomKey` | notifyit.js:154 | Cleaning up the room of a channel looks up the channel's text before its first `/`. This equals the channel exactly when the channel has no `/`. |
| `Naming.CleanupOfOrders` | notifyit.js:153-154 | The room key `"/orders"` is cleaned up as channel `"orders"`. |
| `Naming.CleanupOfNestedName` | notifyit.js:154 | The room of channel `"a/b"` is cleaned up as `"a"`. |
| `PubRoute.RoutePub` | notifyit.js:83-104 | A JSON body that fails to parse gets statuses 500 then 200 and is never published. Otherwise the status is 200. A JSON body that parses is published as the parsed value exactly when that value is truthy. A non-JSON body is published verbatim exactly when it is non-empty. Anything published is truthy. |
| `NotifyIt.Joined` | notifyit.js:128 | Joining adds the room key and keeps the earlier rooms in order. Joining a room the socket is already in changes nothing. It never creates a duplicate. |
| `NotifyIt.Without` | notifyit.js:184 | Leaving removes exactly that room key. It keeps the list duplicate-free. |
| `NotifyIt.NonEmptyKeys` | notifyit.js:182-186 | The keys the disconnect loop acts on are exactly the socket's non-empty room keys. Each appears once. |
| `NotifyIt.Lenth` | notifyit.js:155 | Reading `.lenth` of a room's client array yields `undefined`, whatever the members. |
| `NotifyIt.Falsy` | notifyit.js:156 | `!cnt` holds for `undefined`. For a number it holds exactly when the number is 0. |
| `NotifyIt.TeardownGateAlwaysOpen` | notifyit.js:155-156 | `!cnt` holds for every set of room members, because `.lenth` is undefined. |
| `NotifyIt.Hub.constructor` | notifyit.js:13 | The hub starts with no sockets, an empty `listening` map, no clients, no pending cleanups and an empty log. |
| `NotifyIt.Hub.AtMostOneClientPerChannel` | notifyit.js:130-136 | Two open upstream clients that listen on the same channel are the same client. |
| `NotifyIt.Hub.Connect` | notifyit.js:172-177 | A new socket is added to the namespace room. Without bridging it alone is sent `connected`. With bridging nothing is sent. Upstream state and the cleanup queue are unchanged. |
| `NotifyIt.Hub.Join` | notifyit.js:128 | Only the subscribing socket's room list changes, to `Joined` with the channel's room key. |
| `NotifyIt.Hub.Subscribe` | notifyit.js:127-136 | Without bridging nothing changes. With bridging the socket joins the channel's room. A fresh client is opened, stored and logged only when the channel had no entry. Every other entry is unchanged. |
| `NotifyIt.Hub.Notify` | notifyit.js:137-145 | A parsed payload gives exactly one `notification` emission, to the members of the client's channel room. An unparsable one gives no emission. State is unchanged. |
| `NotifyIt.Hub.Publish` | notifyit.js:109-120 | `obj.toString()` throws exactly when the object is a parsed value with its own `"toString"` key, or an array holding one. Then nothing is emitted. Otherwise there are exactly two emissions: first under `channel:eventName`, then under `all`. Both go to every connected socket and carry the envelope `{channel, eventName, data}` of the inputs. State is unchanged. |
| `NotifyIt.Hub.RoutePubRequest` | notifyit.js:83-120 | The handler throws exactly when `RoutePub` publishes an object whose `toString()` throws. Then no status is sent and nothing is emitted. Otherwise the statuses are those of `RoutePub`. Nothing is emitted for a malformed JSON body, an empty raw body or any other falsy object. Otherwise the emissions are exactly `Publish`'s for the published object. |
| `NotifyIt.Hub.LeaveAllRooms` | notifyit.js:181-186 | The loop leaves every room key of the socket except the empty one. The socket stays in the namespace room, and no other room remains. It schedules one cleanup per key left, in join order. No other socket changes. |
| `NotifyIt.Hub.Disconnect` | notifyit.js:179-187 | After the handler the socket is gone from every room. One cleanup is queued per non-empty room key. `listening`, the clients and the log are unchanged. |
| `NotifyIt.Hub.RunCleanup` | notifyit.js:150-163 | It pops the oldest cleanup. If the room's channel, `split('/')[1]`, has an entry, that client is ended, logged and deleted, whatever members remain. Otherwise the outcome is `EndOnUndefined` and nothing else changes. |
| `Scenarios.TwoSubscribers` | notifyit.js:127-136 | Two sockets subscribe to `orders`, one of them twice. Each is in the room once, and a single client is open. |
| `Scenarios.DisconnectA` | notifyit.js:179-187 | The first member's disconnect queues one cleanup, for `"/orders"`, and leaves `b` alone in the room with the client still open. |
| `Scenarios.FirstDisconnect` | notifyit.js:150-163 | The first member's disconnect ends the `orders` client and deletes its entry while `b` is the room's remaining member. |
| `Scenarios.PrematureTeardown` | notifyit.js:150-163 | After the first disconnect the client is ended while `b` is still in the room. The second cleanup fails on the missing entry. |
| `Scenarios.WithoutBridging` | notifyit.js:172-177 | Without bridging a new socket gets `connected`. A subscribe joins no room and opens no client. |
| `Scenarios.FanOut` | notifyit.js:109-145 | A publish on `orders` reaches a subscriber and a non-subscriber. A notification on `orders` reaches the subscriber only. |
| `Scenarios.ToStringKeyAbortsPublish` | notifyit.js:99-117 | The JSON body `{"toString":1}` makes the handler throw: no status is sent and nothing is emitted. |
| `Scenarios.NestedChannelNeverEnded` | notifyit.js:150-163 | After the only subscriber of `"a/b"` disconnects, the cleanup fails on `"a"`. The `"a/b"` client stays open and keeps its `listening` entry. |
| `Scenarios.NestedCleanupEndsParent` | notifyit.js:150-163 | A subscriber of `"a/b"` disconnecting ends the client of `"a"` while `"a"` still has a member. The `"a/b"` client stays open. |

## Left out

- Express setup, view rendering, the index page, static routes and the streaming body reader (notifyit.js:28-54, 72-74): framework I/O. The request body enters the model as a string.
- Port selection and environment reading (notifyit.js:57-63): configuration. Only the resulting `bridging` flag is modelled.
- `start` and `stop` (notifyit.js:196-207): server lifecycle, no channel state.
- Postgres networking: `new pg.Client`, `connect()` and the `LISTEN` query text (notifyit.js:133-135) are foreign calls. A client is an opaque handle with open and close events in the ghost log. Connection failures are not modelled.
- The internals of `JSON.parse`: it is an oracle parameter. JavaScript numbers are reals, not floating point.
- socket.io's transport and room manager. Emissions are returned as values, not delivered. In socket.io 0.9, `leave` prefixes the namespace again to the key it is given (`"/orders"` becomes `"//orders"`). So the handler's own `leave` calls remove nothing, and the memberships go only when the manager removes the socket after the handler. The model removes the given key inside the loop instead. The state after `Disconnect` is the same either way, and no other step runs in between.
- `console.log` and `colors` output (notifyit.js:117 and elsewhere). The log text is not modelled. Whether `obj.toString()` throws is modelled.
- NotifyIt.Hub.RoutePubRequest: when `publish` throws, the model records no status and no emission. The error response Express then produces is not modelled.
- `response.send` semantics. Both statuses passed to it are recorded in order. What the client actually receives after a second `send` is not modelled.
- The timing of `process.nextTick`. Cleanups sit in a FIFO queue. Other steps are allowed to run before the queue is drained, which allows more interleavings than Node does.
- NotifyIt.Hub.RunCleanup: the `TypeError` from `.end()` on `undefined` is returned as the outcome `EndOnUndefined`. The model does not make it end the process.
- Channel names are strings. Non-string `subscribe` arguments are not modelled. So are names that collide with inherited JavaScript object properties in `listening`, such as `hasOwnProperty` and `__proto__`. Nor is the empty channel name: socket.io 0.9 files `join("")` under `"/"`, but `io.sockets.in("")` addresses the whole namespace, so the model's `Notify` would reach room `"/"` instead. That case does not arise in practice, because Postgres rejects `LISTEN ""` (notifyit.js:135).
