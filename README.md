# Vok.Chat signaling, quality adaptation and ICE configuration in Dafny

Vok.Chat is a two-party video call. This project models three parts of it.

**Signaling relay (`backend/index.js`), module `Signaling`.** A socket.io server keeps an in-memory table from room ids to the ids of the connections that joined them. It runs these handlers:

- `join` creates a room, admits a second occupant and tells the first one, or rejects a third joiner with `session-error`.
- `offer`, `answer` and `ice-candidate` forward an opaque payload, tagged with the sender's id. It goes to the explicit target `to` when that is truthy, and to the rest of the room otherwise.
- `disconnect` filters the leaver out of every list, sends `user-left` to every room, and deletes the lists that became empty.

The class `Coordinator` holds the table and the other state:

- `rooms`: the table.
- `order`: the key order a `for..in` loop follows.
- `joined`: the socket.io room membership, which decides who a room broadcast reaches.
- `connected`: the live connections.
- `outbox`: every emit so far, each paired with the set of connections it reaches at the moment it is made.

`Valid()` is the relay's invariant:

- every listed room has one or two entries;
- the key order lists each room once;
- socket.io membership agrees with the table.

Every handler keeps `Valid()`. `Inbox` reads off what one client receives. `RelayScenario` runs the two-party handshake end to end.

**Quality adaptation (`src/VideoCall.jsx`), module `Quality`.**

- `Classify` turns average round-trip time, jitter and packet loss into a connection quality.
- `Adapt` is the transition rule over the video levels `high`, `medium` and `low`.
- `SettingsFor` is the level-to-encoding table.
- The class `QualityView` holds the call view's level and notification banner. Its methods `AdaptVideoQuality` and `ApplyVideoQualitySettings` rewrite every encoding entry of the video sender in place.

**ICE configuration (`src/turnConfig.js`), module `IceConfig`.** These are the constant STUN, TURN and free-TURN server lists, and `GetIceServers`. `GetIceServers` copies the STUN list, extends the copy with the TURN lists when asked to, and fixes the candidate pool size at 10.

The model follows the code in four places where a reader might expect otherwise:

- **Duplicate joins.** A repeated `join` from the sole occupant is not guarded: the id is appended a second time.
- **Rooms are deleted only when empty.** After one of two occupants leaves, the room still exists with one entry. `RelayScenario` ends with `map[room := [a]]`.
- **`user-left` payload.** It carries the bare id of the leaver, not a message object.
- **No `media-state` handler.** The backend registers none, so `Dispatch` drops the event.

## Model

| member | source | states |
|---|---|---|
| `Signaling.Without` | backend/index.js:88 | the filter drops every occurrence of the id, keeps everything else, and changes nothing when the id is absent |
| `Signaling.WithoutMultiset` | backend/index.js:88 | the filter keeps the multiplicity of every other id |
| `Signaling.MembersMatchTable` | backend/index.js:38-52 | under the invariant a socket.io room holds exactly the ids of the room's list, and an absent room has no members |
| `Signaling.CreateKeepsValid` | backend/index.js:38-42 | creating a room with one live id keeps the invariant |
| `Signaling.AppendKeepsValid` | backend/index.js:45-47 | adding a live id to a one-entry room keeps the invariant |
| `Signaling.Coordinator.constructor` | backend/index.js:30 | the relay starts with an empty table, no memberships and no emits |
| `Signaling.Coordinator.Connect` | backend/index.js:32-33 | a new connection becomes live and nothing else changes |
| `Signaling.Coordinator.Join` | backend/index.js:36-56 | an unknown room is created with the joiner alone, appended to the key order, with no emit. A one-entry room gets the joiner appended, and its earlier occupant, unless it is the joiner itself, gets one `user-joined` with the joiner's id. Any other room stays as it was, and only the joiner gets `session-error` with the fixed message. The invariant is kept |
| `Signaling.Coordinator.Relay` | backend/index.js:58-83 | exactly one emit is appended, carrying the kind, the sender's id and the payload unchanged, and it never reaches the sender. With a truthy `to` it reaches `to` if that connection is live. Otherwise it reaches the listed occupants of the room, or no one for an unknown room |
| `Signaling.Coordinator.Disconnect` | backend/index.js:85-94 | the leaver is no longer live or in any socket.io room. The table is the leaver-filtered table without the emptied lists. The key order keeps the surviving rooms in order. One `user-left` per room of the old key order is appended. The invariant is kept |
| `Signaling.Coordinator.DisconnectOwnRooms` | backend/index.js:85-94 | as `Disconnect`, but `user-left` is appended only for the rooms whose list held the leaver |
| `Signaling.Coordinator.VisitRooms` | backend/index.js:87-92 | the `for..in` loop over a snapshot of the keys leaves the table, the key order and the outbox as the visit-every-key functions give them |
| `Signaling.Coordinator.VisitKey` | backend/index.js:87-92 | one iteration takes the loop's state for the first `i` keys to its state for the first `i + 1` keys |
| `Signaling.Coordinator.DisconnectFrom` | backend/index.js:88-91 | one room's list is filtered and deleted when it becomes empty, and the key order loses that room exactly then. One `user-left`, reaching the room's other socket.io members, is appended (always, or only when the list held the leaver) |
| `Signaling.Coordinator.Dispatch` | backend/index.js:32-95 | each inbound event runs its handler. A `join` has exactly the effect of `Join` in each of its three cases. A signal appends exactly one emit: the kind, the sender's id and the payload, reaching a live truthy `to`, or otherwise the room's listed occupants, and never the sender. Only `join` changes the table or memberships. `media-state` changes nothing. The invariant is kept |
| `Signaling.PruneKeysAt` | backend/index.js:87-91 | visiting distinct keys filters exactly the visited lists and deletes exactly the visited lists that became empty |
| `Signaling.PruneKeysAll` | backend/index.js:87-91 | visiting every key once yields the leaver-filtered table without empty lists |
| `Signaling.SurvivorsSpec` | backend/index.js:91 | the rooms left in the key order are the visited rooms whose list stays non-empty, each once |
| `Signaling.NoticesAt` | backend/index.js:90 | the disconnect loop appends the `k`-th `user-left` for the `k`-th visited room and leaves earlier emits in place |
| `Signaling.NotifiedEvery` | backend/index.js:87-90 | told as written, every visited room gets a notice |
| `Signaling.NotifiedOwn` | backend/index.js:87-90 | told as intended, exactly the visited rooms whose list holds the leaver get a notice |
| `Signaling.DisconnectKeepsValid` | backend/index.js:86-92 | after a disconnect the invariant still holds |
| `Signaling.DisconnectRemovesLeaver` | backend/index.js:88-91 | no room lists the leaver any more. A deleted room held only the leaver. Every other id keeps its multiplicity. A room without the leaver is untouched |
| `Signaling.NoticesReachRemaining` | backend/index.js:90 | each `user-left` carries the leaver's bare id and reaches exactly the room's remaining listed occupants |
| `Signaling.DisconnectNotifiesEveryRoom` | backend/index.js:87-90 | a disconnect as written emits one `user-left` per room of the table, in key order, whether or not the leaver was in it |
| `Signaling.StrayUserLeft` | backend/index.js:87-90 | as written, a client in a valid state who never shared a room with the leaver receives a `user-left` for it |
| `Signaling.OwnRoomsNotified` | backend/index.js:87-90 | told as intended, notices go exactly to the leaver's rooms, and a client who shared no room with the leaver receives nothing |
| `Signaling.InboxAppend` | backend/index.js:32-95 | what a client receives from two runs of emits is what it receives from each, in order |
| `Signaling.InboxNone` | backend/index.js:32-95 | a client that no emit reaches receives nothing |
| `Signaling.Open` | backend/index.js:36-43 | the first joiner of an unknown room is alone in it and nothing is emitted |
| `Signaling.Meet` | backend/index.js:36-52 | the second joiner makes the room `[a, b]`, and only `a` is told, with `b`'s id |
| `Signaling.Handshake` | backend/index.js:58-74 | an offer addressed to `b` reaches only `b`, and the answer addressed to `a` reaches only `a` |
| `Signaling.PeerLeaves` | backend/index.js:85-94 | when `b` leaves, `a` stays listed alone and gets one `user-left` for `b` |
| `Signaling.RelayScenario` | backend/index.js:32-94 | two clients meet, exchange offer and answer by explicit target, and one leaves. The first receives `user-joined`, the answer and `user-left`. The second receives only the offer. The remaining table is `room -> [a]` |
| `Quality.Average` | src/VideoCall.jsx:345-347 | an average is 0 without samples, and otherwise times the count gives the total |
| `Quality.Classify` | src/VideoCall.jsx:349-358 | the classifier never yields `unknown` |
| `Quality.ClassifyIsFirstMet` | src/VideoCall.jsx:349-358 | the classifier picks the first band, in the order excellent, good, fair, whose three strict bounds hold, and `poor` when none does |
| `Quality.ClassifyBands` | src/VideoCall.jsx:350-357 | each result holds exactly when its band's bounds hold and no better band's do, and `poor` exactly when no band's bounds hold |
| `Quality.ClassifyMonotone` | src/VideoCall.jsx:350-357 | worse round-trip time, jitter or loss never gives a better band |
| `Quality.NoReportsIsExcellent` | src/VideoCall.jsx:345-351 | with no qualifying reports every average is 0 and the quality is `excellent` |
| `Quality.Adapt` | src/VideoCall.jsx:366-382 | a notification message is produced exactly when the level changes |
| `Quality.AdaptFollowsTarget` | src/VideoCall.jsx:370-382 | the new level is the nearest level in the quality's acceptable band: only low for poor, at most medium for fair, at least medium for good, only high for excellent, anything for unknown. A change carries that quality's message |
| `Quality.AdaptRules` | src/VideoCall.jsx:370-382 | poor always ends at low and excellent at high. Fair only moves high to medium, good only moves low to medium, and unknown changes nothing |
| `Quality.AdaptIdempotent` | src/VideoCall.jsx:370-382 | adapting again to the same quality keeps the level and raises no message |
| `Quality.AdaptMonotone` | src/VideoCall.jsx:370-382 | from the same level, a better known quality never gives a lower level |
| `Quality.SettingsFor` | src/VideoCall.jsx:407-422 | every level sets a positive bitrate and frame rate and a down-scaling factor of at least 1, and high sends at full resolution |
| `Quality.SettingsOrdered` | src/VideoCall.jsx:407-422 | a lower level has strictly less bitrate and frame rate and strictly more down-scaling |
| `Quality.QualityView.constructor` | src/VideoCall.jsx:30-32 | a call view starts at high quality with no banner |
| `Quality.QualityView.ApplyVideoQualitySettings` | src/VideoCall.jsx:400-431 | with a sender and an encodings list, every entry gets exactly the level's three parameters and keeps its other fields, and the parameters are handed back. Otherwise nothing changes and nothing is handed back |
| `Quality.QualityView.AdaptVideoQuality` | src/VideoCall.jsx:366-398 | the level becomes the rule's decision. Only on a change are the message shown, the banner raised and the encodings rewritten to the new level. Without a change, banner and encodings stay as they were |
| `Quality.QualityView.DismissNotification` | src/VideoCall.jsx:392-394 | the banner's timeout hides the banner |
| `IceConfig.PushAll` | src/turnConfig.js:66-69 | spreading a list into `push` appends all its items in order |
| `IceConfig.GetIceServers` | src/turnConfig.js:61-76 | the server list is the STUN servers, followed when asked by the custom and then the free TURN servers. The pool size is 10 either way |
| `IceConfig.IceServerListShape` | src/turnConfig.js:61-70 | there are 14 servers without TURN and 17 with it. The STUN list is always an unchanged prefix, and the whole list without TURN |
| `IceConfig.StunServersAreStun` | src/turnConfig.js:43-58 | every STUN entry is a `stun:` url without credentials |
| `IceConfig.FreeTurnServersAreTurn` | src/turnConfig.js:24-40 | every free relay is a `turn:` url whose username and credential are `openrelayproject` |
| `IceConfig.IceServerListSchemes` | src/turnConfig.js:61-70 | in the assembled list the first 14 entries are credential-free `stun:` servers and every later one is a credentialed `turn:` relay |

## Findings

| source | as written | input that shows it | evidently intended | confidence | as-written member | corrected member |
|---|---|---|---|---|---|---|
| backend/index.js:87-92 | the disconnect loop emits `user-left` to every room in the table, whether or not the leaver was in it | `a` and `b` are in room `r1`, and `c` is alone in `r2`. When `c` disconnects, `a` and `b` each receive `user-left` for `c`. The client reacts by closing its peer connection (src/VideoCall.jsx:135-142), which ends their call | only the rooms the leaver occupied are told | not executed | `Signaling.StrayUserLeft` (about `Signaling.Coordinator.Disconnect`) | `Signaling.OwnRoomsNotified` (about `Signaling.Coordinator.DisconnectOwnRooms`) |

`Signaling.Coordinator.Disconnect` and `DisconnectOwnRooms` share the loop `VisitRooms` and differ only in which rooms are told. In the two-party scenario both give the same result. `RelayScenario` uses the handler as written.

## Left out

- The HTTP side of the backend is not modelled: the Express app, CORS, the `/` route, environment configuration and the port binding (backend/index.js:1-27, 97-100). Nor are the log lines, which have no observable effect on clients.
- The transport is not modelled. Connection ids come in as parameters of `Connect` rather than being generated. A delivery is recorded as an event plus the set of live connections it reaches. Sending it over the network is not modelled.
- Malformed inbound messages are not modelled. A signal whose payload is `null` or `undefined` makes the handler throw on destructuring (backend/index.js:59, 68, 77). A string, number or boolean payload destructures to undefined fields, so the handler then broadcasts to the room named `undefined` and reaches no one. The model's inbound events are well-formed by construction.
- JavaScript key order is simplified. A `for..in` over an object lists integer-like keys first, in ascending numeric order; the model uses insertion order for every room id.
- Room ids that name inherited `Object.prototype` properties (`constructor`, `toString`, …) are not modelled. For those ids `rooms[roomId]` is truthy before any join. The table is a plain map.
- Concurrency is not modelled. Node runs each handler to completion before the next, so the handlers are sequential methods.
- Signaling.Coordinator.Relay: a truthy `to` is taken as a connection id only. socket.io's `socket.to(to)` (backend/index.js:61, 70, 79) also accepts a room name. A `to` equal to a room id would reach that room's members except the sender, which the contract's `({to} * connected) - {sender}` does not capture.
- The opaque payloads do not keep their handler-specific field names (`offer`, `answer`, `candidate`). That name follows from `SignalKind`.
- Everything WebRTC in src/VideoCall.jsx is not part of this model: peer connections, media devices, the offer-buffering flow. The `getStats` aggregation is also left out, meaning which reports are counted and the truthiness tests on their fields. `Average` stands only for the division by the count.
- Timers are not modelled: the 2000 ms sampling interval, and the 3000 ms banner timeout together with the clearing of an earlier pending timeout. `DismissNotification` stands for the timeout's callback.
- The classifier works on exact reals. Floating-point rounding and NaN inputs are not modelled; a NaN fails every comparison and would classify as poor.
- `Quality.QualityView.ApplyVideoQualitySettings` folds two things into one flag. The "peer connection and video sender exist" guard is the `senderReady` field, and an absent `encodings` list is a null array. `setParameters` is asynchronous and only logs its failures, so `pushed` records that the call is made, not its outcome. The try/catch around `getParameters` is not modelled.
- `Quality.QualityView.AdaptVideoQuality` reads the current level from the view's field. The stale value a React closure can see is not modelled.
- The connection-quality state's reset to `unknown` when the connection drops (src/VideoCall.jsx:305-308) is not modelled. So is the initial encoding setup when the video track is added (src/VideoCall.jsx:258-266); it sets the same values as `SettingsFor(High)`.
- The JavaScript constant arrays are mutable when imported elsewhere. The model makes them immutable sequences, so "the constants are not modified" holds by construction.
- src/LandingPage.jsx and src/App.jsx are not part of this model.
