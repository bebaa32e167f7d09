# housecam4 signalling broker, modelled in Dafny

This project models the WebSocket signalling server of housecam4 (`server.js`). Cameras
and viewers log in over HTTP and get a session token. They then open a WebSocket and
authenticate with the token. After that they register as a camera or a viewer, ask to
watch a camera, forward WebRTC negotiation messages (offer, answer, ICE candidate) to
each other, and fan out motion alerts. The server keeps three in-memory tables: the
active sessions, the registered cameras and the registered viewers. It also keeps a
little state per connection.

The model is imperative, as the server is:

- `Signalling.Broker` is a class whose fields are the tables. They are
  `sessions`, `cameras` with `cameraOrder`, and `viewers` with `viewerOrder`.
- The two order sequences record the insertion order of the JavaScript `Map`s.
  That order is visible in every `camera-list` message.
- A camera's watcher `Set` is a duplicate-free sequence in insertion order.
- `Signalling.Connection` is a class holding `authenticated`, the stored session and
  whether the 10-second authentication timer is still pending.
- Every `ws.send` and `ws.close()` appends an `Out` item to the broker's `outbox`.
- Each socket event is a method:
  - opening a socket is the `Connection` constructor;
  - the timer firing is `OnTimeout`;
  - a frame is `HandleMessage`, with the message as a datatype and `Malformed` for a
    frame that does not parse;
  - closing is `OnClose`.
- Each message handler's effect is stated once, as a two-state predicate over the
  tables and the outbox. Both the handler and `HandleMessage` promise it.
- Pure functions describe what the fan-out loops send: `Broadcast`, `ToRegistered`,
  `MotionAlerts` and `ListCameras`. `SentTo` extracts what one connection receives
  from the outbox. The fan-out methods run loops proved equal to these functions.
  Lemmas in `Fanout` then state who receives what, recipient by recipient.
- The start-up loader `loadUsersFromEnv` is modelled as two `while` scans over an
  environment map (`EnvUsers.LoadRole`). The scans are proved equal to a recursive
  table builder (`Loaded`). The lemmas about `Loaded` say which accounts exist and
  which password digest wins.

The model follows the code as written. Several properties one might expect do not hold
in the code, and the model does not claim them:

- A second `register-camera` replaces the record and empties its watcher list.
- A second `register-viewer` resets `watching` to nothing.
- `request-camera` leaves the viewer in the watcher list of the camera it watched before.
- Closing a camera leaves its viewers' `watching` pointing at the removed id.
- `authenticate` is accepted again on an authenticated connection, so its role can
  change and one id can end up in both tables.
- A watcher that is also a registered viewer gets each motion alert twice
  (`Fanout.MotionAlertsSentTo` states exactly that).

## Model

| member | source | states |
|---|---|---|
| Signalling.Connection.constructor | server.js:167-183 | A new connection, whose id is a non-empty uuid, is unauthenticated, has no session, and its authentication deadline is pending |
| Signalling.Broker.constructor | server.js:21-71 | At start-up the account tables are exactly what loadUsersFromEnv builds from the environment, and the session, camera and viewer tables are empty |
| Signalling.Broker.Login | server.js:92-126 | A missing field gives "Faltan datos" and a role other than camera or viewer gives "Rol inválido". An unknown user or a wrong password digest gives "Credenciales inválidas". The session map changes in none of these cases. Otherwise the token is stored with the user, the role and an expiry 24 h from now, and the same data is returned |
| Signalling.Broker.Logout | server.js:128-134 | A non-empty token is removed from the session map; a missing or empty one changes nothing |
| Signalling.IssuedSessionLifetime | server.js:111-118 | A session stored by login validates with its own user and role at every instant up to and including 24 h after issue, and at no later instant |
| Signalling.Broker.VerifyToken | server.js:79-89 | An unknown or missing token gives null and keeps the map. An expired token (now > expiresAt) gives null and is deleted. Otherwise the stored session is returned and the map is kept, so at now == expiresAt the token is still valid |
| Signalling.Broker.SweepSessions | server.js:418-425 | After the sweep the map holds exactly the sessions with now <= expiresAt, each with its old value |
| Sessions.SweepPreservesLookup | server.js:418-425 | At the same instant, a sweep never changes what any token validates to |
| Sessions.LookupEvictsOnlyExpired | server.js:79-89 | The deletion done by verifyToken removes only what the sweep would remove; the live sessions before and after are the same |
| Sessions.ExpiryIsPermanent | server.js:83-86 | A token rejected as expired is rejected at every later time and is gone after any later sweep |
| Signalling.Broker.OnTimeout | server.js:175-183 | When the timer fires on an unauthenticated connection, exactly an error "Timeout de autenticación" and a close go out. Once authenticated, or once the timer was cleared, nothing is sent |
| Signalling.Broker.OnAuthenticate | server.js:199-222 | The timer is cleared. A bad or expired token sends auth-failed and closes the socket, and an expired token is also evicted. A good token sets authenticated and userSession and replies authenticated{userId, role}. The camera and viewer tables do not change |
| Signalling.Broker.HandleMessage | server.js:185-352 | A frame that does not parse gets exactly one "Error procesando solicitud" reply. While unauthenticated, any other type than authenticate gets exactly one "Debe autenticarse primero" reply. In both cases no table and no connection flag changes. Every other message has the effect of its case, and an unknown type does nothing |
| Signalling.Broker.OnRegisterCamera | server.js:224-248 | A non-camera session gets error "No autorizado para transmitir" and the tables stay as they were. Otherwise the record under the sender's own id is (re)set with its name and no watchers, keeping its place in the order, and registered{id, camera} is sent. Then every viewer gets the new list, and that list contains the new camera. A missing or empty name becomes "Cámara n", where n is the camera count before the insert plus one |
| Signalling.Broker.StoreCamera | server.js:233-238 | cameras.set: the record is stored under the id; the id keeps its place if present, else goes last |
| Signalling.Broker.OnRegisterViewer | server.js:250-273 | A non-viewer session gets error "No autorizado para ver" and the tables stay as they were. Otherwise the viewer record is (re)set watching nothing, and then registered{id, viewer} and the current camera list go to the sender alone |
| Signalling.Broker.OnRequestCamera | server.js:275-289 | If the camera exists and the sender is a registered viewer, three things happen: the viewer watches that camera, the sender joins the camera's watcher set, and the camera alone gets viewer-joined{sender}. Otherwise nothing changes and nothing is sent |
| Signalling.Broker.OnMotionDetected | server.js:291-323 | Nothing happens unless the session role is camera and the sender is a registered camera. Then every viewer gets one motion-alert, and each watcher still registered as a viewer gets another. No table changes |
| Fanout.MotionAlertsSentTo | server.js:300-321 | Per connection: a registered viewer gets one alert, plus a second one when it is in the camera's watcher list; no other connection gets any |
| Signalling.Broker.OnRelay | server.js:325-343 | An offer, answer or ICE candidate goes to its target with from set to the sender, when the target is a camera or else a viewer. An unknown or missing target gets nothing, and the sender gets no reply. No table changes |
| Signalling.Broker.SendToViewers | server.js:412-414 | What the loop appends is Broadcast over the viewers in insertion order |
| Fanout.BroadcastSentTo | server.js:412-414 | A broadcast delivers the message exactly once to each registered viewer and to nobody else |
| Fanout.BroadcastOnly | server.js:412-414 | The broadcast has one send per recipient, its i-th send going to the i-th recipient with the same message |
| Signalling.Broker.NotifyRegistered | server.js:359-367 | The loop over a watcher list appends exactly ToRegistered: one send for each listed id still registered as a viewer, in list order |
| Fanout.ToRegisteredSentTo | server.js:359-367 | That loop reaches each listed id that is a registered viewer once, and nobody else |
| Signalling.Broker.SendCameraList | server.js:387-398 | One camera-list message with the current list goes to the given connection |
| Signalling.Broker.BroadcastCameraList | server.js:400-415 | Every viewer gets the current camera list, in viewer insertion order |
| Fanout.ListCamerasEntries | server.js:388-392 | The list has one entry per camera in insertion order, each {id, name, viewers = size of the watcher set} |
| Fanout.ListCamerasHas | server.js:401-405 | Every registered camera appears in the list with its name and watcher count |
| Fanout.ListCamerasOnly | server.js:401-405 | Every listed entry is a registered camera, so a deleted camera is never listed |
| Fanout.ListCamerasAfterDelete | server.js:368-369 | The list broadcast after a camera closes is the old list with exactly that camera's entry cut out; the others keep their order, names and counts |
| Signalling.Broker.OnClose | server.js:354-384 | The timer is cleared. A camera's watchers that are still viewers are told camera-disconnected. The camera is deleted from the table and the order, and the viewers get the list without it. A viewer is removed from the set of the camera it watches, if that camera still exists, and is then deleted. Afterwards the id is in neither table. A second close of the same id changes nothing and sends nothing |
| Signalling.Broker.DropCamera | server.js:357-371 | The camera branch: notices to the registered watchers, then the deletion, then the broadcast of the new list; nothing when the id is not a camera |
| Signalling.Broker.ForgetCamera | server.js:368-368 | cameras.delete: the id leaves the table and its order, and the table stays consistent with its order |
| Signalling.Broker.DropViewer | server.js:373-383 | The viewer branch: the id leaves its watched camera's set if that camera exists, then leaves the viewer table and order; no other entry changes |
| Fanout.CameraGoneSentTo | server.js:357-371 | Per connection on a camera close: a still-registered watcher gets camera-disconnected, and then every viewer gets the new list once; nobody else gets anything |
| Seqs.WithoutElements | server.js:368-381 | After Map/Set delete, the keys left are exactly the old keys other than the deleted one |
| Seqs.WithoutSplice | server.js:368-381 | Map/Set delete cuts the key out of the iteration order at its index; every other key keeps its relative order |
| Seqs.WithoutDistinct | server.js:368-381 | Deleting from an order keeps it free of duplicates |
| Seqs.WithoutAbsent | server.js:378-378 | Deleting a key that is not there leaves the order as it was |
| Seqs.AddedFacts | server.js:233-238 | Map.set/Set.add keeps the order duplicate-free and adds exactly the new key |
| Decimal.NatToString | server.js:235-235 | The decimal rendering of a count is never empty |
| Decimal.ParseNatToString | server.js:34-34 | Reading back the decimal rendering of n gives n |
| Decimal.NatToStringInjective | server.js:34-34 | Different indices render differently |
| EnvUsers.EnvKeyInjective | server.js:34-34 | CAMERA_i and CAMERA_j name different variables when i differs from j |
| EnvUsers.Split | server.js:35-35 | split(':') always returns at least one part |
| EnvUsers.JoinSplit | server.js:35-35 | Joining the parts with ':' gives the string back |
| EnvUsers.SplitColonFree | server.js:35-35 | No part contains ':' |
| EnvUsers.SplitJoin | server.js:35-35 | Splitting a ':'-join of colon-free parts gives those parts back |
| EnvUsers.SplitWord | server.js:35-35 | A colon-free prefix glues onto the first part of what follows it |
| EnvUsers.CredentialShape | server.js:35-36 | An entry yields (user, password) exactly when it is user:password or starts with user:password:, with both non-empty and colon-free; anything after the second colon is ignored |
| EnvUsers.ScanStep | server.js:34-40 | Reading one more present variable keeps the scan's bookkeeping and uses up one environment key, so the scan ends |
| EnvUsers.LoadRole | server.js:33-41 | The scan reads CAMERA_1, CAMERA_2, … and stops at the first that is missing or empty. It returns the number n of variables read and exactly the table Loaded builds from variables 1..n. That table skips an account named `__proto__`, which the plain-object assignment does not store |
| EnvUsers.ProtoNeverLoaded | server.js:37-37 | No scan ever stores the user name `__proto__`, so such an entry neither logs in nor prevents the demo fallback |
| EnvUsers.LoadedFromEntries | server.js:33-41 | Every loaded user name comes from some scanned variable |
| EnvUsers.LoadedLastWins | server.js:36-37 | A storable name (any but `__proto__`) maps to the digest of the password in its last scanned entry |
| EnvUsers.WithDemoFallback | server.js:54-63 | The demo accounts camera_demo and viewer_demo, each with the digest of demo123, replace both tables exactly when both are empty. Otherwise the tables are kept, so there is always at least one account |
| EnvUsers.LoadUsersFromEnv | server.js:21-66 | Both scans stop at their first missing index, and the result is their two tables after the demo fallback |

## Left out

- Express routing, `/ping` and static file serving are not modelled: they are HTTP plumbing around the broker.
- Login and logout are modelled as session-map operations. The HTTP request and response are not.
- The `ws` transport is not modelled: sends and closes become outbox items.
- A throwing `ws.send` is not modelled; the model treats every send as infallible. In the message handler such a throw aborts the rest of the case and reaches the catch, which replies "Error procesando solicitud". The close handler has no try/catch, so a throw in its camera-disconnected loop or in its list broadcast escapes the `close` listener and skips the rest of the cleanup.
- SHA-256 (`hashPassword`) is an uninterpreted parameter `hash`.
- `crypto.randomBytes` tokens are a parameter of `Login`.
- `uuidv4` connection ids are a parameter of the `Connection` constructor. They are assumed distinct across connections, as a uuid makes them in practice.
- Real clocks and timers are not modelled. Time is a `nat` parameter in milliseconds. The 10-second timer firing is the `OnTimeout` event, and the hourly interval is a call to `SweepSessions(now)`.
- JSON parsing and serialisation: a frame is a datatype. A frame that does not parse, or whose `type` cannot be read, is `Malformed`. An unknown type is `OtherType`.
- JSON field values are modelled as strings or absent (`Option`). Non-string JSON values (numbers, objects, `true`) are not modelled.
- Signalling.Broker.OnRelay: the relayed frame carries the kind, the target and an opaque body. The body stands for the other JSON fields that the spread copies unchanged. The order of fields in the serialised JSON is not modelled.
- Signalling.Broker.OnMotionDetected: the model stamps every alert of one event with the same `now`. The source calls `new Date()` for each send, so two alerts of one event may carry different timestamps. The ISO-8601 formatting is not modelled either.
- Signalling.Broker.OnClose: `viewer.watchingCamera` is tested for truthiness in the source. In the model it is `Some` only after a successful request-camera, whose id names an existing camera. Camera ids are connection ids, which the `Connection` constructor requires to be non-empty (a uuid always is), so truthiness and `Some` agree.
- Signalling.Broker.Login: account lookup is a map lookup. In the source, a plain-object lookup of an inherited name such as `__proto__` or `constructor` gives a non-string value. That value never equals a hex digest, so the source refuses with 401, as the model does for a missing name. The storing side of `__proto__` is modelled (`EnvUsers.Storable`).
- Concurrency is not modelled: Node.js runs one handler at a time, so the model is a sequence of method calls.
- Console logging is not modelled.
- The browser client `public/app.js` (UI, WebRTC, canvas motion detection) is not part of this model.
