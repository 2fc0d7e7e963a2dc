# Room store, identity and relay core of code-share-backend

This project is a Dafny model of the core of a collaborative code-editing backend. The core has four parts.

- **Two-tier room store.** This is the room service's create, get, update and share handlers. Guest callers get rooms in a key/value store with a 24-hour expiry. Signed-in callers get rooms in a document table.
- **Update allow-list and `SET` expression.** A durable update keeps only the allowed fields and turns them into a DynamoDB-style `SET` expression. Reserved words go through `#name` placeholders.
- **Share upsert.** Sharing adds a member to, or updates a member in, a room's `members` list.
- **Socket relay.** Joining a room and relaying code and language changes to the other members of that room.

The gateway in front of the room service is modelled too:
- its optional JWT authentication step;
- the identity headers it forwards;
- the rule by which it passes the room service's answers back.

## Modules

| file | module | what it holds |
|---|---|---|
| `json.dfy` | `Json` | JSON values. The JavaScript operators the code relies on: truthiness in `||`, `===`, property reads and `Object.entries` order. |
| `room_records.dfy` | `RoomRecords` | The room record built on create. |
| `guest_rooms.dfy` | `GuestRooms` | The guest record, the merge and the TTL arithmetic. The class `GuestRoomStore` is the expiring store. |
| `durable_table.dfy` | `DurableTable` | The class `RoomTable`. The `SET` expression datatype, with an evaluator that states what an update assigns. |
| `room_routes.dfy` | `RoomRoutes` | The caller test and the allow-list filter. The `SET` builder and its round trip. The share upsert. The class `RoomService` holding the four handlers. |
| `relay.dfy` | `RoomRelay` | The class `RoomHub`: the group registry plus an outbox of emissions. |
| `gateway_auth.dfy` | `GatewayAuth` | The `Bearer` strip, the claim check and the email extraction. The spec function `Authenticate`. The class `Request`, which the middleware updates. |
| `gateway_routes.dfy` | `GatewayRoutes` | The forwarded identity headers, the forwarding rule and the end-to-end tier lemmas. |

## How the model is set up

- **Values.** JSON values are the datatype `Json`. Numbers are integers. A record is a `map<string, Json>`, and a missing key stands for `undefined`. Object spread `{...a, ...b}` is the map union `a + b`, so the keys of `b` win.
- **The key/value store.** It maps each key to its value and an absolute expiry instant in milliseconds. Every operation receives the current instant `now`. A key is live strictly before its expiry.
- **JSON text.** Serialisation to JSON text and parsing back is the identity.
- **Generated values.** Each call receives the generated room id, name and creation timestamp as parameters.
- **`Math.floor`.** The remaining-TTL computation divides by the positive constant 1000. There Dafny's Euclidean `/` coincides with `Math.floor`.
- **The document table.** It is a map from id to item. `UpdateCommand` evaluates the `SET` terms against the attribute value and name maps, then writes the assignments over the stored item. A missing item is an item holding only its key, which is DynamoDB's upsert behaviour. `ReturnValues: "ALL_NEW"` returns the new item.
- **Library outcomes.** `jwt.verify` and `jwt.decode` are library calls. Their outcomes are function-typed inputs (`verify`, `decode`) applied to the token strings the middleware computes. The signature, key and issuer checks all happen inside `verify`.
- **Strict equality.** `===` on two parsed values is value equality on primitives. It is always false on arrays and objects, because those are distinct references.
- **Socket delivery.** A socket.io emission to a room is one outbox entry. The entry names every recipient: every connection in the group except the sender.

The three scenario methods have no contract of their own:
- `GuestRooms.UpdateDoesNotPostponeExpiry`: an update an hour in does not keep the room past creation plus 24 h.
- `GuestRooms.LastSecondUpdateOutlivesExpiresAt`: an update in the last second keeps the room readable after its `expiresAt`.
- `RoomRelay.TwoEditorsScenario`: two editors each hear only the other's events, and a repeated join keeps one membership.

## Where the code and the design description differ

The model follows the code in each case below.

- **Guest rooms can be private.** A guest room keeps the requested `type`, with `"public"` only as the default (`services/room-service/src/db/guestRooms.js:21`).
- **Expiry can be pushed past `expiresAt`.** The re-store TTL is the whole seconds remaining, clamped to at least one second. An update made within the last second of a guest room's life therefore keeps the room readable for up to one second after its `expiresAt`. Repeated such updates extend it further. `RestoreTtl` bounds this: the new expiry never passes `max(expiresAt, now + 1 s)`.
- **No authorization.**
  - Get and update never consult `members`.
  - Share does not check that the caller owns the room.
  - The room service has no list or delete handler, and no guest sharing.
- **No existence check on a durable update.** There is no existence read before the write. A `PATCH` on an unknown id writes a new item holding the id and the updated fields.
- **Guest flag name.** The guest flag is `isGuestRoom`.

Other behaviours the contracts make visible:
- **Unset client id.** When no client id is configured, a token with no `client_id` claim passes the client check (`GatewayAuth.UnsetClientIdAcceptsMissingClaim`).
- **Compound user ids.** A share whose `userId` is an array or object never matches an existing member, so it always appends (`RoomRoutes.CompoundUserIdAlwaysAppends`).
- **Content-only updates.** A durable update of `content` alone is sent with an empty `ExpressionAttributeNames` object (`RoomRoutes.ContentOnlyUpdateHasNoNames`). DynamoDB's documented request validation rejects an empty `ExpressionAttributeNames`. If that applies here, a signed-in caller's content-only `PATCH` fails with a 500 in the real system. The model answers it with 200 only because that validation is not modelled (see `UpdateDurableTier` under "Left out").

## Model

| member | source | states |
|---|---|---|
| RoomRecords.NewRoomRecordFields | services/room-service/src/routes/rooms.js:28-46 | The durable item has exactly the body's keys plus the generated ones. Id, name, createdAt and owner are the generated values. Members is `[{userId: owner, role: "owner"}]`. Language, content and type fall back to "javascript", "" and "public" exactly when the body's value is absent or falsy. Every other body field is kept. |
| GuestRooms.KeyOf | services/room-service/src/db/guestRooms.js:38 | The store key is "guestroom:" followed by the id, and the id can be read back from the key. |
| GuestRooms.KeyOfInjective | services/room-service/src/db/guestRooms.js:38 | Distinct room ids never share a store key. |
| GuestRooms.GuestRoomRecordFields | services/room-service/src/db/guestRooms.js:16-37 | The guest record has the body's keys plus the guest keys. Owner is "anonymous". Members is `[{userId:"anonymous", role:"owner"}]`. `isGuestRoom` is true and `expiresAt` is now + 86 400 000 ms. Language, content and type are defaulted through truthiness, so a requested "private" type is kept. Every non-generated body field is kept. |
| GuestRooms.Merge | services/room-service/src/db/guestRooms.js:54 | The merge has the union of the keys. Keys of the updates take the update's value, and every other key keeps the room's value. |
| GuestRooms.RestoreTtl | services/room-service/src/db/guestRooms.js:55 | The TTL is at least 1 s. The new expiry never passes max(expiresAt, now + 1 s). With at least a second left, it falls within the last second before expiresAt. With less than a second left, the TTL is 1 s. |
| GuestRooms.GuestRoomStore.Set | services/room-service/src/db/guestRooms.js:39 | `SET key value EX ttl` replaces the value and restarts its expiry at now + ttl seconds. No other key changes. |
| GuestRooms.GuestRoomStore.Get | services/room-service/src/db/guestRooms.js:45-47 | A value is returned iff the key is live, and it is the last value set. |
| GuestRooms.GuestRoomStore.CreateGuestRoom | services/room-service/src/db/guestRooms.js:15-41 | Returns the guest record, stored under its key for 86 400 s. The returned record is the stored one, and its expiresAt equals the store's expiry instant. |
| GuestRooms.GuestRoomStore.GetGuestRoom | services/room-service/src/db/guestRooms.js:43-48 | Returns nothing iff the key is absent or expired, otherwise exactly the stored record. It changes nothing. |
| GuestRooms.GuestRoomStore.UpdateGuestRoom | services/room-service/src/db/guestRooms.js:50-58 | A missing or expired room gives null and writes nothing. A record without a numeric expiresAt leads to a refused write and nothing changes. Otherwise the merged room is returned and stored with the remaining TTL, and its expiry never passes max(expiresAt, now + 1 s). |
| DurableTable.RoomTable.Put | services/room-service/src/routes/rooms.js:48-53 | The item is stored under its key, replacing any old item. No other item changes. |
| DurableTable.RoomTable.Get | services/room-service/src/routes/rooms.js:75-81 | Returns an item iff one is stored under the key, and it is that item. |
| DurableTable.RoomTable.Update | services/room-service/src/routes/rooms.js:143-152 | An ill-formed expression changes nothing. Otherwise the new item is the old item (or the key alone) overwritten with exactly the evaluated assignments, and it is returned. |
| DurableTable.JoinTerms | services/room-service/src/routes/rooms.js:146 | `updateExpr.join(", ")`: the terms' texts in order, separated by ", ". |
| DurableTable.UpdateExpression | services/room-service/src/routes/rooms.js:146 | The `UpdateExpression` text is "SET " followed by the joined terms. |
| RoomRoutes.IsGuestCaller | services/room-service/src/routes/rooms.js:9-22 | The tier test every handler uses: guest iff `x-user-type` is "guest" or `x-user-id` is missing or empty. |
| RoomRoutes.FilterUpdates | services/room-service/src/routes/rooms.js:119-123 | The filter loop yields exactly the allowed entries of the body, in allow-list order. |
| RoomRoutes.FilteredUpdatesOrder | services/room-service/src/routes/rooms.js:103-109 | The filtered updates are the present fields among name, language, type and content, in that order, with the body's values. |
| RoomRoutes.AllowedEntriesFromBody | services/room-service/src/routes/rooms.js:105-109 | Every kept entry has an allowed key present in the body, with the body's value, and no key is kept twice. |
| RoomRoutes.AllowedEntriesAsObj | services/room-service/src/routes/rooms.js:120-123 | As an object, the kept entries are the body restricted to the allowed keys. |
| RoomRoutes.AllowedEntriesEmpty | services/room-service/src/routes/rooms.js:124-126 | Nothing is kept iff the body has none of the allowed keys. |
| RoomRoutes.FilteredUpdatesWellFormed | services/room-service/src/routes/rooms.js:119-126 | The filtered updates have distinct allowed keys and the body's values. They equal the restricted body, and they are empty iff no allowed key is present. |
| RoomRoutes.FilteredKeys | services/room-service/src/routes/rooms.js:103-109 | An update object only ever holds name, language, type or content. |
| RoomRoutes.TermFor | services/room-service/src/routes/rooms.js:134-139 | A reserved word renders as `#k = :k`, any other key as `k = :k`. |
| RoomRoutes.BuildSetExpression | services/room-service/src/routes/rooms.js:128-141 | The loop's terms, values and names are those the round-trip lemmas describe for the same updates. |
| RoomRoutes.SetParamsTerms | services/room-service/src/routes/rooms.js:133-139 | There is exactly one term per field, in the fields' order. |
| RoomRoutes.SetParamsValues | services/room-service/src/routes/rooms.js:140 | Each field's value is stored as `:k`. |
| RoomRoutes.SetParamsNames | services/room-service/src/routes/rooms.js:134-136 | Each reserved field gets `#k` mapped to k. Every name entry is of that form, so content gets none. |
| RoomRoutes.TermEvaluates | services/room-service/src/routes/rooms.js:133-141 | The term built for a field assigns exactly that field's value to that attribute. |
| RoomRoutes.SetParamsRoundTrip | services/room-service/src/routes/rooms.js:128-148 | For distinct allowed fields, the table's evaluation of the built expression performs exactly the updates, in order. |
| RoomRoutes.ContentOnlyUpdateHasNoNames | services/room-service/src/routes/rooms.js:137-148 | A content-only update renders as `SET content = :content` and carries an empty names map. |
| RoomRoutes.UpsertMember | services/room-service/src/routes/rooms.js:182-193 | The map-and-push loop computes the upsert. A null member yields the thrown error. |
| RoomRoutes.ReplacedAt | services/room-service/src/routes/rooms.js:184-190 | The map keeps the length. Each position holds `{userId, role}` if it matched and the old member otherwise. |
| RoomRoutes.UpsertSpec | services/room-service/src/routes/rooms.js:182-193 | It fails iff a member is null. Matching members become exactly `{userId, role}`, other members keep value and position, and one member is appended at the end iff none matched. |
| RoomRoutes.UpsertIdempotent | services/room-service/src/routes/rooms.js:184-193 | Sharing the same primitive user id and role twice gives the same list as sharing once. |
| RoomRoutes.CompoundUserIdAlwaysAppends | services/room-service/src/routes/rooms.js:185 | An array or object user id never matches, so the share always appends. |
| RoomRoutes.MembersUpdateEvaluates | services/room-service/src/routes/rooms.js:194-200 | `SET members = :members` assigns exactly the new list and nothing else. |
| RoomRoutes.MembersOf | services/room-service/src/routes/rooms.js:183 | The stored `members` when it is an array, and the empty list otherwise. |
| RoomRoutes.ShareOnNonArrayMembers | services/room-service/src/routes/rooms.js:183-193 | A room whose `members` is missing or not an array is shared as the one-member list `[{userId, role}]`. |
| RoomRoutes.ShareRequestValid | services/room-service/src/routes/rooms.js:168-171 | The share request may proceed iff both `userId` and `role` are truthy. |
| RoomRoutes.ShareRequestChecks | services/room-service/src/routes/rooms.js:168-171 | The share proceeds iff both `userId` and `role` are present and neither is `null`, `false`, `0` or "". |
| RoomRoutes.GuestRoomRecordShaped | services/room-service/src/db/guestRooms.js:20-38 | A new guest record has its key's id, the anonymous owner and members, the guest flag and a numeric expiresAt. |
| RoomRoutes.AllowedUpdateKeepsGuestShape | services/room-service/src/routes/rooms.js:103-114 | A filtered guest update leaves id, owner, members, the guest flag and expiresAt alone. |
| RoomRoutes.CreateKeepsShaped | services/room-service/src/db/guestRooms.js:15-41 | Storing a newly created guest record keeps every stored guest record in shape: its key's id, the anonymous owner and members, the guest flag and a numeric expiresAt. |
| RoomRoutes.UpdateKeepsShaped | services/room-service/src/db/guestRooms.js:50-58 | A stored guest record has a numeric expiresAt. Storing it merged with a filtered update, under any expiry, keeps every guest record in shape. |
| RoomRoutes.FilteredUpdatesEvaluate | services/room-service/src/routes/rooms.js:119-148 | The `SET` expression built from a body's filtered updates assigns exactly those updates. |
| RoomRoutes.ReplacedFixpoint | services/room-service/src/routes/rooms.js:184-190 | When every matching member already is `{userId, role}`, the map returns the list unchanged. |
| RoomRoutes.UpsertedMatchesAreRecords | services/room-service/src/routes/rooms.js:182-193 | After a successful upsert with a primitive user id, no member is null, some member matches, and every matching member is exactly `{userId, role}`. |
| RoomRoutes.RoomService.CreateRoom | services/room-service/src/routes/rooms.js:17-59 | A guest caller gets the guest record stored for 24 h and the table is untouched. Any other caller gets the durable item, stored under the id, and the guest store is untouched. Both reply 201 with the stored record, and guest records keep their shape. |
| RoomRoutes.RoomService.GetRoom | services/room-service/src/routes/rooms.js:62-87 | A guest caller reads only the guest store: the record if live, else 404 "Room not found or expired". Any other caller reads only the table: the item, else 404 "Room not found". |
| RoomRoutes.RoomService.UpdateRoom | services/room-service/src/routes/rooms.js:91-156 | A guest caller whose room is missing gets 404 before field validation. No allowed field gives 400 and no write. A guest update stores and returns the merge with the remaining TTL. A durable update writes and returns the item overwritten with the filtered fields, with no existence check. Only the caller's tier changes. |
| RoomRoutes.RoomService.UpdateGuestTier | services/room-service/src/routes/rooms.js:96-116 | A missing or expired guest room gives 404 "Guest room not found or expired" before field validation. No allowed field gives 400. Otherwise the reply is the merged record, stored with the restored TTL. The store stays shaped. |
| RoomRoutes.RoomService.UpdateDurableTier | services/room-service/src/routes/rooms.js:118-153 | No allowed field gives 400 and writes nothing. Otherwise the item becomes the old item (or the bare key) overwritten by the filtered fields, and the reply is the new item. |
| RoomRoutes.RoomService.ShareRoom | services/room-service/src/routes/rooms.js:159-206 | The checks run in order: 403 for a guest, 400 for a missing userId or role, 404 for an absent room, and a failure for a null member, each with no write. Otherwise exactly the upserted list is written to `members` and returned with `success: true`. |
| RoomRelay.Connect | services/room-service/src/sockets/index.js:5 | A connection's identity is its email header when non-empty, "Guest" otherwise. |
| RoomRelay.JoinedRooms | services/room-service/src/sockets/roomhandlers.js:3 | A join adds the connection to exactly that room's group and removes it from none. Every other connection's rooms and every other group are unchanged. |
| RoomRelay.RejoinKeepsGroups | services/room-service/src/sockets/roomhandlers.js:2-10 | Joining a room already joined changes no group. |
| RoomRelay.Others | services/room-service/src/sockets/roomhandlers.js:7 | The recipients of `socket.to(room)` are the group's members other than the sender, and never the sender. |
| RoomRelay.ReceivedSnoc | services/room-service/src/sockets/roomhandlers.js:14-17 | An emission adds its event to the received events of exactly its recipients. |
| RoomRelay.RoomHub.JoinRoom | services/room-service/src/sockets/roomhandlers.js:2-10 | The group gains the joiner. One `user-joined` with the joiner's identity goes to the rest of the group, which is the same before and after the join. |
| RoomRelay.RoomHub.CodeChange | services/room-service/src/sockets/roomhandlers.js:12-18 | Groups are unchanged. One `code-update` with the code and the sender's identity goes to the group minus the sender, with no membership check. |
| RoomRelay.RoomHub.LanguageChange | services/room-service/src/sockets/roomhandlers.js:20-25 | Groups are unchanged. One `language-update` with the language and the sender's identity goes to the group minus the sender. |
| GatewayAuth.FirstOccurrence | services/gateway-api/src/middlewares/auth.js:37 | It finds the first position at which the pattern occurs, or reports that none does. |
| GatewayAuth.StripBearer | services/gateway-api/src/middlewares/auth.js:37 | The first "Bearer " anywhere in the header is cut out. A header without one is unchanged. |
| GatewayAuth.StripBearerPrefixed | services/gateway-api/src/middlewares/auth.js:37 | "Bearer " followed by a token yields exactly the token. |
| GatewayAuth.ClaimsAccepted | services/gateway-api/src/middlewares/auth.js:48-53 | The callback accepts iff there is no error, the payload is truthy, `token_use` is "access", and `client_id` strictly equals the configured client id, `undefined` included. |
| GatewayAuth.ClaimsAcceptedConfigured | services/gateway-api/src/middlewares/auth.js:48-53 | With a client id configured, an object payload passes iff its `token_use` is "access" and its `client_id` is that id. |
| GatewayAuth.AcceptedClaimsAreObjects | services/gateway-api/src/middlewares/auth.js:48-53 | Only a successful verification whose payload is an object can pass. |
| GatewayAuth.UnsetClientIdAcceptsMissingClaim | services/gateway-api/src/middlewares/auth.js:48-53 | With no configured client id, an access token with no client_id claim is accepted. With a configured one, it is refused. |
| GatewayAuth.EmailFrom | services/gateway-api/src/middlewares/auth.js:67-76 | The email is non-null only when an ID token is present, decodes, and carries that truthy email claim, and then it is that claim. |
| GatewayAuth.Authenticate | services/gateway-api/src/middlewares/auth.js:29-76 | Every path assigns `user` and `userEmail`. A rejected request gets null for both and keeps its `userId`. An accepted one gets truthy claims as `user`, with their `sub` as `userId`. |
| GatewayAuth.AuthenticatedIff | services/gateway-api/src/middlewares/auth.js:29-64 | The request is authenticated iff an Authorization header is present and the stripped token's claims pass all four checks. Then user is the claims and userId their sub. Otherwise user and email are null and userId is untouched. |
| GatewayAuth.EmailNeedsIdToken | services/gateway-api/src/middlewares/auth.js:63-76 | An email is attached only to an authenticated request whose ID token carries it. |
| GatewayAuth.Request.Next | services/gateway-api/src/middlewares/auth.js:79 | `next()` is counted once and touches no identity field. |
| GatewayAuth.Request.OptionalAuthenticate | services/gateway-api/src/middlewares/auth.js:24-82 | The fields end as `Authenticate` describes, and `next` is called exactly once on every path. |
| GatewayRoutes.UserHeadersOf | services/gateway-api/src/routes/rooms.js:6-12 | x-user-type is "auth" iff req.user is truthy. x-user-id is its sub and x-user-email the request's email when authenticated. Both are undefined otherwise. |
| GatewayRoutes.HeaderValue | services/gateway-api/src/routes/rooms.js:6-12 | A header value reaches the room service only when it is a string. |
| GatewayRoutes.GatewayGuestIsRoomGuest | services/gateway-api/src/routes/rooms.js:8-10 | A gateway guest sends no email and lands in the room service's guest path. |
| GatewayRoutes.FailedAuthLandsInGuestTier | services/gateway-api/src/middlewares/auth.js:29-62 | A missing Authorization header or a failed claim check ends in the guest tier. |
| GatewayRoutes.DurableTierIff | services/gateway-api/src/routes/rooms.js:8-9 | The durable tier serves a request iff its token passes every check and its sub is a non-empty string. That sub is then the caller id. |
| GatewayRoutes.ClientCall | services/gateway-api/src/routes/rooms.js:17-20 | The call resolves iff the upstream answered with a 2xx status. |
| GatewayRoutes.Forward | services/gateway-api/src/routes/rooms.js:21-27 | The list, get, create, update and share handlers: a resolved or rejected response is sent as status and JSON body, and a failure with no response goes to `next`. |
| GatewayRoutes.ForwardDelete | services/gateway-api/src/routes/rooms.js:120-126 | The delete handler: a resolved response sends only its status, and the rest is as `Forward`. |
| GatewayRoutes.ForwardTransparent | services/gateway-api/src/routes/rooms.js:21-27 | Any upstream answer, success or error, is sent on with the same status and body. Only a failure without a response goes to `next`. |
| GatewayRoutes.ForwardDeleteStatusOnly | services/gateway-api/src/routes/rooms.js:115-127 | A successful delete sends only its status (with Express's status text), never the upstream body. Any other outcome is forwarded like the other routes. |
| GatewayRoutes.Wire | services/room-service/src/index.js:18-23 | A room-service reply goes out with its own status and body. An error becomes a 500 with body `{error: message}`, or `{error: "Internal Server Error"}` when the message is empty. |
| GatewayRoutes.RoomReplyReachesCaller | services/gateway-api/src/routes/rooms.js:44-50 | Every room-service reply reaches the gateway's caller with the same status and body, including the 400, 403 and 404 answers. A failure reaches the caller as the 500 error body. |

## Left out

- **I/O.** The HTTP servers, Express wiring, CORS, logging and socket transport are left out. The connection to Redis and DynamoDB, and their client construction, are left out too.
- **Generated values.** Random ids and names, and `toISOString` timestamps, are parameters. Their uniqueness is not modelled, and neither is a collision between the two tiers.
- **JWT verification.** The signature, JWKS key fetching and the issuer check are inside the `verify` input.
- **Backend failures.** Redis and DynamoDB failures other than the refused TTL, and network failures, are not modelled. A store write that fails part-way is not modelled either.
- `GuestRooms.GuestRoomStore.UpdateGuestRoom`: a stored `expiresAt` that is not a number is modelled as a refused write. JavaScript's coercion of strings or `null` in the subtraction is not modelled.
- `RoomRoutes.RoomService.UpdateDurableTier`: a content-only update is answered with 200 and the written item. DynamoDB's rejection of an empty `ExpressionAttributeNames` map is not modelled, and with it the 500 such a request would likely get.
- **DynamoDB semantics.** Its own reserved-word list, its request validation (such as a rule on an empty names map) and its item size limits are not modelled. `UpdateCommand` on a missing item is modelled as DynamoDB's upsert.
- **Request bodies.** They are JSON objects. Arrays or primitives as bodies, and fractional numbers, are not modelled.
- `GatewayRoutes.HeaderValue`: a header value that is not a string (a number or object `sub`, a `null` email) is modelled as not sent. Stringification by the HTTP client is not modelled.
- `RoomRelay.RoomHub.JoinRoom`: a `roomId` that is not a string is not modelled. Neither is socket.io's per-connection room named after the socket id, disconnect cleanup, or delivery failures.
- **Other routes.** The room service defines no list or delete handler. The gateway's list and delete routes are covered only by the forwarding rule, `Forward` and `ForwardDelete`.
- **The gateway's error handler.** It is what runs after `next(err)`, and the model stops at `PassToNext`.
- **Concurrency.** The read-then-write races in the guest update and in share are not modelled. The model is sequential. Each request also runs at a single instant `now`, so the guest update's two reads cannot disagree. In the real system they are the handler's check and the read inside `updateGuestRoom`. A room that expires between them answers 200 with a `null` body. The model keeps that outcome (`NoRoom` in `UpdateGuestTier`), but no modelled request can reach it.
