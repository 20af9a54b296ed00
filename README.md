# Talkie: session guard, account handlers and presence registry

A Dafny model of the authentication and presence core of the Talkie chat
backend (Node, Express, socket.io, MongoDB):

- **Presence registry** (`Presence`, presence.dfy). The process-wide
  `userSocketMap` (user id → id of that user's latest socket) is a class
  `Registry` with a `map` field and a log of every `getOnlineUsers` payload.
  `Connect` and `Disconnect` are the socket.io `connection` and `disconnect`
  handlers. A ghost event log ties the map to `History`, the replay of the
  event stream. `HistoryIsOnline` and `HistoryHandle` prove that replay
  equal to a reference definition: a user is online iff some connection
  registered them and no disconnect for them came later, and the entry holds
  the socket id of the latest registering connection. The methods
  `ThreeEventScenario` and `AnonymousScenario` replay two scenarios against
  the class: two users join and one leaves; a connection without `userId`.
- **Route guard** (`Auth`, auth.dfy). `protectRoute`: token extraction in
  fixed precedence (cookie, raw `token` header, `Authorization: Bearer <t>`),
  then the four-way outcome: 401 missing token, 401 with the thrown message,
  404 user gone, or `next()`. `ProtectRoute` returns the outcome and the
  ordered list of collaborator calls it made (`jwt.verify`,
  `User.findById`, `next`), so "not called" is part of its contract.
- **Account handlers** (`Users`, users.dfy). `signup`, `login`, `logout`,
  the update document of `updateProfile`, `checkAuth` behind the guard, and
  `COOKIE_OPTIONS`. The user store is a class `Accounts` with a map from
  email to record. `Signup`, `Login`, `Logout` and `CheckRoute` return the
  response value they leave (status, JSON body, cookies set or cleared);
  `Signup` and `Login` also return the collaborator calls they made.
  `BuildUpdate` returns the update document.
- Support: `Js` (js.dfy) models JavaScript truthiness of an optional string,
  `startsWith`, `split(' ')` and out-of-range array indexing; `Http`
  (http.dfy) holds the user record and the response shapes; `Wrappers`
  holds `Option`.

Collaborators are parameters: `jwt.verify` is a function to
`Decoded(userId) | VerifyError(message)`, `User.findById` a function to
`Found(record) | NotFound | LookupError(message)`, bcrypt's hash and compare,
`generateToken` and the Cloudinary upload are functions, and the bcrypt salt
and the `_id` Mongo assigns are given values.

Behaviours the model makes explicit:

- A disconnect deletes the user's entry whatever socket id it holds. A
  superseded socket that closes after the user reconnected takes the user
  offline although the newer socket is live (`StaleDisconnectDropsLiveSocket`).
  When socket ids are not reused and each disconnect carries the `userId`
  its connection was opened with, every socket id the registry holds is
  live (`StoredSocketsAreLive`).
- A connection without `userId` never registers, but its disconnect runs
  `delete userSocketMap[undefined]`, which removes the key `"undefined"`
  (`Presence.Key`, `AnonymousDisconnectDropsUndefinedKey`).
- `Authorization: Bearer  x` (two spaces) splits to an empty token and is
  rejected as a missing token; `Bearer a b` verifies only `a`.
- Unknown email and wrong password get the identical response, but the
  first makes no bcrypt comparison (visible in the returned call list).
- Signup and login bodies carry the stored record (`userData: newUser`,
  `userData: user`), which holds the password hash unless the schema's
  serialisation strips it (models/User.js is not part of this model). Of
  the modelled handlers only the guard strips it; the unmodelled
  `updateProfile` write also selects `-password`.

The model follows the code: tokens are signed without `expiresIn`
(server/lib/utils.js:5), so they never expire and no expiry is modelled; the
401 for a failed verification carries the thrown error's own message; a
lookup that throws is a 401 like a failed verification; and a disconnect
without `userId` deletes the key `"undefined"` (above).

## Model

| member | source | states |
|---|---|---|
| Presence.AfterConnect | server/server.js:30 | a truthy `userId` maps to the new socket id and every other entry is unchanged; an absent or empty `userId` leaves the map as it was |
| Presence.AfterDisconnect | server/server.js:37 | the key for `userId` (through `Presence.Key`, "undefined" when `userId` is missing) is gone whatever it held; all other entries keep their values |
| Presence.HistoryIsOnline | server/server.js:26-40 | after any event stream, a user is in the map iff some connection registered them and no disconnect for them came later |
| Presence.HistoryHandle | server/server.js:30 | an online user's entry holds the socket id of the latest connection that registered them, with no later connect or disconnect for that user |
| Presence.ReconnectOverwrites | server/server.js:30 | connecting the same user twice leaves one entry, holding the newer socket id |
| Presence.DisconnectAbsentIsNoOp | server/server.js:37 | disconnecting a user that has no entry leaves the map unchanged |
| Presence.StaleDisconnectDropsLiveSocket | server/server.js:35-37 | after connect(u, s1), connect(u, s2), the entry is s2; after the disconnect of socket s1, s2 is still live and u is absent |
| Presence.StoredSocketsAreLive | server/server.js:30-37 | when socket ids are never reused and each disconnect closes an earlier connection with its `userId`, every stored socket id belongs to a socket that has not closed |
| Presence.AnonymousDisconnectDropsUndefinedKey | server/server.js:27-37 | a connection without `userId` adds nothing, and its disconnect deletes the key "undefined" |
| Presence.Registry.constructor | server/server.js:23 | the registry starts empty with no broadcasts |
| Presence.Registry.Connect | server/server.js:26-33 | the map becomes `AfterConnect` of the old map, exactly one broadcast is appended and it is the new key set, and the replay invariant is kept |
| Presence.Registry.Disconnect | server/server.js:35-39 | the closing socket id is recorded but not consulted; the map becomes `AfterDisconnect` of the old map, exactly one broadcast is appended and it is the new key set, and the replay invariant is kept |
| Presence.BroadcastsAreOnlineSets | server/server.js:33-38 | every emitted payload is exactly the set of users online, by the reference definition, at that point of the stream |
| Js.SplitJoin | server/middleware/auth.js:14 | joining the pieces of `split` with the separator gives back the header |
| Js.SplitPiecesFree | server/middleware/auth.js:14 | no piece of `split(' ')` contains a space |
| Js.SplitWithoutSeparator | server/middleware/auth.js:14 | a string without the separator splits into itself alone |
| Js.SplitAfterField | server/middleware/auth.js:14 | a separator-free field followed by the separator splits off as the first piece |
| Auth.Reply | server/middleware/auth.js:18-33 | a missing token is answered 401 "Not authorized, token missing"; a thrown error 401 with that error's own message; a gone user 404 "User not found"; never a cookie |
| Auth.ExtractToken | server/middleware/auth.js:8-16 | the token is the cookie if it is non-empty, else the raw `token` header if non-empty, else the second space-separated field of a `Bearer ` authorization header, else none |
| Auth.ProtectRoute | server/middleware/auth.js:5-35 | no non-empty token: 401 missing, no calls; verify throws: 401 with its message after one verify call; lookup throws: 401 with its message; no record: 404; record: the user without password and exactly one `next()` as the last call, and `next()` is called iff the request is admitted |
| Auth.CookieWins | server/middleware/auth.js:8-9 | a non-empty cookie token is used whatever the headers hold |
| Auth.TokenHeaderBeatsAuthorization | server/middleware/auth.js:9-12 | with an empty or absent cookie, a non-empty raw `token` header is used, whatever `Authorization` holds |
| Auth.AuthorizationNeedsBearer | server/middleware/auth.js:13 | an `Authorization` header not starting with "Bearer " gives no token |
| Auth.BearerPlainToken | server/middleware/auth.js:13-14 | "Bearer t" with a space-free t yields t |
| Auth.BearerFirstWordOnly | server/middleware/auth.js:14 | "Bearer a b" yields only a |
| Auth.BearerDoubleSpaceIsMissing | server/middleware/auth.js:13-19 | "Bearer  x" yields the empty token, which counts as missing |
| Auth.BearerTokenIsAField | server/middleware/auth.js:13-14 | a "Bearer " header always yields a token, and it contains no space |
| Users.CookieOptionsFor | server/controllers/userController.js:6-11 | httpOnly, sameSite "strict", maxAge 86 400 000 ms, and secure iff NODE_ENV is "production" |
| Users.Accounts.constructor | server/controllers/userController.js:6-11 | the store is the persisted collection, each record under its own email, and the cookie options are fixed once from the environment |
| Users.Accounts.Signup | server/controllers/userController.js:14-45 | a falsy field gives 400 "Missing details" with no store call and no change; a known email gives "Account already exists" at status 200 after one lookup, store unchanged; otherwise exactly one record with the hashed password is added, the cookie "token" is set to the token for the new id and the status is 201; the store grows iff the status is 201, and a cookie is set iff it does |
| Users.Accounts.Login | server/controllers/userController.js:53-75 | a falsy field gives 400 "Missing credentials" with no store call; an unknown email and a wrong password give the same "Invalid credentials" response with no cookie; a match sets cookie "token" to the token for the user's id and answers with the record whose email was given; the store cannot change |
| Users.Accounts.Logout | server/controllers/userController.js:110-113 | always clears cookie "token" with the same options signup and login set it with, and reports success |
| Users.BuildUpdate | server/controllers/userController.js:93-98 | the update holds `bio` and `fullName` as supplied, holds `profilePic` (the uploaded URL) iff one was supplied, and never holds a password |
| Users.CheckRoute | server/controllers/userController.js:83-85 | `/check` (`protectRoute`, then `checkAuth` as `Users.CheckAuth`) answers 200 with the stored user minus password iff the guard resolves a record; otherwise 401 "Not authorized, token missing", 401 with the verify or lookup error's message, or 404 "User not found"; never a cookie |

## Left out

- The 500 catch-all responses and console logging: a thrown error in signup, login or updateProfile ends in a 500 "Server error"; the model has no failing store, hash or upload.
- Accounts.Signup: runs as one step. In the code two signups for the same email can interleave at the `await`s between `findOne` and `create`, and both can create a record; concurrency is not modelled.
- Non-string JSON values in request bodies (numbers, booleans, objects such as Mongo query operators in `email`): fields are strings or absent.
- `req.cookies.token` is a string or absent: a `j:`-prefixed cookie, which cookie-parser turns into a JSON value (`j:0` is falsy, `j:{}` is an object), is not modelled.
- A `userId` query parameter given twice (an array) or equal to `__proto__` (whose assignment JavaScript ignores): user ids are plain strings.
- The `updateProfile` database write (`findByIdAndUpdate ... select("-password")`) and its response; only the update document is modelled.
- Token signing and verification internals, and token expiry: the code signs without `expiresIn`.
- The order of `Object.keys`: payloads are sets.
- Delivery of `io.emit` to clients: emits are entries in the broadcast log.
- server/lib/utils.js, server/lib/db.js, server/routes/userRoutes.js (beyond `/check` going through the guard) and client/context/AuthContext.jsx are not part of this model.
