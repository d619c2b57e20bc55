# Lucchat API — a verified Dafny model

Lucchat's API is the back end of an end-to-end encrypted chat. Users register with a
password and a public key bundle, log in to get an access/refresh JSON Web Token pair, and
manage a friend graph of requests and friendships. They drop encrypted messages into one
another's inbox of unread messages. This project models the core of that service and proves
what it promises:

- the error replies (`types.dfy`, `errors.dfy`);
- the password strength rule (`password.dfy`);
- token creation and verification (`jwt.dfy`) and the bearer-token middleware (`jwt_guard.dfy`);
- the session whitelist kept in Redis (`whitelist.dfy`) and token rotation (`auth_utils.dfy`);
- the login, registration and refresh endpoints (`auth_services.dfy`);
- the user documents and their views (`user_models.dfy`, `message_models.dfy`) and the MongoDB
  `users` collection (`user_store.dfy`);
- the profile and friend-graph operations (`user_services.dfy`);
- the message inbox (`message_services.dfy`).

How the pieces are modelled:

- **Stateful parts are classes.** The Redis server is `Whitelist.Registry`, a class over a
  `map<string, string>`. The `users` collection is `UserStore.Users`, a class over a map from
  `uuid` to document plus the insertion order that lookups by name scan. Each service is a
  method that changes these fields step by step, as the Rust code does. Its postcondition
  gives the reply and the new state for every branch, each branch stated by its condition on
  the inputs and the state before the call, in the source's order.
- **Friend operations have pure specifications.** Each is tied to a pure transition function
  (`AddRequest`, `Befriend`, `DropRequest`, `Unfriend`). Lemmas prove that each transition
  keeps the friend graph consistent: every id names a user, requests are recorded on both
  sides or neither, and friendship is symmetric.
- **JSON, base64url and HMAC-SHA256 are abstract.** They are function values in a
  `Jwt.Primitives` record, and the ghost predicate `Jwt.Sound` states what is assumed of them:
  encodings decode back and never contain a '.'. The JWS compact serialization (section 7.1
  of RFC 7515), the `alg` check for HS256 (section 3.2 of RFC 7518), the signature comparison
  and the expiry check are modelled concretely.
- **Outside inputs are parameters.** The clock, the secret, the library's leeway, the random
  `jti`s and `uuid`s, Argon2 hashing and verification, and whether a Redis connection
  succeeds are all passed in.

What the code does, and so what the model does:

- `require_jwt` only decodes the token. It checks neither the whitelist nor the token's type
  (src/auth/jwt.rs:55-76).
- `refresh_token` does not consult the whitelist either (src/auth/services.rs:124-149).
- The one token lifetime in the code is the 24 hours of `create_jwt` (src/auth/jwt.rs:14-17).
  The access and refresh factories are not part of this model, so each rotation takes the
  expiry of each token as a parameter (`AuthUtils.Issue`).
- The claim set of src/auth/jwt.rs:6-10 has only `sub` and `exp`, yet its callers read `jti`
  and `token_type` (src/auth/utils.rs:21, src/auth/services.rs:137). The model's claims carry
  all four.
- `create_access_token` and `create_refresh_token` are not part of this model. Each is
  `AuthUtils.IssueToken`: the encoding of a claim set with a given `jti` and expiry.

## Model

| member | source | states |
|---|---|---|
| Errors.ErrorResponseOf | src/utils/error.rs:4-26 | the reply keeps the status; the body's code is the status; an explicit message overrides the default; otherwise the status's default message (400 "Bad request" … 500 "Internal server error", any other "An error occurred") |
| Errors.DefaultMessagesDistinguishStatus | src/utils/error.rs:5-13 | each of the six listed statuses has a default message no other status shares; every other status gets "An error occurred" |
| Password.Any | src/auth/password.rs:48 | `chars().any(p)` holds iff some character satisfies `p` |
| Password.CheckMinLength | src/auth/password.rs:37-45 | Ok(true) iff the UTF-8 byte length is at least the minimum; otherwise 400 "Password is too short" |
| Password.CheckLowercase | src/auth/password.rs:47-55 | Ok(true) iff some character is lowercase; otherwise 400 with the lowercase message |
| Password.CheckUppercase | src/auth/password.rs:57-65 | Ok(true) iff some character is uppercase; otherwise 400 with the uppercase message |
| Password.CheckDigit | src/auth/password.rs:67-75 | Ok(true) iff some character is one of '0'..'9'; otherwise 400 with the digit message |
| Password.CheckSpecialChar | src/auth/password.rs:77-86 | Ok(true) iff some character is not a word character (`\W` matches); otherwise 400 with the special-character message |
| Password.IsPasswordStrong | src/auth/password.rs:27-35 | Ok(true) iff the password is strong: at least 12 UTF-8 bytes, a lowercase, an uppercase, an ASCII digit and a non-word character; otherwise a 400 whose message is that of the first failing check in the order length, lowercase, uppercase, digit, special |
| Password.Utf8LenBounds | src/auth/password.rs:37-38 | the length checked is the UTF-8 byte length: between the character count and four times it, equal to it iff the password is ASCII |
| Password.ShortMultibytePasswordIsLongEnough | src/auth/password.rs:37-45 | six two-byte characters pass the 12-byte length check |
| Password.SpecialCharacterClass | src/auth/password.rs:67-79 | `\W` excludes the underscore and includes the space; no digit counts as special |
| Password.StrongAscii | src/auth/password.rs:27-86 | on ASCII passwords, strong means at least 12 characters with a-z, A-Z, 0-9 and a character outside `[A-Za-z0-9_]` |
| Jwt.Split | src/auth/jwt.rs:43-47 | the compact form splits into dot-free parts that join back to the token |
| Jwt.Decode | src/auth/jwt.rs:36-49 | a token is accepted only with three parts, an HS256 header, the HMAC of `header.payload` under the secret, readable claims, and an expiry not past (with the leeway); an accepted claim set is never expired |
| Jwt.EncodeDecode | src/auth/jwt.rs:13-49 | round trip: a signed token decodes to its claims, or is refused as expired once its expiry plus the leeway is past |
| Jwt.WrongSecretRejected | src/auth/jwt.rs:43-47 | a token signed under one secret is refused with an invalid signature under a secret whose MAC differs |
| Jwt.AcceptedTokensAreSigned | src/auth/jwt.rs:43-47 | every accepted token is `header.payload.mac`, with an HS256 header, the returned claims in the payload and the MAC of `header.payload` under the secret |
| Jwt.CreateJwtDecodes | src/auth/jwt.rs:13-33 | `create_jwt(u)` carries `sub = u` and `exp = now + 86400`; it decodes to those claims until that instant plus the leeway and as expired afterwards |
| Jwt.CreateJwt | src/auth/jwt.rs:13-33 | with sound primitives the token decodes, at the instant it is made, to `sub = userId`, `exp = now + 86400` and the given `jti` and type |
| Jwt.SplitToken | src/auth/jwt.rs:43-47 | a token built from three dot-free parts splits back into exactly those parts |
| JwtGuard.ToStr | src/auth/jwt.rs:60-63 | `to_str` succeeds iff every byte is visible ASCII or a tab, and then keeps every byte as a character |
| JwtGuard.StripPrefix | src/auth/jwt.rs:65 | `strip_prefix` gives the rest when the text starts with the prefix, and nothing when no suffix completes it |
| JwtGuard.BearerToken | src/auth/jwt.rs:60-65 | a token is extracted only from a present, visible-ASCII header that reads "Bearer " followed by it; none when the header is absent, not visible ASCII, or does not start with "Bearer " |
| JwtGuard.BearerTokenIsSuffix | src/auth/jwt.rs:60-67 | the guard's token is `t` iff the header is present, is visible ASCII and reads exactly "Bearer " + `t` |
| JwtGuard.SchemeIsCaseSensitive | src/auth/jwt.rs:65 | a header reading "bearer …" carries no token |
| JwtGuard.Next.Run | src/auth/jwt.rs:75 | the handler's response for the request's subject; the run is recorded |
| JwtGuard.RequireJwt | src/auth/jwt.rs:55-76 | 401, with the request untouched and no handler run, when there is no bearer token or it does not decode; otherwise the subject is attached, the handler runs exactly once and its response is returned |
| JwtGuard.IssuedTokenPassesGuard | src/auth/jwt.rs:60-75 | a live issued token sent as "Bearer <token>" is extracted intact and decodes to its claims |
| Whitelist.Registry.SetValidJti | src/auth/whitelist.rs:4-19 | an unknown token type is a type error and a failed connection a connection error, both with the store untouched; otherwise the slot `"{type}_jti:{user}"` is overwritten with the `jti` and nothing else changes |
| Whitelist.Registry.IsJtiValid | src/auth/whitelist.rs:22-37 | the same two errors; otherwise true iff the slot holds exactly the `jti` (an absent slot gives false); only reads |
| Whitelist.KeyInjective | src/auth/whitelist.rs:17 | keys of two token types and users are equal only for the same type and user |
| Whitelist.LatestWriteWins | src/auth/whitelist.rs:17-36 | after a write of `j` to a slot, a `jti` matches that slot iff it is `j` |
| Whitelist.WriteIsolation | src/auth/whitelist.rs:17-36 | a write for one (type, user) pair never changes the answer for another pair |
| AuthUtils.UpdateJwt | src/auth/utils.rs:11-29 | a panic before any write when a fresh token does not decode; otherwise a panic with the store untouched when the access write fails; with the access slot written and the refresh slot not when the refresh write fails; else both slots hold the returned tokens' `jti`s, written access first, and the pair is returned access first |
| AuthUtils.RotatedTokensAreCurrent | src/auth/utils.rs:16-28 | the two returned tokens decode to claims for the user of their own type whose `jti`s are exactly the ones now in the whitelist |
| AuthUtils.RotationSupersedes | src/auth/utils.rs:21-27 | after a rotation a `jti` is current for a type of the user iff it was just issued for that type; other users' slots answer as before |
| AuthUtils.SecondRotationRevokesFirst | src/auth/utils.rs:21-27 | a second rotation makes the first pair's `jti`s stale unless it drew the same ones |
| AuthServices.SessionOf | src/auth/services.rs:40-59 | a rotation gives the user's private view plus both tokens, access then refresh; a panic stays a panic |
| AuthServices.Login | src/auth/services.rs:22-66 | the same 401 "Invalid credentials" for an unknown name, a wrong password and a hash that does not parse, with the whitelist untouched; otherwise the user's tokens are rotated and the private view is returned with them |
| AuthServices.Register | src/auth/services.rs:68-122 | 409 for a taken name before the strength check; the strength check's 400 before hashing; 500 when hashing fails; each with nothing stored; otherwise the new user (empty lists, no description) is inserted and found by its name, and its tokens are rotated |
| AuthServices.RefreshToken | src/auth/services.rs:124-149 | 401 with the whitelist untouched for a missing or non-"Bearer " header, a token that does not decode, or a token that is not a refresh token; otherwise the pair of the token's subject is rotated |
| AuthServices.RefreshSubject | src/auth/services.rs:128-139 | the subject to rotate iff there is a bearer token, it decodes, and its type is "refresh"; that subject is the token's `sub`; every refusal is the same 401 |
| AuthServices.IssuedRefreshTokenRefreshes | src/auth/services.rs:128-142 | a live issued token sent as "Bearer <token>" refreshes its own subject when it is a refresh token and is refused otherwise |
| AuthServices.RefreshNeedsSignedRefreshToken | src/auth/services.rs:128-142 | a header that is accepted carries a token signed under the secret whose claims are a refresh claim set for the subject |
| MessageModels.Info | src/message/models.rs:18-26 | the routing triple of a message: its uuid, sender and receiver |
| UserModels.NewKey | src/user/models.rs:86-94 | the three public keys are stored unchanged |
| UserModels.NewUser | src/user/models.rs:19-33 | name, hash and keys as given; no description or picture; empty request, friend and message lists |
| UserModels.ToPublic | src/user/services.rs:69-74 | the public view carries the uuid, username, description and picture of the document |
| UserModels.ToPrivate | src/auth/services.rs:44-53 | the owner's view carries every field of the document except the password hash and the unread messages |
| UserModels.ToPublicFriend | src/user/models.rs:43-58 | the friend view is the public view plus exactly the key bundle |
| UserModels.ViewsHideSecrets | src/user/models.rs:43-70 | no view reveals the password hash or the unread messages |
| UserStore.FirstNamed | src/user/services.rs:109-113 | the first document in scan order with that name, or none when no document has it |
| UserStore.FirstNamedAppend | src/auth/services.rs:97-100 | a document inserted with a fresh uuid and a name nobody held is what a lookup of the name finds |
| UserStore.Pull | src/message/services.rs:62-66 | `$pull` by uuid: the result holds no message with that uuid and holds every other message |
| UserStore.FindMessage | src/message/services.rs:83-92 | the first message with that uuid, present iff the inbox holds one |
| UserStore.Users.FindUser | src/user/utils.rs:6-16 | the document with that uuid, or 404 "User not found" iff there is none |
| UserStore.Users.FindByUsername | src/auth/services.rs:29-30 | a document with that name from the collection when one exists, and none exactly when no document has that name |
| UserStore.Users.InsertOne | src/auth/services.rs:97-100 | the document is added under its fresh uuid, at the end of the scan order, and is what a lookup of its name finds when no one held that name |
| UserStore.Users.UpdateUserFields | src/user/utils.rs:18-30 | the document is replaced by its updated version; a missing document stays missing |
| UserStore.Users.PushUnreadMessage | src/message/services.rs:41-53 | the message is appended to the end of that user's unread messages; nothing else changes |
| UserStore.Users.FindOneAndPull | src/message/services.rs:62-81 | when the user holds a message with that uuid, the document before the update is returned and every such message is pulled; otherwise nothing and no change |
| UserServices.Without | src/user/services.rs:272 | `retain(\|id\| id != x)` keeps exactly the entries other than `x` |
| UserServices.WithoutCounts | src/user/services.rs:272 | `retain` removes every occurrence of `x` and keeps every other entry as often as it occurred |
| UserServices.AddRequestKeepsSocial | src/user/services.rs:212-226 | recording a request on both sides keeps the graph consistent |
| UserServices.BefriendKeepsSocial | src/user/services.rs:272-283 | accepting keeps the graph consistent; both become friends and the request is gone from both sides |
| UserServices.DropRequestKeepsSocial | src/user/services.rs:319-333 | declining keeps the graph consistent; the request is gone from both sides |
| UserServices.UnfriendKeepsSocial | src/user/services.rs:366-370 | removing a friendship keeps the graph consistent; neither lists the other as a friend |
| UserServices.ListsUntouchedKeepSocial | src/user/services.rs:126-147 | replacing a document without touching its three id lists keeps the graph consistent |
| UserServices.InsertNewUserKeepsSocial | src/user/models.rs:28-30 | adding a user with empty lists under a fresh uuid keeps the graph consistent |
| UserServices.GetProfile | src/user/services.rs:16-40 | 404 for a missing user; otherwise the private view of its document |
| UserServices.GetById | src/user/services.rs:42-77 | 404 for a missing target; otherwise the friend view, with keys, iff the requester is in the target's friends, and the public view otherwise |
| UserServices.UpdateUser | src/user/services.rs:100-152 | 400 for a name held by another user; 400 when no field is given; whenever neither holds (a free name or one's own name, or no new name with some other field), exactly the given fields are set and the new private view returned (404 for a missing user); the graph stays consistent |
| UserServices.AcceptFriendship | src/user/services.rs:231-286 | 404 for a missing user; then 400 for oneself, for a request missing on the user's side, for one missing on the friend's side, each with no write; otherwise the accept transition |
| UserServices.RequestFriendship | src/user/services.rs:154-229 | 404 for a missing user; then 400 in order for oneself, friends on either side, a request on either side; then the auto-accept when the friend had asked; else exactly the request recorded on both sides |
| UserServices.DeclineFriendship | src/user/services.rs:288-336 | 404 for a missing user; then 400 for oneself or a request missing on either side; otherwise only the request leaves both sides |
| UserServices.RemoveFriendship | src/user/services.rs:338-373 | 404 for a missing user; then 400 for oneself or a friendship missing on either side; otherwise each leaves the other's friends |
| MessageServices.SendMessage | src/message/services.rs:9-55 | 400 when the caller is not the sender, then 400 when sender and receiver coincide, then 404 for a missing receiver, each with no change; otherwise the message is appended to the receiver's inbox and no other document changes |
| MessageServices.ReadMessage | src/message/services.rs:57-95 | 404 with no change unless the user's inbox holds a message with that uuid; otherwise every such message is removed and the first of them is returned |
| MessageServices.PullAppend | src/message/services.rs:66 | `$pull` distributes over concatenation |
| MessageServices.ReadAfterSend | src/message/services.rs:9-95 | sending a message with a uuid new to the inbox, then reading that uuid, returns the message and restores the inbox |

## Left out

- Database and Redis errors: MongoDB failures ("Database error", 500) are not modelled. Redis connection failures are a `reachable` flag on each call.
- Concurrency is not modelled. Each operation runs alone, and its two document writes, or its two whitelist writes, are separate steps. Two concurrent rotations can leave a torn access/refresh pair. Two concurrent friend operations can interleave their writes.
- The `get_all` cursor loop (src/user/services.rs:79-98) is streaming I/O that skips undecodable documents. It is not modelled.
- Argon2 `hash_password` and `verify_password` (src/auth/password.rs:7-25) are foreign cryptography. Hashing is a parameter (`Option<string>`, `None` for a failure). Verification is a function parameter whose `None` is an unparsable hash.
- JSON, base64url and HMAC-SHA256 are abstract primitives (`Jwt.Primitives`). What is assumed of them is the hypothesis `Jwt.Sound`.
- A missing `JWT_SECRET` panics (src/auth/jwt.rs:24-26, 40-42); the model always has a secret.
- `uuid` and `jti` randomness is not modelled. Both are parameters, and a new user's `uuid` is required to be unused.
- Jwt.Decode: the library's default leeway is a parameter rather than a constant. Only the claim checks named above are modelled, not the library's other validation options.
- Password.IsPasswordStrong: the Unicode tables of `is_lowercase`, `is_uppercase` and `\W` are abstract `CharClasses`. Only their agreement with ASCII is stated (`Password.AgreesOnAscii`).
- JwtGuard.RequireJwt: "the handler runs exactly once" is stated over the ghost record of runs of the modelled `Next`, not over the framework's middleware chain.
- UserStore.Users.FindByUsername: the natural order MongoDB scans is modelled as insertion order.
- MessageServices.SendMessage: the `to_document` conversion failure (src/message/services.rs:35-40) is not modelled, since every modelled message converts.
- MessageServices.ReadMessage: the second 404, "Message not found in unread messages" (src/message/services.rs:83-92), cannot occur once the filter has matched. The model shows it unreachable rather than returning it.
- UserServices.AcceptFriendship: the repeated friend-side check (src/user/services.rs:262-270) repeats the one before it, so it is dead code and is not modelled separately.
- The routes, `main`, the health and version endpoints, `build.rs`, and the files that disagree with the rest of the code (src/models/user.rs, src/state.rs, src/routes/user.rs) are wiring or stale, and are not part of this model.
