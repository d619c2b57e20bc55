/** The authentication endpoints (src/auth/services.rs): log in, register and refresh, each of
    which ends by rotating the caller's token pair. */
module AuthServices {
  import opened Types
  import opened Errors
  import opened Password
  import opened Jwt
  import opened JwtGuard
  import opened Whitelist
  import opened AuthUtils
  import opened UserModels
  import opened UserStore
  import opened UserServices

  datatype TokenPair = TokenPair(access: string, refresh: string)

  /** The `{ "user": …, "token": { … } }` body of a successful login or registration. */
  datatype Session = Session(user: UserPrivate, token: TokenPair)

  /** How an endpoint ends: a reply, an error reply, or a panic inside `update_jwt`. */
  datatype Outcome<T> = Replied(value: T) | Refused(error: ErrorResponse) | Crashed(site: PanicSite)

  const InvalidCredentials := ErrorResponseOf(Unauthorized, Some("Invalid credentials"))
  const RegisterNameTaken := ErrorResponseOf(Conflict, Some("Username already taken"))
  const HashFailed := ErrorResponseOf(InternalServerError, None)
  const RefreshRefused := ErrorResponseOf(Unauthorized, None)

  /** `verify_password(password, hash).unwrap_or(false)`: a hash that does not parse counts as a
      mismatch. */
  predicate Verified(verify: (string, string) -> Option<bool>, password: string, hash: string) {
    verify(password, hash) == Some(true)
  }

  function Tokens(rot: Rotation): Outcome<TokenPair> {
    match rot
    case Rotated(a, rf) => Replied(TokenPair(a, rf))
    case Panicked(site) => Crashed(site)
  }

  /** The session for `user` once its tokens are rotated. */
  function SessionOf(rot: Rotation, user: UserPrivate): (r: Outcome<Session>)
    ensures r.Replied? <==> rot.Rotated?
    ensures r.Replied? ==> r.value.user == user && r.value.token == TokenPair(rot.access, rot.refresh)
    ensures rot.Panicked? ==> r == Crashed(rot.site)
    ensures !r.Refused?
  {
    match rot
    case Rotated(a, rf) => Replied(Session(user, TokenPair(a, rf)))
    case Panicked(site) => Crashed(site)
  }

  /** `login`: an unknown name and a wrong password get the same 401; otherwise the user's token
      pair is rotated and the private view is returned with it. */
  method Login(db: Users, registry: Registry, ctx: Context, username: string, password: string,
               verify: (string, string) -> Option<bool>, env: RotationEnv)
    returns (r: Outcome<Session>)
    requires db.Valid()
    requires Sound(ctx.primitives)
    modifies registry
    ensures var found := db.FindByUsername(username);
      found.None? || !Verified(verify, password, found.value.passwordHash) ==>
        r == Refused(InvalidCredentials) && registry.store == old(registry.store) && registry.writes == old(registry.writes)
    ensures var found := db.FindByUsername(username);
      found.Some? && Verified(verify, password, found.value.passwordHash) ==>
        && r == SessionOf(RotationResult(ctx, found.value.uuid, env), ToPrivate(found.value))
        && registry.store == StoreAfter(ctx, old(registry.store), found.value.uuid, env)
  {
    var found := db.FindByUsername(username);
    if found.None? {
      return Refused(InvalidCredentials);
    }
    var user := found.value;
    if !Verified(verify, password, user.passwordHash) {
      return Refused(InvalidCredentials);
    }
    var rot := UpdateJwt(registry, ctx, user.uuid, env);
    r := SessionOf(rot, ToPrivate(user));
  }

  /** `register`: the username must be free, then the password strong, then hashing must succeed
      (`hashed`, the salt being random); the new user is inserted under the fresh `uuid`, is what a
      lookup of the name now finds, and gets a rotated token pair. */
  method Register(db: Users, registry: Registry, ctx: Context, k: CharClasses, username: string, password: string,
                  ikPub: Bytes32, spkPub: Bytes32, opkPub: seq<Opk>, hashed: Option<string>, uuid: string,
                  env: RotationEnv)
    returns (r: Outcome<Session>)
    requires db.Valid()
    requires uuid !in db.records
    requires Sound(ctx.primitives)
    modifies db, registry
    ensures db.Valid()
    ensures old(db.FindByUsername(username)).Some? ==>
      && r == Refused(RegisterNameTaken)
      && db.records == old(db.records) && db.order == old(db.order) && registry.store == old(registry.store)
    ensures old(db.FindByUsername(username)).None? && IsPasswordStrong(k, password).Err? ==>
      && r == Refused(IsPasswordStrong(k, password).error)
      && db.records == old(db.records) && db.order == old(db.order) && registry.store == old(registry.store)
    ensures old(db.FindByUsername(username)).None? && IsPasswordStrong(k, password).Ok? && hashed.None? ==>
      && r == Refused(HashFailed)
      && db.records == old(db.records) && db.order == old(db.order) && registry.store == old(registry.store)
    ensures old(db.FindByUsername(username)).None? && IsPasswordStrong(k, password).Ok? && hashed.Some? ==>
      var user := NewUser(uuid, username, hashed.value, NewKey(ikPub, spkPub, opkPub));
      && db.records == old(db.records)[uuid := user]
      && db.order == old(db.order) + [uuid]
      && db.FindByUsername(username) == Some(user)
      && r == SessionOf(RotationResult(ctx, uuid, env), ToPrivate(user))
      && registry.store == StoreAfter(ctx, old(registry.store), uuid, env)
    ensures old(Social(db.records)) ==> Social(db.records)
  {
    var existing := db.FindByUsername(username);
    if existing.Some? {
      return Refused(RegisterNameTaken);
    }
    var strong := IsPasswordStrong(k, password);
    if strong.Err? {
      return Refused(strong.error);
    }
    if hashed.None? {
      return Refused(HashFailed);
    }
    var keys := NewKey(ikPub, spkPub, opkPub);
    var user := NewUser(uuid, username, hashed.value, keys);
    if Social(db.records) {
      InsertNewUserKeepsSocial(db.records, user);
    }
    db.InsertOne(user);
    var rot := UpdateJwt(registry, ctx, user.uuid, env);
    r := SessionOf(rot, ToPrivate(user));
  }

  /** What `refresh_token` decides before rotating: the subject whose pair it rotates, or 401. A
      bearer token is needed, it must decode, and it must be a refresh token. */
  function RefreshSubject(ctx: Context, authorization: Option<seq<byte>>): (r: Result<string, ErrorResponse>)
    ensures r.Err? ==> r.error == RefreshRefused
    ensures r.Ok? <==>
      && BearerToken(authorization).Some?
      && Decode(ctx, BearerToken(authorization).value).Ok?
      && Decode(ctx, BearerToken(authorization).value).value.tokenType == "refresh"
    ensures r.Ok? ==> r.value == Decode(ctx, BearerToken(authorization).value).value.sub
  {
    match BearerToken(authorization)
    case None => Err(RefreshRefused)
    case Some(token) =>
      match Decode(ctx, token)
      case Err(_) => Err(RefreshRefused)
      case Ok(claims) => if claims.tokenType != "refresh" then Err(RefreshRefused) else Ok(claims.sub)
  }

  /** `refresh_token`: 401 with nothing changed unless the header carries a valid refresh token;
      otherwise the pair of the token's subject is rotated. The whitelist is not consulted. */
  method RefreshToken(registry: Registry, ctx: Context, authorization: Option<seq<byte>>, env: RotationEnv)
    returns (r: Outcome<TokenPair>)
    requires Sound(ctx.primitives)
    modifies registry
    ensures RefreshSubject(ctx, authorization).Err? ==>
      && r == Refused(RefreshSubject(ctx, authorization).error)
      && registry.store == old(registry.store) && registry.writes == old(registry.writes)
    ensures RefreshSubject(ctx, authorization).Ok? ==>
      var sub := RefreshSubject(ctx, authorization).value;
      && r == Tokens(RotationResult(ctx, sub, env))
      && registry.store == StoreAfter(ctx, old(registry.store), sub, env)
  {
    var token := BearerToken(authorization);
    if token.None? {
      return Refused(RefreshRefused);
    }
    var claims := Decode(ctx, token.value);
    if claims.Err? {
      return Refused(RefreshRefused);
    }
    if claims.value.tokenType != "refresh" {
      return Refused(RefreshRefused);
    }
    var rot := UpdateJwt(registry, ctx, claims.value.sub, env);
    r := Tokens(rot);
  }

  /** A refresh token the service issued, still live and presented as `Bearer <token>`, refreshes
      the pair of its own subject; the access token issued beside it is refused. */
  lemma IssuedRefreshTokenRefreshes(ctx: Context, uuid: string, issue: Issue, tokenType: string, v: seq<byte>)
    requires Sound(ctx.primitives)
    requires Live(ctx, issue)
    requires ToStr(v) == Some(BearerPrefix + IssueToken(ctx, uuid, issue, tokenType))
    ensures RefreshSubject(ctx, Some(v)) == if tokenType == "refresh" then Ok(uuid) else Err(RefreshRefused)
  {
    BearerTokenIsSuffix(Some(v), IssueToken(ctx, uuid, issue, tokenType));
    EncodeDecode(ctx, Claims(uuid, issue.exp, issue.jti, tokenType));
  }

  /** Only tokens signed with the service's secret get past the refresh checks: an accepted
      header carries `header.payload.mac`, the MAC being that of `header.payload` under the secret,
      and the payload is a refresh claim set for the subject. */
  lemma RefreshNeedsSignedRefreshToken(ctx: Context, authorization: Option<seq<byte>>)
    requires RefreshSubject(ctx, authorization).Ok?
    ensures exists h, pl, claims ::
      && BearerToken(authorization) == Some(SigningInput(h, pl) + "." + ctx.primitives.hmac(ctx.secret, SigningInput(h, pl)))
      && ctx.primitives.decodeClaims(pl) == Some(claims)
      && claims.tokenType == "refresh" && claims.sub == RefreshSubject(ctx, authorization).value
  {
    var token := BearerToken(authorization).value;
    var claims := Decode(ctx, token).value;
    AcceptedTokensAreSigned(ctx, token);
    var h, pl :| && token == SigningInput(h, pl) + "." + ctx.primitives.hmac(ctx.secret, SigningInput(h, pl))
                 && ctx.primitives.decodeClaims(pl) == Some(claims);
    assert BearerToken(authorization) == Some(SigningInput(h, pl) + "." + ctx.primitives.hmac(ctx.secret, SigningInput(h, pl)));
  }
}
