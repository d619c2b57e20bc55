/** Token rotation, `update_jwt` (src/auth/utils.rs): issue an access and a refresh token for a
    user and publish both `jti`s in the whitelist, the access one first. */
module AuthUtils {
  import opened Types
  import opened Jwt
  import opened Whitelist

  /** What the token factories draw from randomness and the clock for one token: a fresh `jti`
      and an expiry instant. */
  datatype Issue = Issue(jti: string, exp: nat)

  /** Rotation parameters: both issues and whether each of the two whitelist connections
      succeeds. */
  datatype RotationEnv = RotationEnv(access: Issue, refresh: Issue, accessReachable: bool, refreshReachable: bool)

  /** Where an `unwrap` panicked. */
  datatype PanicSite = AccessDecode | RefreshDecode | AccessPublish | RefreshPublish

  /** `update_jwt` never returns `Err`: it returns the pair or panics. */
  datatype Rotation = Rotated(access: string, refresh: string) | Panicked(site: PanicSite)

  /** `create_access_token` / `create_refresh_token`: a token of the given type for `sub`. */
  function IssueToken(ctx: Context, sub: string, issue: Issue, tokenType: string): string {
    Encode(ctx, Claims(sub, issue.exp, issue.jti, tokenType))
  }

  /** The whitelist after a complete rotation for `uuid`. */
  function RotatedStore(store: map<string, string>, uuid: string, accessJti: string, refreshJti: string): map<string, string> {
    store[Key("access", uuid) := accessJti][Key("refresh", uuid) := refreshJti]
  }

  predicate Live(ctx: Context, issue: Issue) { issue.exp + ctx.leeway >= ctx.now }

  /** What `update_jwt` yields for these parameters. */
  function RotationResult(ctx: Context, uuid: string, env: RotationEnv): Rotation {
    if !Live(ctx, env.access) then Panicked(AccessDecode)
    else if !Live(ctx, env.refresh) then Panicked(RefreshDecode)
    else if !env.accessReachable then Panicked(AccessPublish)
    else if !env.refreshReachable then Panicked(RefreshPublish)
    else Rotated(IssueToken(ctx, uuid, env.access, "access"), IssueToken(ctx, uuid, env.refresh, "refresh"))
  }

  /** The whitelist `update_jwt` leaves behind for these parameters. */
  function StoreAfter(ctx: Context, store: map<string, string>, uuid: string, env: RotationEnv): map<string, string> {
    if !Live(ctx, env.access) || !Live(ctx, env.refresh) || !env.accessReachable then store
    else if !env.refreshReachable then store[Key("access", uuid) := env.access.jti]
    else RotatedStore(store, uuid, env.access.jti, env.refresh.jti)
  }

  /** `update_jwt(uuid)`. With sound primitives it panics before any write when a fresh token does
      not decode (its expiry is already past), and otherwise only when a whitelist write fails, the
      access write coming first. */
  method UpdateJwt(registry: Registry, ctx: Context, uuid: string, env: RotationEnv) returns (r: Rotation)
    requires Sound(ctx.primitives)
    modifies registry
    ensures !Live(ctx, env.access) ==>
      r == Panicked(AccessDecode) && registry.store == old(registry.store) && registry.writes == old(registry.writes)
    ensures Live(ctx, env.access) && !Live(ctx, env.refresh) ==>
      r == Panicked(RefreshDecode) && registry.store == old(registry.store) && registry.writes == old(registry.writes)
    ensures Live(ctx, env.access) && Live(ctx, env.refresh) && env.accessReachable && env.refreshReachable ==>
      && r == Rotated(IssueToken(ctx, uuid, env.access, "access"), IssueToken(ctx, uuid, env.refresh, "refresh"))
      && registry.store == RotatedStore(old(registry.store), uuid, env.access.jti, env.refresh.jti)
      && registry.writes == old(registry.writes) + [(Key("access", uuid), env.access.jti), (Key("refresh", uuid), env.refresh.jti)]
    ensures Live(ctx, env.access) && Live(ctx, env.refresh) && env.accessReachable && !env.refreshReachable ==>
      && r == Panicked(RefreshPublish)
      && registry.store == old(registry.store)[Key("access", uuid) := env.access.jti]
      && registry.writes == old(registry.writes) + [(Key("access", uuid), env.access.jti)]
    ensures Live(ctx, env.access) && Live(ctx, env.refresh) && !env.accessReachable ==>
      r == Panicked(AccessPublish) && registry.store == old(registry.store) && registry.writes == old(registry.writes)
    ensures r == RotationResult(ctx, uuid, env)
    ensures registry.store == StoreAfter(ctx, old(registry.store), uuid, env)
  {
    var accessToken := IssueToken(ctx, uuid, env.access, "access");
    var refreshToken := IssueToken(ctx, uuid, env.refresh, "refresh");
    EncodeDecode(ctx, Claims(uuid, env.access.exp, env.access.jti, "access"));
    EncodeDecode(ctx, Claims(uuid, env.refresh.exp, env.refresh.jti, "refresh"));
    var accessClaims := Decode(ctx, accessToken);
    if accessClaims.Err? {
      return Panicked(AccessDecode);
    }
    var refreshClaims := Decode(ctx, refreshToken);
    if refreshClaims.Err? {
      return Panicked(RefreshDecode);
    }
    var w := registry.SetValidJti(accessClaims.value.sub, accessClaims.value.jti, "access", env.accessReachable);
    if w.Err? {
      return Panicked(AccessPublish);
    }
    w := registry.SetValidJti(refreshClaims.value.sub, refreshClaims.value.jti, "refresh", env.refreshReachable);
    if w.Err? {
      return Panicked(RefreshPublish);
    }
    r := Rotated(accessToken, refreshToken);
  }

  /** The tokens a rotation returns are current: each decodes to a claim set for `uuid` of its
      own type whose `jti` is exactly the one the rotated whitelist holds for that type. */
  lemma RotatedTokensAreCurrent(ctx: Context, store: map<string, string>, uuid: string, access: Issue, refresh: Issue)
    requires Sound(ctx.primitives)
    requires Live(ctx, access) && Live(ctx, refresh)
    ensures var s := RotatedStore(store, uuid, access.jti, refresh.jti);
      && Decode(ctx, IssueToken(ctx, uuid, access, "access")) == Ok(Claims(uuid, access.exp, access.jti, "access"))
      && Decode(ctx, IssueToken(ctx, uuid, refresh, "refresh")) == Ok(Claims(uuid, refresh.exp, refresh.jti, "refresh"))
      && Matches(s, "access", uuid, access.jti)
      && Matches(s, "refresh", uuid, refresh.jti)
  {
    EncodeDecode(ctx, Claims(uuid, access.exp, access.jti, "access"));
    EncodeDecode(ctx, Claims(uuid, refresh.exp, refresh.jti, "refresh"));
    WriteIsolation(store[Key("access", uuid) := access.jti], "refresh", uuid, refresh.jti, "access", uuid, access.jti);
  }

  /** Single active session: after a rotation a `jti` is current for a type of the user iff it
      is the one just issued for that type, whatever was current before; other users' slots
      answer as before. */
  lemma RotationSupersedes(store: map<string, string>, uuid: string, accessJti: string, refreshJti: string,
                           tokenType: string, user: string, jti: string)
    requires IsTokenType(tokenType)
    ensures var s := RotatedStore(store, uuid, accessJti, refreshJti);
      Matches(s, tokenType, user, jti) ==
        if user != uuid then Matches(store, tokenType, user, jti)
        else if tokenType == "access" then jti == accessJti
        else jti == refreshJti
  {
    var s1 := store[Key("access", uuid) := accessJti];
    if user != uuid || tokenType == "access" {
      WriteIsolation(s1, "refresh", uuid, refreshJti, tokenType, user, jti);
    }
    if user != uuid {
      WriteIsolation(store, "access", uuid, accessJti, tokenType, user, jti);
    }
  }

  /** Two successive rotations for a user: the first pair's `jti`s are no longer current unless
      the second rotation drew the same ones. */
  lemma SecondRotationRevokesFirst(store: map<string, string>, uuid: string, a1: string, r1: string, a2: string, r2: string)
    ensures var s := RotatedStore(RotatedStore(store, uuid, a1, r1), uuid, a2, r2);
      && (Matches(s, "access", uuid, a1) <==> a1 == a2)
      && (Matches(s, "refresh", uuid, r1) <==> r1 == r2)
  {
    RotationSupersedes(RotatedStore(store, uuid, a1, r1), uuid, a2, r2, "access", uuid, a1);
    RotationSupersedes(RotatedStore(store, uuid, a1, r1), uuid, a2, r2, "refresh", uuid, r1);
  }
}
