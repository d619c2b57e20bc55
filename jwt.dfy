/** Token creation and verification (`create_jwt`, `decode_jwt` in src/auth/jwt.rs): JSON Web
    Tokens (RFC 7519) in the JWS compact serialization (section 7.1 of RFC 7515), signed with
    HMAC-SHA256 ("HS256", section 3.2 of RFC 7518). JSON, base64url and HMAC themselves are
    abstract primitives; the compact form, the algorithm check, the signature comparison and the
    expiry check are modelled. */
module Jwt {
  import opened Types

  /** `chrono::Duration::hours(24)`, in seconds. */
  const TokenLifetime: nat := 24 * 60 * 60

  /** The claim set. `token_type` is `"access"` or `"refresh"`. */
  datatype Claims = Claims(sub: string, exp: nat, jti: string, tokenType: string)

  /** The `alg` header parameter. */
  datatype Alg = HS256 | OtherAlg(name: string)

  type Secret = seq<byte>

  /** The primitives the JWT library is built from: header and claim-set encoding (JSON then
      base64url) and the base64url-encoded HMAC-SHA256 of a signing input. */
  datatype Primitives = Primitives(
    encodeHeader: Alg -> string,
    decodeHeader: string -> Option<Alg>,
    encodeClaims: Claims -> string,
    decodeClaims: string -> Option<Claims>,
    hmac: (Secret, string) -> string)

  predicate NoDot(s: string) { '.' !in s }

  /** What the primitives are assumed to do: encodings decode back, and base64url output never
      contains the '.' separator. */
  ghost predicate Sound(p: Primitives) {
    && (forall a :: p.decodeHeader(p.encodeHeader(a)) == Some(a) && NoDot(p.encodeHeader(a)))
    && (forall c :: p.decodeClaims(p.encodeClaims(c)) == Some(c) && NoDot(p.encodeClaims(c)))
    && (forall k, m :: NoDot(p.hmac(k, m)))
  }

  /** The primitives, the `JWT_SECRET` from the secret store, the clock (Unix seconds) and the
      validation leeway of the JWT library. */
  datatype Context = Context(primitives: Primitives, secret: Secret, now: nat, leeway: nat)

  /** Why `decode` refuses a token. */
  datatype DecodeError = InvalidToken | InvalidAlgorithm | InvalidSignature | ExpiredSignature

  function Join(parts: seq<string>): string
    requires |parts| >= 1
  {
    if |parts| == 1 then parts[0] else parts[0] + "." + Join(parts[1..])
  }

  /** The pieces of `s` between '.' separators. */
  function Split(s: string): (parts: seq<string>)
    ensures |parts| >= 1
    ensures forall i :: 0 <= i < |parts| ==> NoDot(parts[i])
    ensures Join(parts) == s
  {
    if s == [] then [""]
    else
      var rest := Split(s[1..]);
      if s[0] == '.' then
        assert ([""] + rest)[1..] == rest;
        [""] + rest
      else
        var parts := [[s[0]] + rest[0]] + rest[1..];
        assert parts[1..] == rest[1..];
        assert |rest| > 1 ==> Join(rest) == rest[0] + "." + Join(rest[1..]);
        assert s == [s[0]] + s[1..];
        parts
  }

  /** The signing input `header.payload` and the signed token `header.payload.signature`. */
  function SigningInput(header: string, payload: string): string { header + "." + payload }

  /** `encode(&Header::default(), &claims, &EncodingKey::from_secret(secret))`: the default
      header names HS256. */
  function Encode(ctx: Context, claims: Claims): string {
    var p := ctx.primitives;
    var input := SigningInput(p.encodeHeader(HS256), p.encodeClaims(claims));
    input + "." + p.hmac(ctx.secret, input)
  }

  /** `decode::<Claims>(token, &DecodingKey::from_secret(secret), &Validation::new(HS256))`:
      three parts, a readable header naming HS256, a matching signature, readable claims, not
      expired. */
  function Decode(ctx: Context, token: string): (r: Result<Claims, DecodeError>)
    ensures r.Ok? ==> r.value.exp + ctx.leeway >= ctx.now
  {
    var p := ctx.primitives;
    var parts := Split(token);
    if |parts| != 3 then Err(InvalidToken)
    else match p.decodeHeader(parts[0])
      case None => Err(InvalidToken)
      case Some(alg) =>
        if alg != HS256 then Err(InvalidAlgorithm)
        else if parts[2] != p.hmac(ctx.secret, SigningInput(parts[0], parts[1])) then Err(InvalidSignature)
        else match p.decodeClaims(parts[1])
          case None => Err(InvalidToken)
          case Some(c) => if c.exp + ctx.leeway < ctx.now then Err(ExpiredSignature) else Ok(c)
  }

  /** `create_jwt`: a token for `userId` that expires 24 hours from now. The claim set carries the
      `jti` and `token_type` the callers read. */
  function CreateJwt(ctx: Context, userId: string, jti: string, tokenType: string): (t: string)
    ensures Sound(ctx.primitives) ==> Decode(ctx, t) == Ok(Claims(userId, ctx.now + TokenLifetime, jti, tokenType))
  {
    var claims := Claims(userId, ctx.now + TokenLifetime, jti, tokenType);
    assert Sound(ctx.primitives) ==> Decode(ctx, Encode(ctx, claims)) == Ok(claims) by {
      if Sound(ctx.primitives) {
        EncodeDecode(ctx, claims);
      }
    }
    Encode(ctx, claims)
  }

  lemma {:induction false} SplitNoDot(s: string)
    requires NoDot(s)
    ensures Split(s) == [s]
  {
    if s != [] {
      SplitNoDot(s[1..]);
      assert s == [s[0]] + s[1..];
    }
  }

  lemma {:induction false} SplitAtDot(a: string, b: string)
    requires NoDot(a)
    ensures Split(a + "." + b) == [a] + Split(b)
  {
    var s := a + "." + b;
    if a == [] {
      assert s[1..] == b;
    } else {
      assert s[1..] == a[1..] + "." + b;
      SplitAtDot(a[1..], b);
      assert a == [a[0]] + a[1..];
    }
  }

  /** The parts of a signed token. */
  lemma SplitToken(h: string, pl: string, sig: string)
    requires NoDot(h) && NoDot(pl) && NoDot(sig)
    ensures Split(h + "." + pl + "." + sig) == [h, pl, sig]
  {
    SplitAtDot(h, pl + "." + sig);
    assert h + "." + pl + "." + sig == h + "." + (pl + "." + sig);
    SplitAtDot(pl, sig);
    SplitNoDot(sig);
    assert Split(pl + "." + sig) == [pl, sig];
  }

  /** Round trip: a token decodes, with the secret it was signed with, to the claims it was made
      from while they have not expired, and as expired afterwards. */
  lemma EncodeDecode(ctx: Context, claims: Claims)
    requires Sound(ctx.primitives)
    ensures Decode(ctx, Encode(ctx, claims))
         == if claims.exp + ctx.leeway < ctx.now then Err(ExpiredSignature) else Ok(claims)
  {
    var p := ctx.primitives;
    var h, pl := p.encodeHeader(HS256), p.encodeClaims(claims);
    SplitToken(h, pl, p.hmac(ctx.secret, SigningInput(h, pl)));
  }

  /** A token signed with one secret is refused as wrongly signed under another secret whose MAC
      of the same input differs. */
  lemma WrongSecretRejected(ctx: Context, other: Secret, claims: Claims)
    requires Sound(ctx.primitives)
    requires var p := ctx.primitives;
      var input := SigningInput(p.encodeHeader(HS256), p.encodeClaims(claims));
      p.hmac(other, input) != p.hmac(ctx.secret, input)
    ensures Decode(ctx.(secret := other), Encode(ctx, claims)) == Err(InvalidSignature)
  {
    var p := ctx.primitives;
    var h, pl := p.encodeHeader(HS256), p.encodeClaims(claims);
    SplitToken(h, pl, p.hmac(ctx.secret, SigningInput(h, pl)));
  }

  /** Only signed tokens are accepted: an accepted token is `header.payload.signature` with an
      HS256 header, the claims in the payload and the HMAC of `header.payload` under the secret. */
  lemma AcceptedTokensAreSigned(ctx: Context, token: string)
    requires Decode(ctx, token).Ok?
    ensures exists h, pl ::
      && token == SigningInput(h, pl) + "." + ctx.primitives.hmac(ctx.secret, SigningInput(h, pl))
      && ctx.primitives.decodeHeader(h) == Some(HS256)
      && ctx.primitives.decodeClaims(pl) == Some(Decode(ctx, token).value)
  {
    var parts := Split(token);
    assert parts[1..][1..] == [parts[2]];
    assert Join(parts[1..]) == parts[1] + "." + parts[2];
    assert token == parts[0] + "." + (parts[1] + "." + parts[2]);
    assert token == SigningInput(parts[0], parts[1]) + "." + parts[2];
  }

  /** `create_jwt` then `decode_jwt`: the claims carry `sub = userId` and `exp = now + 24h`; they
      are accepted until that instant plus the leeway and refused as expired after it. */
  lemma CreateJwtDecodes(ctx: Context, userId: string, jti: string, tokenType: string, later: nat)
    requires Sound(ctx.primitives)
    ensures var r := Decode(ctx.(now := later), CreateJwt(ctx, userId, jti, tokenType));
      if later <= ctx.now + TokenLifetime + ctx.leeway
      then r == Ok(Claims(userId, ctx.now + TokenLifetime, jti, tokenType))
      else r == Err(ExpiredSignature)
  {
    EncodeDecode(ctx.(now := later), Claims(userId, ctx.now + TokenLifetime, jti, tokenType));
  }
}
