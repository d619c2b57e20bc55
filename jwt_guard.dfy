/** The bearer-token middleware `require_jwt` (src/auth/jwt.rs) and the header parsing it shares
    with the refresh endpoint: the `Authorization: Bearer <token>` request header field of
    section 2.1 of RFC 6750, with the scheme name matched case-sensitively. */
module JwtGuard {
  import opened Types
  import opened Errors
  import opened Jwt

  /** The bytes `HeaderValue::to_str` accepts: visible ASCII and horizontal tab. */
  predicate IsVisibleAscii(b: byte) { 32 <= b < 127 || b == 9 }

  /** `HeaderValue::to_str`: the header value as text when every byte is visible ASCII. */
  function ToStr(v: seq<byte>): (r: Option<string>)
    ensures r.Some? <==> forall i :: 0 <= i < |v| ==> IsVisibleAscii(v[i])
    ensures r.Some? ==> |r.value| == |v| && forall i :: 0 <= i < |v| ==> r.value[i] as int == v[i] as int
  {
    if v == [] then Some([])
    else if !IsVisibleAscii(v[0]) then None
    else
      match ToStr(v[1..])
      case None =>
        assert forall i :: 1 <= i < |v| ==> v[i] == v[1..][i - 1];
        None
      case Some(rest) =>
        assert forall i :: 1 <= i < |v| ==> v[i] == v[1..][i - 1];
        Some([v[0] as int as char] + rest)
  }

  /** `str::strip_prefix`. */
  function StripPrefix(s: string, prefix: string): (r: Option<string>)
    ensures r.Some? ==> s == prefix + r.value
    ensures r.None? ==> forall t :: s != prefix + t
  {
    if |prefix| <= |s| && s[..|prefix|] == prefix then
      assert s == s[..|prefix|] + s[|prefix|..];
      Some(s[|prefix|..])
    else
      assert forall t :: s == prefix + t ==> s[..|prefix|] == prefix;
      None
  }

  const BearerPrefix := "Bearer "

  /** `headers.get("Authorization").and_then(|h| h.to_str().ok()).and_then(|s| s.strip_prefix("Bearer "))`,
      where `header` is the first `Authorization` value of the request, if any. */
  function BearerToken(header: Option<seq<byte>>): (r: Option<string>)
    ensures r.Some? ==> header.Some? && ToStr(header.value) == Some(BearerPrefix + r.value)
    ensures r.None? ==> header.None? || ToStr(header.value).None?
                        || forall t :: ToStr(header.value).value != BearerPrefix + t
  {
    match header
    case None => None
    case Some(v) =>
      match ToStr(v)
      case None => None
      case Some(s) => StripPrefix(s, BearerPrefix)
  }

  /** The token is exactly the header text after the seven characters "Bearer ". */
  lemma BearerTokenIsSuffix(header: Option<seq<byte>>, token: string)
    ensures BearerToken(header) == Some(token) <==> header.Some? && ToStr(header.value) == Some(BearerPrefix + token)
  {
    if header.Some? && ToStr(header.value) == Some(BearerPrefix + token) {
      var s := BearerPrefix + token;
      assert s[..|BearerPrefix|] == BearerPrefix;
      assert s[|BearerPrefix|..] == token;
    }
  }

  /** A header in another letter case, such as "bearer …", carries no token. */
  lemma SchemeIsCaseSensitive(v: seq<byte>, rest: string)
    requires ToStr(v) == Some("bearer " + rest)
    ensures BearerToken(Some(v)) == None
  {
  }

  /** What the downstream handler answers. */
  datatype Response = Response(status: Status, body: string)

  /** An incoming request: its first `Authorization` value and the `String` the middleware puts in
      its extensions. */
  class Request {
    const authorization: Option<seq<byte>>
    var subject: Option<string>

    constructor (authorization: Option<seq<byte>>)
      ensures this.authorization == authorization && subject == None
    {
      this.authorization := authorization;
      subject := None;
    }
  }

  /** The rest of the handler chain (`Next`); `runs` records the subject each run saw. */
  class Next {
    const handler: Option<string> -> Response
    ghost var runs: seq<Option<string>>

    constructor (handler: Option<string> -> Response)
      ensures this.handler == handler && runs == []
    {
      this.handler := handler;
      runs := [];
    }

    method Run(req: Request) returns (resp: Response)
      modifies this
      ensures runs == old(runs) + [req.subject]
      ensures resp == handler(req.subject)
    {
      runs := runs + [req.subject];
      resp := handler(req.subject);
    }
  }

  /** `require_jwt`: no token or a token that does not decode gives 401 and nothing runs;
      otherwise the subject is attached to the request and the handler runs once. */
  method RequireJwt(ctx: Context, req: Request, next: Next) returns (r: Result<Response, Status>)
    modifies req, next
    ensures BearerToken(req.authorization).None? ==>
      r == Err(Unauthorized) && req.subject == old(req.subject) && next.runs == old(next.runs)
    ensures BearerToken(req.authorization).Some? && Decode(ctx, BearerToken(req.authorization).value).Err? ==>
      r == Err(Unauthorized) && req.subject == old(req.subject) && next.runs == old(next.runs)
    ensures BearerToken(req.authorization).Some? && Decode(ctx, BearerToken(req.authorization).value).Ok? ==>
      var sub := Decode(ctx, BearerToken(req.authorization).value).value.sub;
      && req.subject == Some(sub)
      && next.runs == old(next.runs) + [Some(sub)]
      && r == Ok(next.handler(Some(sub)))
  {
    var token := BearerToken(req.authorization);
    if token.None? {
      return Err(Unauthorized);
    }
    var claims := Decode(ctx, token.value);
    if claims.Err? {
      return Err(Unauthorized);
    }
    req.subject := Some(claims.value.sub);
    var resp := next.Run(req);
    r := Ok(resp);
  }

  /** A token issued for `claims` and presented as "Bearer <token>" passes the guard's parsing
      and decoding with those claims until they expire. */
  lemma IssuedTokenPassesGuard(ctx: Context, claims: Claims, v: seq<byte>)
    requires Sound(ctx.primitives)
    requires ToStr(v) == Some(BearerPrefix + Encode(ctx, claims))
    requires claims.exp + ctx.leeway >= ctx.now
    ensures BearerToken(Some(v)) == Some(Encode(ctx, claims))
    ensures Decode(ctx, Encode(ctx, claims)) == Ok(claims)
  {
    BearerTokenIsSuffix(Some(v), Encode(ctx, claims));
    EncodeDecode(ctx, claims);
  }
}
