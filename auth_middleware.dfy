/** The JWT authentication middleware (internals/middleware/auth.go): the
    Authorization header rules, the claim checks made after the signature
    has been verified, the identity copied into the request context, and the
    cache of the pool's public keys.  Signature verification, the JWKS
    download and the RSA key decoding are inputs. */
module AuthMiddleware {
  import opened Wrappers
  import opened GoStrings
  import opened Errors
  import opened Http

  /** A claim value as the JWT library decodes it: JSON numbers are float64
      in the source and are taken here as whole seconds. */
  datatype ClaimValue = Num(n: int) | Str(s: string) | OtherValue

  type Claims = map<string, ClaimValue>

  datatype JwtConfig = JwtConfig(region: string, userPoolId: string, clientId: string)

  function ExpectedIssuer(cfg: JwtConfig): string
  {
    "https://cognito-idp." + cfg.region + ".amazonaws.com/" + cfg.userPoolId
  }

  /** A numeric claim that is present and lies on the wrong side of `now`. */
  predicate NumBefore(claims: Claims, key: string, now: int)
  {
    key in claims && claims[key].Num? && claims[key].n < now
  }

  predicate NumAfter(claims: Claims, key: string, now: int)
  {
    key in claims && claims[key].Num? && claims[key].n > now
  }

  /** A string claim that is present and differs from the expected value. */
  predicate StrDiffers(claims: Claims, key: string, expected: string)
  {
    key in claims && claims[key].Str? && claims[key].s != expected
  }

  /** The checks of validateToken after parsing, in their order: exp, nbf,
      iat, aud, iss, token_use.  A claim that is absent, or present with
      another JSON type, is not checked. */
  function CheckClaims(claims: Claims, now: int, cfg: JwtConfig): (r: Result<Claims, Error>)
    ensures r.Ok? ==> r.value == claims
    ensures r.Ok? <==>
              !NumBefore(claims, "exp", now) && !NumAfter(claims, "nbf", now) && !NumAfter(claims, "iat", now)
              && !StrDiffers(claims, "aud", cfg.clientId) && !StrDiffers(claims, "iss", ExpectedIssuer(cfg))
              && !StrDiffers(claims, "token_use", "id")
    ensures NumBefore(claims, "exp", now) ==> r == Failure(Plain("token has expired"))
  {
    if NumBefore(claims, "exp", now) then Failure(Plain("token has expired"))
    else if NumAfter(claims, "nbf", now) then Failure(Plain("token not yet valid"))
    else if NumAfter(claims, "iat", now) then Failure(Plain("token used before issued"))
    else if StrDiffers(claims, "aud", cfg.clientId) then Failure(Plain("invalid audience"))
    else if StrDiffers(claims, "iss", ExpectedIssuer(cfg)) then Failure(Plain("invalid issuer"))
    else if StrDiffers(claims, "token_use", "id") then Failure(Plain("invalid token use"))
    else Ok(claims)
  }

  /** Absent claims are never errors: a token with no claims at all passes. */
  lemma NoClaimsAccepted(now: int, cfg: JwtConfig)
    ensures CheckClaims(map[], now, cfg).Ok?
  {
  }

  /** Dropping a claim never turns an accepted token into a rejected one. */
  lemma DroppingClaimKeepsAccepted(claims: Claims, key: string, now: int, cfg: JwtConfig)
    requires CheckClaims(claims, now, cfg).Ok?
    ensures CheckClaims(claims - {key}, now, cfg).Ok?
  {
    var c := claims - {key};
    assert forall k :: k in c ==> k in claims && c[k] == claims[k];
  }

  /** An accepted token stays accepted later as long as it has not expired:
      only exp depends on the clock in that direction. */
  lemma AcceptedUntilExpiry(claims: Claims, now: int, later: int, cfg: JwtConfig)
    requires CheckClaims(claims, now, cfg).Ok? && now <= later
    requires !NumBefore(claims, "exp", later)
    ensures CheckClaims(claims, later, cfg).Ok?
  {
  }

  /** What the middleware does with a request: abort with a response, or let
      it through with the caller's identity set in the context. */
  datatype AuthOutcome = Abort(response: Response) | Proceed(email: string, userId: string, role: string)

  const BearerPrefix := "Bearer "

  /** AuthMiddleware.  `header` is the Authorization header ("" when absent);
      `parse` stands for the JWT library: it verifies the signature of the
      token it is given and yields the token's claims. */
  function Authenticate(header: string, parse: string -> Result<Claims, Error>, now: int, cfg: JwtConfig)
    : (out: AuthOutcome)
    ensures header == "" ==> out == Abort(Response(401, "Authorization header is required"))
    ensures header != "" && !HasPrefix(header, BearerPrefix) ==>
              out == Abort(Response(401, "Authorization header must start with 'Bearer '"))
    ensures header == BearerPrefix ==> out == Abort(Response(401, "Bearer token is required"))
    ensures out.Abort? ==> out.response.status == 401
    ensures out.Proceed? ==>
              HasPrefix(header, BearerPrefix) && |header| > |BearerPrefix|
              && var claims := parse(header[|BearerPrefix|..]);
                 claims.Ok? && CheckClaims(claims.value, now, cfg).Ok?
                 && "email" in claims.value && claims.value["email"] == Str(out.email)
                 && "sub" in claims.value && claims.value["sub"] == Str(out.userId)
                 && "custom:role" in claims.value && claims.value["custom:role"] == Str(out.role)
  {
    if header == "" then Abort(Response(401, "Authorization header is required"))
    else if !HasPrefix(header, BearerPrefix) then
      Abort(Response(401, "Authorization header must start with 'Bearer '"))
    else
      var token := TrimPrefix(header, BearerPrefix);
      if token == "" then Abort(Response(401, "Bearer token is required"))
      else
        var parsed := parse(token);
        if parsed.Failure? || CheckClaims(parsed.value, now, cfg).Failure? then Abort(Response(401, "Invalid token"))
        else
          var claims := parsed.value;
          if !("email" in claims && claims["email"].Str?) then Abort(Response(401, "Email not found in token"))
          else if !("sub" in claims && claims["sub"].Str?) then Abort(Response(401, "User ID not found in token"))
          else if !("custom:role" in claims && claims["custom:role"].Str?) then Abort(Response(401, "Role not found in token"))
          else Proceed(claims["email"].s, claims["sub"].s, claims["custom:role"].s)
  }

  /** A well-formed header whose token verifies and carries the three
      identity claims lets the request through with exactly those values. */
  lemma AuthenticateAccepts(token: string, parse: string -> Result<Claims, Error>, now: int, cfg: JwtConfig,
                            email: string, sub: string, role: string)
    requires token != "" && parse(token).Ok? && CheckClaims(parse(token).value, now, cfg).Ok?
    requires var c := parse(token).value;
             "email" in c && c["email"] == Str(email) && "sub" in c && c["sub"] == Str(sub)
             && "custom:role" in c && c["custom:role"] == Str(role)
    ensures Authenticate(BearerPrefix + token, parse, now, cfg) == Proceed(email, sub, role)
  {
    var header := BearerPrefix + token;
    assert header[..|BearerPrefix|] == BearerPrefix;
    assert header[|BearerPrefix|..] == token;
  }

  // ------------------------------------------------------------- key cache

  /** A key of the pool's JWKS document, and the RSA key decoded from it. */
  datatype Jwk = Jwk(kid: string, n: string, e: string)
  datatype PublicKey = PublicKey(modulus: string, exponent: string)

  /** The position of the first key with the given kid, or |keys|. */
  function IndexOfKid(keys: seq<Jwk>, kid: string): (r: nat)
    ensures r <= |keys|
    ensures r < |keys| ==> keys[r].kid == kid
    ensures forall j :: 0 <= j < r ==> keys[j].kid != kid
  {
    if keys == [] then 0 else if keys[0].kid == kid then 0 else 1 + IndexOfKid(keys[1..], kid)
  }

  /** The middleware's cache of decoded keys, by kid. */
  class KeyCache {
    var cache: map<string, PublicKey>

    constructor ()
      ensures cache == map[]
    {
      cache := map[];
    }

    /** getPublicKey.  `fetched` is the outcome the JWKS download would have
        and `decode` the RSA key reconstruction; a cached kid needs neither. */
    method GetPublicKey(kid: string, fetched: Result<seq<Jwk>, Error>, decode: Jwk -> Result<PublicKey, Error>)
      returns (r: Result<PublicKey, Error>)
      modifies this
      ensures kid in old(cache) ==> r == Ok(old(cache)[kid]) && cache == old(cache)
      ensures kid !in old(cache) && fetched.Failure? ==> r == Failure(fetched.error) && cache == old(cache)
      ensures kid !in old(cache) && fetched.Ok? ==>
                var i := IndexOfKid(fetched.value, kid);
                if i == |fetched.value| then r == Failure(Plain("key not found")) && cache == old(cache)
                else if decode(fetched.value[i]).Failure? then r == decode(fetched.value[i]) && cache == old(cache)
                else r == decode(fetched.value[i]) && cache == old(cache)[kid := r.value]
      ensures r.Ok? ==> kid in cache && cache[kid] == r.value
      ensures forall k :: k in old(cache) ==> k in cache && cache[k] == old(cache)[k]
    {
      if kid in cache {
        return Ok(cache[kid]);
      }
      if fetched.Failure? {
        return Failure(fetched.error);
      }
      var keys := fetched.value;
      var i := 0;
      while i < |keys|
        invariant 0 <= i <= |keys|
        invariant forall j :: 0 <= j < i ==> keys[j].kid != kid
        invariant cache == old(cache)
      {
        if keys[i].kid == kid {
          var key := decode(keys[i]);
          if key.Failure? {
            return key;
          }
          cache := cache[kid := key.value];
          return key;
        }
        i := i + 1;
      }
      return Failure(Plain("key not found"));
    }
  }

  /** Each failed check of the middleware answers 401, and none of them
      reveals which claim was wrong: every validation failure reads the same. */
  lemma InvalidTokenSameMessage(token: string, parse: string -> Result<Claims, Error>, now: int, cfg: JwtConfig)
    requires token != "" && parse(token).Ok? && CheckClaims(parse(token).value, now, cfg).Failure?
    ensures Authenticate(BearerPrefix + token, parse, now, cfg) == Abort(Response(401, "Invalid token"))
  {
    var header := BearerPrefix + token;
    assert header[..|BearerPrefix|] == BearerPrefix;
    assert header[|BearerPrefix|..] == token;
  }
}
