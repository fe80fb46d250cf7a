/** Bearer extraction, token issuance and verification, and the authentication guard
    (internal/utils/jwt/jwt.go). Signing and the compact serialization are foreign
    library code: they enter as a `Jose` value whose two functions are left open. */
module Jwt {
  import opened Wrappers
  import opened Models
  import opened Http

  /** A claim set (jwt.MapClaims), every claim held as text. */
  type Claims = map<string, string>

  /** The shared signing secret JWT_SECRET, one character per byte. */
  type Secret = string

  /** The identity read back from a request context. */
  datatype AuthContext = AuthContext(sub: string, issuer: string, name: string)

  /** The request context; `authClaims` is the value stored under AUTH_CTX_KEY, if any. */
  datatype Context = Context(authClaims: Option<Claims>)

  /** context.Background(): nothing stored. */
  const Background: Context := Context(None)

  /** The parts of an *http.Request the core reads: the Authorization header ("" when
      absent) and the context. */
  datatype Request = Request(authorization: string, ctx: Context)

  datatype JwtError =
    | Unauthorized      // ErrUnauthorized
    | NoTokenFound      // ErrNoTokenFound
    | AlgoInvalid       // ErrAlgoInvalid, returned by the key function
    | TokenMalformed    // jwt.Parse could not decode the token
    | SignatureInvalid  // jwt.Parse found a signature not made with the secret
    | SigningFailed     // "Something went wrong. Please try again. #2"

  /** The signing methods golang-jwt knows; `NoSigning` is the "none" algorithm. */
  datatype SigningMethod =
    | HS256 | HS384 | HS512
    | RS256 | RS384 | RS512
    | PS256 | PS384 | PS512
    | ES256 | ES384 | ES512
    | EdDSA | NoSigning

  /** `token.Method.(*jwt.SigningMethodHMAC)` succeeds. */
  predicate IsHmac(m: SigningMethod) {
    m == HS256 || m == HS384 || m == HS512
  }

  /** A decoded token: the method named by its header, its claims, and the key its
      signature was made with. */
  datatype Token = Token(alg: SigningMethod, claims: Claims, signedWith: Secret)

  /** The JWS library: `sign` is SignedString (it may fail), `parse` decodes a compact
      token and reports the key its signature was made with. */
  datatype Jose = Jose(sign: Token -> Option<string>, parse: string -> Option<Token>)

  /** What the model assumes of the library: a signed token is a non-empty string that
      parses back to exactly the token that was signed. */
  ghost predicate Sound(jose: Jose) {
    forall t :: jose.sign(t).Some? ==> jose.sign(t).value != "" && jose.parse(jose.sign(t).value) == Some(t)
  }

  // ---------------------------------------------------------------------------
  // Decimal text of Unix times (the `exp` claim)

  function DigitChar(d: int): char
    requires 0 <= d < 10
  {
    ('0' as int + d) as char
  }

  function NatDecimal(n: nat): (s: string)
    ensures |s| > 0
    ensures forall i | 0 <= i < |s| :: '0' <= s[i] <= '9'
    decreases n
  {
    if n < 10 then [DigitChar(n)] else NatDecimal(n / 10) + [DigitChar(n % 10)]
  }

  /** How an integer is written out as text, with a leading '-' when negative. */
  function IntDecimal(n: int): string {
    if n < 0 then "-" + NatDecimal(-n) else NatDecimal(n)
  }

  function NatValue(s: string): int
    decreases |s|
  {
    if s == [] then 0 else NatValue(s[..|s| - 1]) * 10 + (s[|s| - 1] as int - '0' as int)
  }

  /** The integer a decimal text denotes. */
  function IntValue(s: string): int {
    if |s| > 0 && s[0] == '-' then -NatValue(s[1..]) else NatValue(s)
  }

  lemma {:induction false} NatDecimalRoundTrip(n: nat)
    ensures NatValue(NatDecimal(n)) == n
    decreases n
  {
    if n >= 10 {
      NatDecimalRoundTrip(n / 10);
      var s := NatDecimal(n);
      assert s[..|s| - 1] == NatDecimal(n / 10);
    }
  }

  lemma IntDecimalRoundTrip(n: int)
    ensures IntValue(IntDecimal(n)) == n
  {
    if n < 0 {
      NatDecimalRoundTrip(-n);
      assert IntDecimal(n)[1..] == NatDecimal(-n);
    } else {
      NatDecimalRoundTrip(n);
    }
  }

  // ---------------------------------------------------------------------------
  // Bearer extraction (section 2.1 of RFC 6750)

  /** strings.ToUpper on one byte: only 'a'..'z' change. */
  function UpperAscii(c: char): char {
    if 'a' <= c <= 'z' then (c as int - 32) as char else c
  }

  function ToUpper(s: string): (u: string)
    ensures |u| == |s| && forall i | 0 <= i < |s| :: u[i] == UpperAscii(s[i])
  {
    seq(|s|, i requires 0 <= i < |s| => UpperAscii(s[i]))
  }

  /** The six letters of "bearer", each in either case. */
  predicate IsBearerScheme(s: string) {
    |s| == 6 && forall i | 0 <= i < 6 :: s[i] == "bearer"[i] || s[i] == "BEARER"[i]
  }

  lemma UpperIsBearer(s: string)
    requires |s| == 6
    ensures ToUpper(s) == "BEARER" <==> IsBearerScheme(s)
  {
    if IsBearerScheme(s) {
      assert forall i | 0 <= i < 6 :: ToUpper(s)[i] == "BEARER"[i];
    }
  }

  /** GetTokenFromHeader: everything after the seventh byte, when the header is longer
      than seven bytes and opens with the scheme name in any case; "" otherwise. */
  function GetTokenFromHeader(r: Request): (token: string)
    ensures token != "" <==> |r.authorization| > 7 && IsBearerScheme(r.authorization[..6])
    ensures token != "" ==> r.authorization == r.authorization[..7] + token
  {
    var bearer := r.authorization;
    if |bearer| > 7 then
      UpperIsBearer(bearer[0..6]);
      if ToUpper(bearer[0..6]) == "BEARER" then bearer[7..] else ""
    else ""
  }

  /** The byte between the scheme and the token is never looked at: any byte there,
      after the scheme name in any case, still yields the token. */
  lemma SchemeSeparatorUnchecked(scheme: string, sep: char, token: string, ctx: Context)
    requires IsBearerScheme(scheme) && token != ""
    ensures GetTokenFromHeader(Request(scheme + [sep] + token, ctx)) == token
  {
    var h := scheme + [sep] + token;
    assert h[..6] == scheme;
    assert h[7..] == token;
  }

  /** The tokens the guard asks for, in order: the first non-empty answer wins. */
  method FindToken(r: Request, findtokens: seq<Request -> string>) returns (token: string)
    ensures token == "" <==> forall i | 0 <= i < |findtokens| :: findtokens[i](r) == ""
    ensures token != "" ==> exists i | 0 <= i < |findtokens| ::
      token == findtokens[i](r) && forall j | 0 <= j < i :: findtokens[j](r) == ""
  {
    token := "";
    for n := 0 to |findtokens|
      invariant token == ""
      invariant forall j | 0 <= j < n :: findtokens[j](r) == ""
    {
      token := findtokens[n](r);
      if token != "" {
        return;
      }
    }
  }

  // ---------------------------------------------------------------------------
  // Issuance and verification

  /** The validity window of an issued token: 30 days (section 4.1.4 of RFC 7519). */
  const TokenLifetime: int := 60 * 60 * 24 * 30

  /** The fixed value of the non-standard `issuer` claim. */
  const IssuerName: string := "campaign"

  /** The claim set GenereteJWT signs: data.Issuer is not used. */
  function IdentityClaims(data: AuthContext, now: Time): (c: Claims)
    ensures c.Keys == {"sub", "name", "issuer", "exp"}
    ensures c["sub"] == data.sub && c["name"] == data.name && c["issuer"] == IssuerName
  {
    map["sub" := data.sub, "name" := data.name, "issuer" := IssuerName, "exp" := IntDecimal(Unix(now + TokenLifetime))]
  }

  /** GenereteJWT: an HS256 token over the identity claims, signed with the secret. */
  function GenereteJWT(jose: Jose, secret: Secret, now: Time, data: AuthContext): (r: Result<string, JwtError>)
    ensures r.Err? <==> jose.sign(Token(HS256, IdentityClaims(data, now), secret)).None?
    ensures r.Err? ==> r.error == SigningFailed
    ensures r.Ok? ==> jose.sign(Token(HS256, IdentityClaims(data, now), secret)) == Some(r.value)
  {
    match jose.sign(Token(HS256, IdentityClaims(data, now), secret))
    case None => Err(SigningFailed)
    case Some(s) => Ok(s)
  }

  /** ParseToken: the key function hands out the secret only to the HMAC family, before
      any signature is checked; the claims come back only from a verified token. */
  function ParseToken(jose: Jose, secret: Secret, tokenString: string): (r: Result<Claims, JwtError>)
    ensures r.Ok? <==> jose.parse(tokenString).Some? && IsHmac(jose.parse(tokenString).value.alg)
                        && jose.parse(tokenString).value.signedWith == secret
    ensures r.Ok? ==> r.value == jose.parse(tokenString).value.claims
    ensures jose.parse(tokenString).Some? && !IsHmac(jose.parse(tokenString).value.alg) ==> r == Err(AlgoInvalid)
  {
    match jose.parse(tokenString)
    case None => Err(TokenMalformed)
    case Some(t) =>
      if !IsHmac(t.alg) then Err(AlgoInvalid)
      else if t.signedWith != secret then Err(SignatureInvalid)
      else Ok(t.claims)
  }

  /** newContext: refuses a `sub` claim that is present and empty; otherwise stores the
      claims unchanged. A missing `sub` is not refused here (Go compares nil with ""). */
  function NewContext(ctx: Context, claims: Claims): (r: Result<Context, JwtError>)
    ensures r.Err? <==> "sub" in claims && claims["sub"] == ""
    ensures r.Err? ==> r.error == Unauthorized
    ensures r.Ok? ==> r.value.authClaims == Some(claims)
  {
    if "sub" in claims && claims["sub"] == "" then Err(Unauthorized)
    else Ok(ctx.(authClaims := Some(claims)))
  }

  /** The value of a claim, "" when it is absent. */
  function ClaimOrEmpty(claims: Claims, key: string): string {
    if key in claims then claims[key] else ""
  }

  /** GetAuthContext: the identity in a context, never one with an empty subject. */
  function GetAuthContext(ctx: Context): (r: Result<AuthContext, JwtError>)
    ensures r.Ok? <==> ctx.authClaims.Some? && "sub" in ctx.authClaims.value && ctx.authClaims.value["sub"] != ""
    ensures r.Err? ==> r.error == NoTokenFound
    ensures r.Ok? ==> r.value.sub != ""
    ensures r.Ok? ==> var claims := ctx.authClaims.value;
      r.value == AuthContext(claims["sub"], ClaimOrEmpty(claims, "issuer"), ClaimOrEmpty(claims, "name"))
  {
    match ctx.authClaims
    case None => Err(NoTokenFound)
    case Some(claims) =>
      var sub := if "sub" in claims then claims["sub"] else "";
      var issuer := if "issuer" in claims then claims["issuer"] else "";
      var name := if "name" in claims then claims["name"] else "";
      if sub == "" then Err(NoTokenFound) else Ok(AuthContext(sub, issuer, name))
  }

  // ---------------------------------------------------------------------------
  // The guard

  /** The three steps of the Authenticator: extract, ParseToken, newContext. */
  function Authenticate(jose: Jose, secret: Secret, r: Request): (o: Result<Context, JwtError>)
    ensures o.Ok? <==>
      var token := GetTokenFromHeader(r);
      && token != ""
      && jose.parse(token).Some?
      && IsHmac(jose.parse(token).value.alg)
      && jose.parse(token).value.signedWith == secret
      && !("sub" in jose.parse(token).value.claims && jose.parse(token).value.claims["sub"] == "")
    ensures o.Ok? ==> o.value == r.ctx.(authClaims := Some(jose.parse(GetTokenFromHeader(r)).value.claims))
  {
    var token := GetTokenFromHeader(r);
    if token == "" then Err(Unauthorized)
    else
      match ParseToken(jose, secret, token)
      case Err(e) => Err(e)
      case Ok(claims) => NewContext(r.ctx, claims)
  }

  /** The one body every rejection writes. */
  function UnauthorizedReply<D>(): Reply<D> {
    Reply(StatusUnauthorized, ApiResponse("Unauthorized", None))
  }

  /** Authenticator: answers 401 "Unauthorized" on any failure, or hands the request,
      with the claims in its context, to the next handler (returned here) and writes
      nothing itself. */
  method Authenticator<D(==)>(w: ResponseWriter<D>, r: Request, jose: Jose, secret: Secret) returns (next: Option<Request>)
    requires w.Unwritten()
    modifies w
    ensures next.Some? <==> Authenticate(jose, secret, r).Ok?
    ensures next.Some? ==> next.value == r.(ctx := Authenticate(jose, secret, r).value) && w.Unwritten()
    ensures next.None? ==> w.Sent(UnauthorizedReply())
  {
    var findtokens: seq<Request -> string> := [GetTokenFromHeader];
    var token := FindToken(r, findtokens);
    assert findtokens[0](r) == GetTokenFromHeader(r);
    if token == "" {
      Respond(w, UnauthorizedReply());
      return None;
    }
    var c := ParseToken(jose, secret, token);
    if c.Err? {
      Respond(w, UnauthorizedReply());
      return None;
    }
    var ctx := NewContext(r.ctx, c.value);
    if ctx.Err? {
      Respond(w, UnauthorizedReply());
      return None;
    }
    return Some(r.(ctx := ctx.value));
  }

  // ---------------------------------------------------------------------------
  // Properties

  /** Without a bearer credential the guard refuses before the token library is asked
      anything: the outcome is the same whatever the library and the secret. */
  lemma NoBearerNoTokenService(j1: Jose, s1: Secret, j2: Jose, s2: Secret, r: Request)
    requires !(|r.authorization| > 7 && IsBearerScheme(r.authorization[..6]))
    ensures Authenticate(j1, s1, r) == Authenticate(j2, s2, r) == Err(Unauthorized)
  {
  }

  /** A token whose header names a non-HMAC method is refused even when its signature
      was made with the secret itself. */
  lemma AlgorithmSubstitutionRefused(jose: Jose, secret: Secret, r: Request, t: Token)
    requires GetTokenFromHeader(r) != "" && jose.parse(GetTokenFromHeader(r)) == Some(t)
    requires !IsHmac(t.alg) && t.signedWith == secret
    ensures Authenticate(jose, secret, r) == Err(AlgoInvalid)
  {
  }

  /** A verified token without a `sub` claim gets past the guard but yields no identity. */
  lemma MissingSubjectStoppedDownstream(jose: Jose, secret: Secret, r: Request)
    requires Authenticate(jose, secret, r).Ok?
    requires "sub" !in jose.parse(GetTokenFromHeader(r)).value.claims
    ensures GetAuthContext(Authenticate(jose, secret, r).value) == Err(NoTokenFound)
  {
  }

  /** Issue then verify: a token issued for an identity with a subject, presented as a
      bearer credential, passes the guard and reads back as that subject and name with
      issuer "campaign", and its `exp` claim denotes issuance plus 30 days. */
  lemma {:induction false} IssuedTokenAuthenticates(jose: Jose, secret: Secret, now: Time, data: AuthContext, token: string)
    requires Sound(jose)
    requires data.sub != ""
    requires GenereteJWT(jose, secret, now, data) == Ok(token)
    ensures var r := Request("Bearer " + token, Background);
      && Authenticate(jose, secret, r) == Ok(Context(Some(IdentityClaims(data, now))))
      && GetAuthContext(Authenticate(jose, secret, r).value) == Ok(AuthContext(data.sub, IssuerName, data.name))
      && IntValue(Authenticate(jose, secret, r).value.authClaims.value["exp"]) == Unix(now) + TokenLifetime
  {
    var t := Token(HS256, IdentityClaims(data, now), secret);
    assert jose.sign(t) == Some(token);
    assert jose.parse(token) == Some(t);
    var h := "Bearer " + token;
    assert h[..6] == "Bearer";
    assert h[7..] == token;
    assert GetTokenFromHeader(Request(h, Background)) == token;
    IntDecimalRoundTrip(Unix(now + TokenLifetime));
  }
}
