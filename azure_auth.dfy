/** Azure_auth.py: the Azure AD handler. It acquires client-credentials
    tokens, selects the JWKS signing key for a bearer token and maps
    verification outcomes to HTTP errors. It also turns token claims into
    the current user and checks a required scope. MSAL, the JWKS fetch and
    `jose.jwt` are foreign code: their outcomes are parameters. */
module AzureAuth {
  import opened Wrappers
  import opened PyStrings
  import opened JsonValues

  /** An `HTTPException`: status, detail and whether it carries the
      `WWW-Authenticate: Bearer` header. */
  datatype HttpError = HttpError(status: int, detail: string, bearerChallenge: bool)

  const BadRequest: int := 400
  const Unauthorized: int := 401
  const Forbidden: int := 403
  const ServerError: int := 500

  /** What can leave a `try` block: an `HTTPException`, a `JWTError`, or any
      other exception (`KeyError`, `TypeError`, network errors, ...). */
  datatype Raised = Http(error: HttpError) | JwtError | OtherError

  /** The handler's settings, fixed when it is created (Azure_auth.py:26-31). */
  datatype AzureConfig = AzureConfig(tenantId: string, clientId: string, clientSecret: string)

  function Authority(config: AzureConfig): string {
    "https://login.microsoftonline.com/" + config.tenantId
  }

  /** The audience and issuer `jwt.decode` checks against. */
  function Audience(config: AzureConfig): string {
    "api://" + config.clientId
  }

  function Issuer(config: AzureConfig): string {
    Authority(config) + "/v2.0"
  }

  // ---------------------------------------------------------------------
  // get_token_for_client (Azure_auth.py:40-81)
  // ---------------------------------------------------------------------

  const ServiceError: HttpError := HttpError(ServerError, "Authentication service error", false)

  /** The body of the `try`: `acquired` is MSAL's result dict, `None` when
      MSAL raised. */
  function AcquireBody(acquired: Option<Record>): Result<Record, Raised> {
    match acquired
    case None => Failure(OtherError)
    case Some(result) =>
      if Lookup(result, "access_token").Some? then
        match Lookup(result, "expires_in")
        case None => Failure(OtherError)
        case Some(expires) =>
          Success([("access_token", Lookup(result, "access_token").value), ("token_type", JStr("Bearer")), ("expires_in", expires)])
      else
        var error := Str(Get(result, "error_description", JStr("Unknown error")));
        Failure(Http(HttpError(Unauthorized, "Failed to acquire token: " + error, false)))
  }

  /** `get_token_for_client`: the `except Exception` around the body turns
      every failure, including the body's own 401, into a 500. */
  function TokenForClient(acquired: Option<Record>): Result<Record, HttpError> {
    match AcquireBody(acquired)
    case Success(token) => Success(token)
    case Failure(_) => Failure(ServiceError)
  }

  /** A token is issued exactly when MSAL returned both `access_token` and
      `expires_in`; it copies them and says `Bearer`. Every failure, a
      missing `access_token` included, reaches the caller as 500
      "Authentication service error", never as the 401 raised inside. */
  lemma TokenForClientOutcome(acquired: Option<Record>)
    ensures TokenForClient(acquired).Success? <==>
              acquired.Some? && Lookup(acquired.value, "access_token").Some? && Lookup(acquired.value, "expires_in").Some?
    ensures TokenForClient(acquired).Success? ==>
              var token := TokenForClient(acquired).value;
              && Lookup(token, "access_token") == Lookup(acquired.value, "access_token")
              && Lookup(token, "expires_in") == Lookup(acquired.value, "expires_in")
              && Lookup(token, "token_type") == Some(JStr("Bearer"))
              && |token| == 3
    ensures TokenForClient(acquired).Failure? ==> TokenForClient(acquired).error == ServiceError
    ensures acquired.Some? && Lookup(acquired.value, "access_token").None? ==>
              AcquireBody(acquired).Failure? && AcquireBody(acquired).error.Http? && AcquireBody(acquired).error.error.status == Unauthorized
              && TokenForClient(acquired) == Failure(ServiceError)
  {
    if TokenForClient(acquired).Success? {
      var token := TokenForClient(acquired).value;
      assert token[..2][..1] == token[..1];
      assert Lookup(token, "access_token") == Lookup(token[..2], "access_token") == Lookup(token[..1], "access_token");
      assert Lookup(token, "token_type") == Lookup(token[..2], "token_type");
    }
  }

  // ---------------------------------------------------------------------
  // Signing-key selection (Azure_auth.py:99-112)
  // ---------------------------------------------------------------------

  /** The fields copied from the chosen JWKS key, in order. */
  const RsaFields: seq<string> := ["kty", "kid", "use", "n", "e"]

  /** The `rsa_key` dict built from a matching key; `None` when one of the
      fields is missing (`KeyError`). */
  function RsaKey(key: Record): (r: Option<Record>)
    ensures r.Some? <==> forall f :: f in RsaFields ==> Lookup(key, f).Some?
    ensures r.Some? ==>
              |r.value| == |RsaFields| &&
              forall k :: 0 <= k < |RsaFields| ==> r.value[k].0 == RsaFields[k] && Some(r.value[k].1) == Lookup(key, RsaFields[k])
  {
    match (Lookup(key, "kty"), Lookup(key, "kid"), Lookup(key, "use"), Lookup(key, "n"), Lookup(key, "e"))
    case (Some(kty), Some(kid), Some(use), Some(n), Some(e)) =>
      Some([("kty", kty), ("kid", kid), ("use", use), ("n", n), ("e", e)])
    case _ =>
      assert "kty" in RsaFields && "kid" in RsaFields && "use" in RsaFields && "n" in RsaFields && "e" in RsaFields;
      None
  }

  /** How the key loop ends: a key was chosen, no key matched, or an
      exception was raised (a key that is not a dict or has no `kid`, a token
      header without `kid`, or a matching key missing a copied field). */
  datatype KeyScan = Found(rsaKey: Record) | NotFound | ScanRaised

  /** The key `kid` of a key, if the key is a dict that has one. */
  function KeyKid(key: Json): Option<Json> {
    if key.JObj? then Lookup(key.members, "kid") else None
  }

  /** The loop's outcome over `keys` for the header's `kid`. The key's
      `kid` is read before the header's, and the first match ends the loop. */
  function FindKey(keys: seq<Json>, kid: Option<Json>): KeyScan
    decreases |keys|
  {
    if keys == [] then NotFound
    else if KeyKid(keys[0]).None? || kid.None? then ScanRaised
    else if KeyKid(keys[0]).value == kid.value then
      match RsaKey(keys[0].members)
      case Some(rsa) => Found(rsa)
      case None => ScanRaised
    else FindKey(keys[1..], kid)
  }

  /** The `for key in jwks["keys"]` loop with its `break`. */
  method SelectKey(keys: seq<Json>, kid: Option<Json>) returns (scan: KeyScan)
    ensures scan == FindKey(keys, kid)
  {
    var i := 0;
    while i < |keys|
      invariant 0 <= i <= |keys|
      invariant FindKey(keys[i..], kid) == FindKey(keys, kid)
    {
      assert keys[i..][0] == keys[i] && keys[i..][1..] == keys[i + 1..];
      var key := keys[i];
      var keyKid := KeyKid(key);
      if keyKid.None? || kid.None? {
        return ScanRaised;
      }
      if keyKid.value == kid.value {
        var rsa := RsaKey(key.members);
        if rsa.None? {
          return ScanRaised;
        }
        return Found(rsa.value);
      }
      i := i + 1;
    }
    scan := NotFound;
  }

  /** The chosen key is the first whose `kid` equals the header's: every
      earlier key is a dict whose `kid` differs, and only the five fields
      of the chosen key are copied. */
  lemma {:induction false} FindKeyFirstMatch(keys: seq<Json>, kid: Option<Json>) returns (i: nat)
    requires FindKey(keys, kid).Found?
    decreases |keys|
    ensures i < |keys| && kid.Some? && KeyKid(keys[i]) == kid
    ensures forall j :: 0 <= j < i ==> KeyKid(keys[j]).Some? && KeyKid(keys[j]) != kid
    ensures RsaKey(keys[i].members) == Some(FindKey(keys, kid).rsaKey)
  {
    if KeyKid(keys[0]) == kid {
      i := 0;
    } else {
      var j := FindKeyFirstMatch(keys[1..], kid);
      i := j + 1;
      assert forall k :: 1 <= k <= j ==> keys[k] == keys[1..][k - 1];
    }
  }

  /** No key is chosen and nothing is raised exactly when every key is a
      dict with a `kid`, none equal to the header's, and the header's `kid`
      was read if there was any key to compare with. */
  lemma {:induction false} FindKeyNotFound(keys: seq<Json>, kid: Option<Json>)
    decreases |keys|
    ensures FindKey(keys, kid) == NotFound <==>
              (keys == [] || kid.Some?) && forall j :: 0 <= j < |keys| ==> KeyKid(keys[j]).Some? && KeyKid(keys[j]) != kid
  {
    if keys != [] {
      FindKeyNotFound(keys[1..], kid);
      assert forall j :: 1 <= j < |keys| ==> keys[j] == keys[1..][j - 1];
    }
  }

  // ---------------------------------------------------------------------
  // verify_token (Azure_auth.py:83-144)
  // ---------------------------------------------------------------------

  /** What `jwt.decode` does with the chosen key: returns the payload,
      raises a `JWTError`, or raises something else. */
  datatype DecodeOutcome = Decoded(payload: Record) | JwtRejected | DecodeRaised

  /** The `jwt.decode` call for a key, an audience and an issuer. */
  type Decoder = (Record, string, string) -> DecodeOutcome

  const NoSigningKey: HttpError := HttpError(Unauthorized, "Unable to find signing key", false)
  const InvalidCredentials: HttpError := HttpError(Unauthorized, "Could not validate credentials", true)
  const AuthenticationFailed: HttpError := HttpError(Unauthorized, "Authentication failed", false)

  /** The keys `for key in jwks["keys"]` visits; `None` when `jwks` is not a
      dict with a `keys` entry or the entry is not iterable. */
  function JwksKeys(jwks: Json): Option<seq<Json>> {
    if jwks.JObj? && Lookup(jwks.members, "keys").Some? then Items(Lookup(jwks.members, "keys").value) else None
  }

  /** The body of the `try`: `jwks` is the fetched key set (`None` when the
      request or its JSON decoding raised), `header` the token's unverified
      header (`None` when `jwt.get_unverified_header` raised `JWTError`). */
  function VerifyBody(config: AzureConfig, jwks: Option<Json>, header: Option<Record>, decode: Decoder): Result<Record, Raised> {
    if jwks.None? then Failure(OtherError)
    else if header.None? then Failure(JwtError)
    else
      match JwksKeys(jwks.value)
      case None => Failure(OtherError)
      case Some(keys) =>
        match FindKey(keys, Lookup(header.value, "kid"))
        case ScanRaised => Failure(OtherError)
        case NotFound => Failure(Http(NoSigningKey))
        case Found(rsa) =>
          match decode(rsa, Audience(config), Issuer(config))
          case Decoded(payload) => Success(payload)
          case JwtRejected => Failure(JwtError)
          case DecodeRaised => Failure(OtherError)
  }

  /** `verify_token`: `except JWTError` first, then `except Exception`, which
      also catches the body's own `HTTPException`. */
  function VerifyToken(config: AzureConfig, jwks: Option<Json>, header: Option<Record>, decode: Decoder): Result<Record, HttpError> {
    match VerifyBody(config, jwks, header, decode)
    case Success(payload) => Success(payload)
    case Failure(JwtError) => Failure(InvalidCredentials)
    case Failure(_) => Failure(AuthenticationFailed)
  }

  /** Every rejection is a 401; only a `JWTError` gets the bearer challenge,
      and the "Unable to find signing key" detail never reaches the caller. */
  lemma VerifyTokenRejections(config: AzureConfig, jwks: Option<Json>, header: Option<Record>, decode: Decoder)
    ensures var r := VerifyToken(config, jwks, header, decode);
            && (r.Failure? ==> r.error.status == Unauthorized && r.error.detail != NoSigningKey.detail)
            && (r.Failure? ==> (r.error.bearerChallenge <==> VerifyBody(config, jwks, header, decode) == Failure(JwtError)))
            && (r.Failure? ==> r.error == InvalidCredentials || r.error == AuthenticationFailed)
  {
  }

  /** A token is accepted exactly when a key is chosen and `jwt.decode`,
      given that key with the configured audience and issuer, returns a
      payload; the payload is returned unchanged. */
  lemma VerifyTokenAccepts(config: AzureConfig, jwks: Option<Json>, header: Option<Record>, decode: Decoder)
    ensures VerifyToken(config, jwks, header, decode).Success? <==>
              && jwks.Some? && header.Some? && JwksKeys(jwks.value).Some?
              && FindKey(JwksKeys(jwks.value).value, Lookup(header.value, "kid")).Found?
              && decode(FindKey(JwksKeys(jwks.value).value, Lookup(header.value, "kid")).rsaKey, Audience(config), Issuer(config)).Decoded?
    ensures VerifyToken(config, jwks, header, decode).Success? ==>
              VerifyToken(config, jwks, header, decode).value ==
                decode(FindKey(JwksKeys(jwks.value).value, Lookup(header.value, "kid")).rsaKey, Audience(config), Issuer(config)).payload
  {
  }

  /** When no key matches, the body raises 401 "Unable to find signing key",
      and the caller sees 401 "Authentication failed" instead. */
  lemma NoMatchingKey(config: AzureConfig, jwks: Json, header: Record, decode: Decoder)
    requires JwksKeys(jwks).Some? && FindKey(JwksKeys(jwks).value, Lookup(header, "kid")) == NotFound
    ensures VerifyBody(config, Some(jwks), Some(header), decode) == Failure(Http(NoSigningKey))
    ensures VerifyToken(config, Some(jwks), Some(header), decode) == Failure(AuthenticationFailed)
  {
  }

  /** A `JWTError` from `jwt.decode` gives 401 with `WWW-Authenticate: Bearer`. */
  lemma DecodeRejected(config: AzureConfig, jwks: Json, header: Record, decode: Decoder)
    requires JwksKeys(jwks).Some? && FindKey(JwksKeys(jwks).value, Lookup(header, "kid")).Found?
    requires decode(FindKey(JwksKeys(jwks).value, Lookup(header, "kid")).rsaKey, Audience(config), Issuer(config)) == JwtRejected
    ensures VerifyToken(config, Some(jwks), Some(header), decode) == Failure(InvalidCredentials)
    ensures VerifyToken(config, Some(jwks), Some(header), decode).error.bearerChallenge
  {
  }

  // ---------------------------------------------------------------------
  // get_current_user_azure and require_scope_azure (Azure_auth.py:151-192)
  // ---------------------------------------------------------------------

  /** The user dict built from a verified payload. */
  datatype User = User(sub: Json, clientId: Json, roles: Json, scopes: seq<string>)

  /** `payload.get(key)`, which is `None` for a missing key. */
  function Claim(payload: Record, key: string): Json {
    Get(payload, key, JNull)
  }

  /** `get_current_user_azure` after verification; `None` where
      `payload.get("scp", "").split()` raises because `scp` is truthy but not
      a string. */
  function CurrentUser(payload: Record): (u: Option<User>)
    ensures u.Some? <==> !Truthy(Claim(payload, "scp")) || Claim(payload, "scp").JStr?
  {
    var scp := Claim(payload, "scp");
    if Truthy(scp) && !scp.JStr? then None
    else
      var azp := Claim(payload, "azp");
      Some(User(
        Claim(payload, "sub"),
        if Truthy(azp) then azp else Claim(payload, "appid"),
        Get(payload, "roles", JArr([])),
        if Truthy(scp) then Words(scp.s) else []))
  }

  /** The client is `azp` when truthy and `appid` otherwise; the roles
      default to `[]`; the scopes are the whitespace-separated words of
      `scp`, none empty or holding whitespace, and none at all when `scp` is
      missing or empty. */
  lemma CurrentUserClaims(payload: Record)
    requires CurrentUser(payload).Some?
    ensures var u := CurrentUser(payload).value;
            && (Truthy(Claim(payload, "azp")) ==> u.clientId == Claim(payload, "azp"))
            && (!Truthy(Claim(payload, "azp")) ==> u.clientId == Claim(payload, "appid"))
            && (Lookup(payload, "roles").None? ==> u.roles == JArr([]))
            && (!Truthy(Claim(payload, "scp")) ==> u.scopes == [])
            && (Truthy(Claim(payload, "scp")) ==> Concat(u.scopes) == NonSpace(Claim(payload, "scp").s))
            && (forall k :: 0 <= k < |u.scopes| ==> u.scopes[k] != [])
            && (forall k, j :: 0 <= k < |u.scopes| && 0 <= j < |u.scopes[k]| ==> !IsSpace(u.scopes[k][j]))
  {
    var scp := Claim(payload, "scp");
    if Truthy(scp) {
      WordsSpec(scp.s);
    }
  }

  /** The 403 raised for a missing scope. */
  function InsufficientScope(required: string): HttpError {
    HttpError(Forbidden, "Insufficient permissions. Required scope: " + required, false)
  }

  /** `scope_checker`: `None` (the dependency passes) or the error raised. */
  function RequireScope(required: string, user: User): (r: Option<HttpError>)
    ensures r.None? <==> required in user.scopes
    ensures r.Some? ==> r.value == InsufficientScope(required) && r.value.status == Forbidden
  {
    if required in user.scopes then None else Some(InsufficientScope(required))
  }

  /** From the token's point of view: the check passes exactly when the
      required scope is one of the words of the `scp` claim. A scope that is
      empty or holds whitespace never passes. */
  lemma RequireScopeOfToken(required: string, payload: Record)
    requires CurrentUser(payload).Some?
    ensures RequireScope(required, CurrentUser(payload).value).None? <==>
              Truthy(Claim(payload, "scp")) && required in Words(Claim(payload, "scp").s)
    ensures (required == [] || exists j :: 0 <= j < |required| && IsSpace(required[j])) ==>
              RequireScope(required, CurrentUser(payload).value).Some?
  {
    var scp := Claim(payload, "scp");
    if (required == [] || exists j :: 0 <= j < |required| && IsSpace(required[j])) && Truthy(scp) {
      NoWordHasSpace(scp.s, required);
    }
  }
}
