/** Update_auth.py: the two token endpoints. `/token` proxies the client
    credentials flow to the Azure AD handler; `/token/legacy` is the
    development-only username/password endpoint. MSAL's answer and the
    minted legacy token are parameters. */
module AuthEndpoints {
  import opened Wrappers
  import opened JsonValues
  import opened AzureAuth

  /** The body of `POST /token`. */
  datatype TokenRequest = TokenRequest(grantType: string, clientId: string, clientSecret: string, scope: string)

  /** The `TokenResponse` model. */
  datatype TokenResponse = TokenResponse(accessToken: string, tokenType: string, expiresIn: int)

  /** MSAL's `acquire_token_for_client` for a client id, secret and scope
      list: its result dict, or `None` when it raises. */
  type Acquirer = (string, string, seq<string>) -> Option<Record>

  const ClientCredentials: string := "client_credentials"
  const UnsupportedGrant: HttpError := HttpError(BadRequest, "Only client_credentials grant type is supported", false)
  const GenerationFailed: HttpError := HttpError(ServerError, "Failed to generate token", false)

  /** The scope list sent to Azure AD: the single `.default` scope of the
      application URI of the configured client id. */
  function TokenScopes(configuredClientId: string): (scopes: seq<string>)
    ensures |scopes| == 1 && |scopes[0]| == |configuredClientId| + 15
    ensures scopes[0][..6] == "api://" && scopes[0][|scopes[0]| - 9..] == "/.default"
    ensures scopes[0][6..|scopes[0]| - 9] == configuredClientId
  {
    ["api://" + configuredClientId + "/.default"]
  }

  /** `TokenResponse(**result)`: `None` where pydantic rejects the fields. */
  function ToResponse(result: Record): Option<TokenResponse> {
    match (Lookup(result, "access_token"), Lookup(result, "token_type"), Lookup(result, "expires_in"))
    case (Some(JStr(token)), Some(JStr(kind)), Some(JNum(expires))) => Some(TokenResponse(token, kind, expires))
    case _ => None
  }

  /** `get_token`: the grant-type guard, then the handler's token call; an
      `HTTPException` from it is re-raised as is, anything else becomes 500
      "Failed to generate token". The requested `scope` is never read. */
  function GetToken(req: TokenRequest, configuredClientId: string, acquire: Acquirer): Result<TokenResponse, HttpError> {
    if req.grantType != ClientCredentials then Failure(UnsupportedGrant)
    else
      match TokenForClient(acquire(req.clientId, req.clientSecret, TokenScopes(configuredClientId)))
      case Failure(e) => Failure(e)
      case Success(result) =>
        match ToResponse(result)
        case Some(response) => Success(response)
        case None => Failure(GenerationFailed)
  }

  /** Any other grant type is refused with 400 whatever MSAL would answer:
      no token is acquired. */
  lemma GrantTypeGuard(req: TokenRequest, configuredClientId: string, acquire: Acquirer, other: Acquirer)
    requires req.grantType != ClientCredentials
    ensures GetToken(req, configuredClientId, acquire) == Failure(UnsupportedGrant)
    ensures GetToken(req, configuredClientId, acquire) == GetToken(req, configuredClientId, other)
  {
  }

  /** The outcome depends only on MSAL's answer for the client's id and
      secret with the configured scope list; the requested scope plays no
      part. */
  lemma RequestedScopeIgnored(req: TokenRequest, scope: string, configuredClientId: string, acquire: Acquirer, other: Acquirer)
    requires req.grantType == ClientCredentials
    requires other(req.clientId, req.clientSecret, TokenScopes(configuredClientId)) == acquire(req.clientId, req.clientSecret, TokenScopes(configuredClientId))
    ensures GetToken(req.(scope := scope), configuredClientId, other) == GetToken(req, configuredClientId, acquire)
  {
  }

  /** The endpoint answers 400, 500 or a token, never 401: bad client
      credentials surface as 500 "Authentication service error". A token
      is `Bearer`, with the access token and lifetime MSAL returned. */
  lemma GetTokenOutcomes(req: TokenRequest, configuredClientId: string, acquire: Acquirer)
    ensures var r := GetToken(req, configuredClientId, acquire);
            && (r.Failure? ==> r.error in {UnsupportedGrant, ServiceError, GenerationFailed})
            && (r.Failure? ==> r.error.status != Unauthorized)
    ensures var r := GetToken(req, configuredClientId, acquire);
            var acquired := acquire(req.clientId, req.clientSecret, TokenScopes(configuredClientId));
            r.Success? ==>
              && req.grantType == ClientCredentials
              && r.value.tokenType == "Bearer"
              && acquired.Some?
              && Lookup(acquired.value, "access_token") == Some(JStr(r.value.accessToken))
              && Lookup(acquired.value, "expires_in") == Some(JNum(r.value.expiresIn))
    ensures var acquired := acquire(req.clientId, req.clientSecret, TokenScopes(configuredClientId));
            req.grantType == ClientCredentials && acquired.Some? && Lookup(acquired.value, "access_token").None? ==>
              GetToken(req, configuredClientId, acquire) == Failure(ServiceError)
  {
    var acquired := acquire(req.clientId, req.clientSecret, TokenScopes(configuredClientId));
    TokenForClientOutcome(acquired);
  }

  // ---------------------------------------------------------------------
  // get_token_legacy (Update_auth.py:95-127)
  // ---------------------------------------------------------------------

  const LegacyUser: string := "mendix_client"
  const LegacyPassword: string := "secret"
  const LegacyMinutes: nat := 30
  const LegacyExpiresIn: nat := 1800

  const LegacyInProduction: HttpError :=
    HttpError(Forbidden, "Legacy authentication not available in production. Use Azure AD authentication at /api/v1/auth/token", false)
  const BadCredentials: HttpError := HttpError(Unauthorized, "Incorrect username or password", false)

  /** `create_access_token` for a subject and a lifetime in minutes. */
  type Minter = (string, nat) -> string

  /** `get_token_legacy` in the given environment. */
  function GetTokenLegacy(environment: string, username: string, password: string, mint: Minter): Result<TokenResponse, HttpError> {
    if environment == "production" then Failure(LegacyInProduction)
    else if username != LegacyUser || password != LegacyPassword then Failure(BadCredentials)
    else Success(TokenResponse(mint(username, LegacyMinutes), "bearer", LegacyExpiresIn))
  }

  /** In production the endpoint refuses with 403 whatever the credentials;
      elsewhere it issues a token exactly for the one hard-coded user and
      password, and answers 401 otherwise. */
  lemma LegacyOutcomes(environment: string, username: string, password: string, mint: Minter)
    ensures environment == "production" ==> GetTokenLegacy(environment, username, password, mint) == Failure(LegacyInProduction)
    ensures GetTokenLegacy(environment, username, password, mint).Success? <==>
              environment != "production" && username == LegacyUser && password == LegacyPassword
    ensures environment != "production" && !(username == LegacyUser && password == LegacyPassword) ==>
              GetTokenLegacy(environment, username, password, mint) == Failure(BadCredentials)
  {
  }

  /** A legacy token is minted for the user as subject with a 30-minute
      lifetime, typed "bearer", and its `expires_in` is that lifetime in
      seconds. */
  lemma LegacyToken(environment: string, username: string, password: string, mint: Minter)
    requires GetTokenLegacy(environment, username, password, mint).Success?
    ensures var t := GetTokenLegacy(environment, username, password, mint).value;
            && t.accessToken == mint(LegacyUser, LegacyMinutes)
            && t.tokenType == "bearer"
            && t.expiresIn == LegacyMinutes * 60
  {
  }
}
