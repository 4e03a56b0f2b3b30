/**
 * The initializer's access control: where the login token comes from (the
 * encrypted session cache or a fresh Auth0 login), what happens when it has
 * expired (refresh, or a grace period of five days when Auth0 cannot be
 * reached), the permission every run needs, and how a token's signing key
 * is found.
 */
module AccessController {
  import opened Wrappers

  const NanosPerSecond: int := 1_000_000_000

  /** The grace period after expiration, in nanoseconds: five days. */
  const TokenExpirationGracePeriod: int := 5 * 24 * 3600 * NanosPerSecond

  /** The token header entry naming the signing key. */
  const KeyIdTokenHeaderKey := "kid"

  const PubKeyHeader := "-----BEGIN CERTIFICATE-----"
  const PubKeyFooter := "-----END CERTIFICATE-----"

  /** The claims of a validated token: its expiration in seconds since the epoch, and its permissions. */
  datatype TokenClaims = TokenClaims(expiresAt: int, permissions: seq<string>)

  /**
   * Parsing and validating a token string, which the JWT library does, is a
   * parameter: the token's claims, or the cause of its rejection.
   */
  type TokenParser = string -> Result<TokenClaims, string>

  datatype AuthError =
    | TokenInvalid(cause: string)              // "An error occurred parsing and validating the token claims"
    | ExpiredBeyondGrace(expiration: int)      // "Token expired at '%v' which is beyond the grace period ..."
    | NewTokenInvalid(cause: string)           // "We retrieved a new token, but an error occurred parsing/validating ..."
    | NoToken(cause: string)                   // "No token could be loaded from the cache and ..."
    | RefreshFailed(cause: string)             // "An error occurred retrieving a new token from Auth0"
    | MissingPermission(permissions: seq<string>) // "Kurtosis requires permission '%v' to run but token has perms '%v' ..."
    | ClientCredentialsRejected(cause: string) // "An error occurred authenticating with the client ID & secret"

  // ---------------------------------------------------------------------------
  // The session cache
  // ---------------------------------------------------------------------------

  datatype Session = Session(token: string)

  /** The encrypted session cache file, reduced to the session it holds. */
  class EncryptedSessionCache {
    var stored: Option<Session>

    constructor (stored: Option<Session>)
      ensures this.stored == stored
    {
      this.stored := stored;
    }

    /** Loads the cached session; reading or decrypting the file may fail (`readFailure`). */
    method LoadSession(readFailure: Option<string>) returns (r: Result<Session, string>)
      ensures r.Ok? <==> readFailure.None? && stored.Some?
      ensures r.Ok? ==> r.value == stored.value
    {
      if readFailure.Some? {
        return Err(readFailure.value);
      }
      if stored.None? {
        return Err("no session file");
      }
      return Ok(stored.value);
    }

    /** Saves a session, unless writing the file fails. */
    method SaveSession(session: Session, writeFailure: Option<string>) returns (err: Option<string>)
      modifies this
      ensures err == writeFailure
      ensures stored == if writeFailure.None? then Some(session) else old(stored)
    {
      if writeFailure.Some? {
        return writeFailure;
      }
      stored := Some(session);
      return None;
    }
  }

  /**
   * Logs in through Auth0 (the outcome, an access token or a failure, is a
   * parameter) and caches the new token. A failure to cache it only warns.
   */
  method RefreshSession(cache: EncryptedSessionCache, authorize: Result<string, string>, saveFailure: Option<string>)
    returns (r: Result<string, AuthError>)
    modifies cache
    ensures authorize.Err? ==> r == Err(RefreshFailed(authorize.error)) && cache.stored == old(cache.stored)
    ensures authorize.Ok? ==> r == Ok(authorize.value)
    ensures authorize.Ok? ==> cache.stored == if saveFailure.None? then Some(Session(authorize.value)) else old(cache.stored)
  {
    if authorize.Err? {
      return Err(RefreshFailed(authorize.error));
    }
    var newToken := authorize.value;
    var _ := cache.SaveSession(Session(newToken), saveFailure);
    return Ok(newToken);
  }

  /** The outcome of a refresh as the rest of the flow sees it. */
  function RefreshOutcome(authorize: Result<string, string>): Result<string, AuthError>
  {
    if authorize.Err? then Err(RefreshFailed(authorize.error)) else Ok(authorize.value)
  }

  /**
   * The token to use: the cached one if a session loads, otherwise one from
   * a fresh login.
   */
  method GetTokenStr(cache: EncryptedSessionCache, readFailure: Option<string>, authorize: Result<string, string>, saveFailure: Option<string>)
    returns (r: Result<string, AuthError>)
    modifies cache
    ensures readFailure.None? && old(cache.stored).Some? ==>
      r == Ok(old(cache.stored).value.token) && cache.stored == old(cache.stored)
    ensures !(readFailure.None? && old(cache.stored).Some?) && authorize.Err? ==>
      r == Err(NoToken(authorize.error)) && cache.stored == old(cache.stored)
    ensures !(readFailure.None? && old(cache.stored).Some?) && authorize.Ok? ==>
      r == Ok(authorize.value) &&
      cache.stored == if saveFailure.None? then Some(Session(authorize.value)) else old(cache.stored)
  {
    var session := cache.LoadSession(readFailure);
    if session.Err? {
      var newToken := RefreshSession(cache, authorize, saveFailure);
      if newToken.Err? {
        return Err(NoToken(authorize.error));
      }
      return Ok(newToken.value);
    }
    return Ok(session.value.token);
  }

  // ---------------------------------------------------------------------------
  // Expiration
  // ---------------------------------------------------------------------------

  /** A token's expiration instant, in nanoseconds. */
  function Expiration(claims: TokenClaims): int
  {
    claims.expiresAt * NanosPerSecond
  }

  /**
   * The expiration decision at instant `now` (nanoseconds): a token that has
   * not expired is kept; an expired one is replaced by the refreshed token
   * when the refresh works, kept within the grace period when it does not,
   * and refused beyond it.
   */
  function CheckTokenExpiration(tokenStr: string, now: int, refresh: Result<string, AuthError>, parse: TokenParser): (r: Result<TokenClaims, AuthError>)
    // only a token that parses is accepted at all
    ensures r.Ok? ==> parse(tokenStr).Ok?
    // the accepted claims are the token's own, no later than the end of its grace period, or the new token's
    ensures r.Ok? ==>
      (r.value == parse(tokenStr).value && now <= Expiration(parse(tokenStr).value) + TokenExpirationGracePeriod) ||
      (refresh.Ok? && parse(refresh.value) == Ok(r.value) && Expiration(parse(tokenStr).value) <= now)
    // a token that has not expired is kept, whatever a refresh would give
    ensures parse(tokenStr).Ok? && Expiration(parse(tokenStr).value) > now ==> r == Ok(parse(tokenStr).value)
  {
    match parse(tokenStr)
    case Err(cause) => Err(TokenInvalid(cause))
    case Ok(claims) =>
      var expiration := Expiration(claims);
      if expiration > now then Ok(claims)
      else if refresh.Err? then
        if expiration + TokenExpirationGracePeriod < now then Err(ExpiredBeyondGrace(expiration))
        else Ok(claims)
      else
        match parse(refresh.value)
        case Err(cause) => Err(NewTokenInvalid(cause))
        case Ok(newClaims) => Ok(newClaims)
  }

  /**
   * Checks the token's expiration, logging in again (and caching the new
   * token) only when it has expired.
   */
  method CheckTokenExpirationWithCache(tokenStr: string, cache: EncryptedSessionCache, now: int,
                                       authorize: Result<string, string>, saveFailure: Option<string>, parse: TokenParser)
    returns (r: Result<TokenClaims, AuthError>, ghost refreshed: bool)
    modifies cache
    ensures r == CheckTokenExpiration(tokenStr, now, RefreshOutcome(authorize), parse)
    ensures refreshed <==> parse(tokenStr).Ok? && Expiration(parse(tokenStr).value) <= now
    ensures !refreshed || authorize.Err? || saveFailure.Some? ==> cache.stored == old(cache.stored)
    ensures refreshed && authorize.Ok? && saveFailure.None? ==> cache.stored == Some(Session(authorize.value))
  {
    refreshed := false;
    var parsed := parse(tokenStr);
    if parsed.Err? {
      return Err(TokenInvalid(parsed.error)), refreshed;
    }
    var claims := parsed.value;
    var expiration := Expiration(claims);
    if expiration > now {
      return Ok(claims), refreshed;
    }
    refreshed := true;
    var newToken := RefreshSession(cache, authorize, saveFailure);
    if newToken.Err? {
      if expiration + TokenExpirationGracePeriod < now {
        return Err(ExpiredBeyondGrace(expiration)), refreshed;
      }
      return Ok(claims), refreshed;
    }
    var newClaims := parse(newToken.value);
    if newClaims.Err? {
      return Err(NewTokenInvalid(newClaims.error)), refreshed;
    }
    return Ok(newClaims.value), refreshed;
  }

  /** The four outcomes of the expiration check for a token that parses. */
  lemma ExpirationCases(tokenStr: string, now: int, refresh: Result<string, AuthError>, parse: TokenParser)
    requires parse(tokenStr).Ok?
    ensures var claims := parse(tokenStr).value;
      var r := CheckTokenExpiration(tokenStr, now, refresh, parse);
      // still valid: accepted as is, whatever a refresh would have given
      (Expiration(claims) > now ==> r == Ok(claims)) &&
      // expired, no new token, past the grace period: refused
      (Expiration(claims) <= now && refresh.Err? && Expiration(claims) + TokenExpirationGracePeriod < now ==>
         r == Err(ExpiredBeyondGrace(Expiration(claims)))) &&
      // expired, no new token, within the grace period: the old claims still serve
      (Expiration(claims) <= now && refresh.Err? && now <= Expiration(claims) + TokenExpirationGracePeriod ==>
         r == Ok(claims)) &&
      // expired with a new token: its claims, if it parses
      (Expiration(claims) <= now && refresh.Ok? ==>
         r == if parse(refresh.value).Ok? then Ok(parse(refresh.value).value) else Err(NewTokenInvalid(parse(refresh.value).error)))
  {
  }

  /** The grace period is five days and includes its last instant. */
  lemma GracePeriodBoundary(tokenStr: string, refresh: Result<string, AuthError>, parse: TokenParser)
    requires parse(tokenStr).Ok? && refresh.Err?
    ensures TokenExpirationGracePeriod == 432_000 * NanosPerSecond
    ensures CheckTokenExpiration(tokenStr, Expiration(parse(tokenStr).value) + TokenExpirationGracePeriod, refresh, parse).Ok?
    ensures CheckTokenExpiration(tokenStr, Expiration(parse(tokenStr).value) + TokenExpirationGracePeriod + 1, refresh, parse).Err?
  {
  }

  /** A failed check fails for a reason of its own: the token, the expiration, or the new token. */
  lemma ExpirationErrors(tokenStr: string, now: int, refresh: Result<string, AuthError>, parse: TokenParser)
    requires CheckTokenExpiration(tokenStr, now, refresh, parse).Err?
    ensures var e := CheckTokenExpiration(tokenStr, now, refresh, parse).error;
      (e.TokenInvalid? && parse(tokenStr).Err?) ||
      (e.ExpiredBeyondGrace? && refresh.Err?) ||
      (e.NewTokenInvalid? && refresh.Ok? && parse(refresh.value).Err?)
  {
  }

  // ---------------------------------------------------------------------------
  // Permissions
  // ---------------------------------------------------------------------------

  /** Scans the token's permissions for the one required. */
  method VerifyRequiredPerm(claims: TokenClaims, requiredPermission: string) returns (err: Option<AuthError>)
    ensures err.None? <==> requiredPermission in claims.permissions
    ensures err.Some? ==> err == Some(MissingPermission(claims.permissions))
  {
    var i := 0;
    while i < |claims.permissions|
      invariant 0 <= i <= |claims.permissions|
      invariant requiredPermission !in claims.permissions[..i]
    {
      if claims.permissions[i] == requiredPermission {
        return None;
      }
      assert claims.permissions[..i + 1] == claims.permissions[..i] + [claims.permissions[i]];
      i := i + 1;
    }
    assert claims.permissions[..i] == claims.permissions;
    return Some(MissingPermission(claims.permissions));
  }

  // ---------------------------------------------------------------------------
  // Signing keys
  // ---------------------------------------------------------------------------

  datatype HeaderValue = StringValue(text: string) | OtherValue

  /** What key lookup sees of a token: whether it is signed with RSA, and its header. */
  datatype TokenHeader = TokenHeader(signedWithRsa: bool, header: map<string, HeaderValue>)

  datatype PublicKey = PublicKey(pem: string)

  datatype KeyError =
    | NotRsa(header: map<string, HeaderValue>)   // "Expected token algorithm '%v' but got '%v'"
    | NoKeyId                                    // "No key ID key '%v' found in token header"
    | KeyIdNotString                             // "Found key ID, but value was not a string"
    | UnknownKeyId(keyId: string)                // "No public RSA key found corresponding to key ID ..."
    | PemInvalid(keyId: string, cause: string)   // "An error occurred parsing the public key base64 ..."

  /** The certificate text for a base64 key. */
  function PemText(keyBase64: string): string
  {
    PubKeyHeader + "\n" + keyBase64 + "\n" + PubKeyFooter
  }

  /**
   * Finds the public key for a token: it must be RSA-signed and name, as a
   * string, one of the known keys (`publicKeys`, from key id to base64). The
   * PEM parser is a parameter: `None` when it accepts the text.
   */
  function GetPubKeyFromKurtosisToken(token: TokenHeader, publicKeys: map<string, string>, parsePem: string -> Option<string>): (r: Result<PublicKey, KeyError>)
    ensures r.Ok? <==>
      token.signedWithRsa && KeyIdTokenHeaderKey in token.header && token.header[KeyIdTokenHeaderKey].StringValue? &&
      token.header[KeyIdTokenHeaderKey].text in publicKeys &&
      parsePem(PemText(publicKeys[token.header[KeyIdTokenHeaderKey].text])).None?
    ensures r.Ok? ==> r.value.pem == PemText(publicKeys[token.header[KeyIdTokenHeaderKey].text])
    ensures !token.signedWithRsa ==> r == Err(NotRsa(token.header))
    ensures token.signedWithRsa && KeyIdTokenHeaderKey !in token.header ==> r == Err(NoKeyId)
  {
    if !token.signedWithRsa then Err(NotRsa(token.header))
    else if KeyIdTokenHeaderKey !in token.header then Err(NoKeyId)
    else if !token.header[KeyIdTokenHeaderKey].StringValue? then Err(KeyIdNotString)
    else
      var keyId := token.header[KeyIdTokenHeaderKey].text;
      if keyId !in publicKeys then Err(UnknownKeyId(keyId))
      else
        var keyStr := PemText(publicKeys[keyId]);
        match parsePem(keyStr)
        case Some(cause) => Err(PemInvalid(keyId, cause))
        case None => Ok(PublicKey(keyStr))
  }

  /** The certificate text is the key between the header and footer lines, and gives the key back. */
  lemma {:induction false} PemTextFraming(keyBase64: string)
    ensures PemText(keyBase64)[..|PubKeyHeader| + 1] == PubKeyHeader + "\n"
    ensures PemText(keyBase64)[|PemText(keyBase64)| - |PubKeyFooter| - 1..] == "\n" + PubKeyFooter
    ensures PemText(keyBase64)[|PubKeyHeader| + 1..|PubKeyHeader| + 1 + |keyBase64|] == keyBase64
  {
    var t := PemText(keyBase64);
    assert t == (PubKeyHeader + "\n") + keyBase64 + ("\n" + PubKeyFooter);
  }

  // ---------------------------------------------------------------------------
  // The two flows
  // ---------------------------------------------------------------------------

  /**
   * A developer's machine: get a token (cache or login), check its
   * expiration (at `now`, with a second login outcome if it expired), then
   * require the execution permission. Each of the two logins caches its
   * token, and each save may fail on its own.
   */
  method RunDeveloperMachineAuthFlow(cache: EncryptedSessionCache, readFailure: Option<string>, now: int,
                                     firstLogin: Result<string, string>, firstSaveFailure: Option<string>,
                                     secondLogin: Result<string, string>, secondSaveFailure: Option<string>,
                                     parse: TokenParser, executionScope: string)
    returns (err: Option<AuthError>)
    modifies cache
    ensures (readFailure.None? && old(cache.stored).Some?) || firstLogin.Ok? ==>
      var tokenStr := if readFailure.None? && old(cache.stored).Some? then old(cache.stored).value.token else firstLogin.value;
      var claims := CheckTokenExpiration(tokenStr, now, RefreshOutcome(secondLogin), parse);
      err == if claims.Err? then Some(claims.error)
             else if executionScope in claims.value.permissions then None
             else Some(MissingPermission(claims.value.permissions))
    ensures !((readFailure.None? && old(cache.stored).Some?) || firstLogin.Ok?) ==> err == Some(NoToken(firstLogin.error))
    // the session left in the cache: the second login's when the token had expired and that save
    // worked, otherwise the first login's when there was one and that save worked, otherwise the old one
    ensures var fromCache := readFailure.None? && old(cache.stored).Some?;
      var tokenStr := if fromCache then old(cache.stored).value.token else if firstLogin.Ok? then firstLogin.value else "";
      var afterFirst := if !fromCache && firstLogin.Ok? && firstSaveFailure.None? then Some(Session(firstLogin.value)) else old(cache.stored);
      var expired := (fromCache || firstLogin.Ok?) && parse(tokenStr).Ok? && Expiration(parse(tokenStr).value) <= now;
      cache.stored == if expired && secondLogin.Ok? && secondSaveFailure.None? then Some(Session(secondLogin.value)) else afterFirst
  {
    var tokenStr := GetTokenStr(cache, readFailure, firstLogin, firstSaveFailure);
    if tokenStr.Err? {
      return Some(tokenStr.error);
    }
    var claims, refreshed := CheckTokenExpirationWithCache(tokenStr.value, cache, now, secondLogin, secondSaveFailure, parse);
    if claims.Err? {
      return Some(claims.error);
    }
    err := VerifyRequiredPerm(claims.value, executionScope);
  }

  /**
   * Continuous integration: log in with client credentials (the outcome is
   * a parameter), validate the token, and require the execution permission.
   */
  method RunCIAuthFlow(credentials: Result<string, string>, parse: TokenParser, executionScope: string) returns (err: Option<AuthError>)
    ensures credentials.Err? ==> err == Some(ClientCredentialsRejected(credentials.error))
    ensures credentials.Ok? && parse(credentials.value).Err? ==> err == Some(TokenInvalid(parse(credentials.value).error))
    ensures err.None? <==> credentials.Ok? && parse(credentials.value).Ok? && executionScope in parse(credentials.value).value.permissions
  {
    if credentials.Err? {
      return Some(ClientCredentialsRejected(credentials.error));
    }
    var claims := parse(credentials.value);
    if claims.Err? {
      return Some(TokenInvalid(claims.error));
    }
    err := VerifyRequiredPerm(claims.value, executionScope);
  }
}
