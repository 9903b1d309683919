/** The OAuth 2.0 authorization-code flow with PKCE (section 4.1 and section 6 of RFC 6749,
    section 4 of RFC 7636) over the browser's two key/value stores. The configuration, the
    clock, the random bytes, SHA-256 and the token endpoint are parameters; the requests sent to
    the token endpoint are recorded so that a contract can say how many were sent. */
module SpotifyAuth {
  import opened Wrappers
  import opened JsText
  import opened SpotifyTypes
  import opened TextEncoding
  import opened SpotifyUtils
  import opened AuthCodec
  import SpotifyRequest

  const AUTHORIZE_ENDPOINT: string := "https://accounts.spotify.com/authorize"
  const TOKEN_ENDPOINT: string := "https://accounts.spotify.com/api/token"
  const FORM_CONTENT_TYPE: string := "application/x-www-form-urlencoded"
  /** A cached token is used only while it has more than this many milliseconds left. */
  const EXPIRY_MARGIN_MS: int := 30000

  const MISSING_CONFIG: string := "Missing Spotify client configuration."
  const MISSING_VERIFIER: string := "Missing PKCE verifier in session storage."
  const EXCHANGE_FAILED: string := "Spotify token exchange failed."

  /** Why an operation threw: one of its own errors, a rejected `fetch`, or a token response
      body `response.json()` refuses. */
  datatype AuthError = Thrown(message: string) | NetworkError | MalformedTokenResponse

  /** A truthy optional string: present and not empty. */
  predicate Present(s: Option<string>) {
    s.Some? && s.value != ""
  }

  predicate HasConfig(config: Config) {
    Present(config.clientId) && Present(config.redirectUri)
  }

  // ---------------------------------------------------------------------------------------
  // The stored record

  /** `readStoredAuth`: nothing for a missing or empty entry or for text that is not a record. */
  function StoredAuthIn(local: map<string, string>): (r: Option<StoredAuth>)
    ensures AUTH_STORAGE_KEY !in local || local[AUTH_STORAGE_KEY] == "" ==> r.None?
    ensures r.Some? ==> DecodeAuth(local[AUTH_STORAGE_KEY]) == r
  {
    if AUTH_STORAGE_KEY !in local || local[AUTH_STORAGE_KEY] == "" then None
    else DecodeAuth(local[AUTH_STORAGE_KEY])
  }

  /** What `writeStoredAuth` writes is what `readStoredAuth` reads next, whatever was there. */
  lemma ReadAfterWrite(local: map<string, string>, auth: StoredAuth)
    ensures StoredAuthIn(local[AUTH_STORAGE_KEY := EncodeAuth(auth)]) == Some(auth)
  {
    EncodeAuthNonEmpty(auth);
    DecodeEncodeAuth(auth);
  }

  // ---------------------------------------------------------------------------------------
  // Requests

  /** `sessionStorage.getItem(verifierKey) ?? localStorage.getItem(fallbackKey)`. */
  function SelectVerifier(session: map<string, string>, local: map<string, string>): (r: Option<string>)
    ensures PKCE_VERIFIER_KEY in session ==> r == Some(session[PKCE_VERIFIER_KEY])
    ensures PKCE_VERIFIER_KEY !in session && PKCE_VERIFIER_FALLBACK_KEY in local ==>
      r == Some(local[PKCE_VERIFIER_FALLBACK_KEY])
    ensures r.None? <==> PKCE_VERIFIER_KEY !in session && PKCE_VERIFIER_FALLBACK_KEY !in local
  {
    if PKCE_VERIFIER_KEY in session then Some(session[PKCE_VERIFIER_KEY])
    else if PKCE_VERIFIER_FALLBACK_KEY in local then Some(local[PKCE_VERIFIER_FALLBACK_KEY])
    else None
  }

  function AuthorizeParams(clientId: string, redirectUri: string, challenge: string, scopes: seq<string>)
    : seq<(string, string)>
  {
    [("response_type", "code"), ("client_id", clientId), ("redirect_uri", redirectUri),
     ("code_challenge_method", "S256"), ("code_challenge", challenge), ("scope", Join(scopes, " "))]
  }

  /** The address `startSpotifyAuth` sends the browser to. */
  function AuthorizeUrl(clientId: string, redirectUri: string, challenge: string, scopes: seq<string>): string {
    AUTHORIZE_ENDPOINT + "?" + QueryString(AuthorizeParams(clientId, redirectUri, challenge, scopes))
  }

  /** A request to the token endpoint, as `fetch` is given it. */
  datatype TokenRequest = TokenRequest(url: string, httpMethod: string, contentType: string, body: string)

  function ExchangeParams(code: string, redirectUri: string, clientId: string, verifier: string)
    : seq<(string, string)>
  {
    [("grant_type", "authorization_code"), ("code", code), ("redirect_uri", redirectUri),
     ("client_id", clientId), ("code_verifier", verifier)]
  }

  function RefreshParams(refreshToken: string, clientId: string): seq<(string, string)> {
    [("grant_type", "refresh_token"), ("refresh_token", refreshToken), ("client_id", clientId)]
  }

  function FormPost(params: seq<(string, string)>): TokenRequest {
    TokenRequest(TOKEN_ENDPOINT, "POST", FORM_CONTENT_TYPE, QueryString(params))
  }

  /** The authorization URL is the authorize endpoint with a query that reads back as exactly
      the six parameters, in order, the scopes joined by single spaces. */
  lemma AuthorizeUrlCarriesParams(clientId: string, redirectUri: string, challenge: string, scopes: seq<string>)
    ensures var url := AuthorizeUrl(clientId, redirectUri, challenge, scopes);
      var n := |AUTHORIZE_ENDPOINT| + 1;
      |url| >= n && url[..n] == AUTHORIZE_ENDPOINT + "?" &&
      ParseQuery(url[n..]) == Utf8Pairs(AuthorizeParams(clientId, redirectUri, challenge, scopes))
  {
    var params := AuthorizeParams(clientId, redirectUri, challenge, scopes);
    AfterPrefix(AUTHORIZE_ENDPOINT + "?", QueryString(params));
    ParseQueryString(params);
  }

  /** The body of a code exchange reads back as its five parameters. */
  lemma ExchangeRequestCarriesParams(code: string, redirectUri: string, clientId: string, verifier: string)
    ensures ParseQuery(FormPost(ExchangeParams(code, redirectUri, clientId, verifier)).body) ==
      Utf8Pairs(ExchangeParams(code, redirectUri, clientId, verifier))
  {
    ParseQueryString(ExchangeParams(code, redirectUri, clientId, verifier));
  }

  /** The body of a refresh reads back as its three parameters. */
  lemma RefreshRequestCarriesParams(refreshToken: string, clientId: string)
    ensures ParseQuery(FormPost(RefreshParams(refreshToken, clientId)).body) ==
      Utf8Pairs(RefreshParams(refreshToken, clientId))
  {
    ParseQueryString(RefreshParams(refreshToken, clientId));
  }

  // ---------------------------------------------------------------------------------------
  // Responses

  /** The fields of a token response body the code reads; an absent or `null` entry is `None`. */
  datatype TokenData = TokenData(accessToken: string, refreshToken: Option<string>, expiresIn: Option<int>)

  /** What the token endpoint did: `fetch` rejected, or a response with a status and a body
      that is JSON (`Some`) or not (`None`). */
  datatype TokenResponse = Unreachable | TokenReply(status: int, data: Option<TokenData>)

  /** `now + Number(expires_in ?? 0) * 1000`. */
  function ExpiresAt(now: int, expiresIn: Option<int>): int {
    now + expiresIn.GetOr(0) * 1000
  }

  /** The record a successful code exchange stores. */
  function ExchangedAuth(data: TokenData, now: int): StoredAuth {
    StoredAuth(data.accessToken, data.refreshToken, ExpiresAt(now, data.expiresIn))
  }

  /** The record a successful refresh stores: `refresh_token ?? previous`. */
  function RefreshedAuth(data: TokenData, previous: string, now: int): (a: StoredAuth)
    ensures a.accessToken == data.accessToken
    ensures a.refreshToken == (if data.refreshToken.Some? then data.refreshToken else Some(previous))
    ensures a.expiresAt == ExpiresAt(now, data.expiresIn)
  {
    StoredAuth(data.accessToken, if data.refreshToken.Some? then data.refreshToken else Some(previous),
      ExpiresAt(now, data.expiresIn))
  }

  // ---------------------------------------------------------------------------------------
  // getValidSpotifyAccessToken

  /** What `getValidSpotifyAccessToken` does with what it read. */
  datatype TokenDecision = NoToken | UseCached(token: string) | RefreshWith(refreshToken: string)

  function Decide(stored: Option<StoredAuth>, now: int): (d: TokenDecision)
    ensures d.UseCached? <==> stored.Some? && now < stored.value.expiresAt - EXPIRY_MARGIN_MS
    ensures d.UseCached? ==> d.token == stored.value.accessToken
    ensures d.RefreshWith? <==>
      stored.Some? && now >= stored.value.expiresAt - EXPIRY_MARGIN_MS && Present(stored.value.refreshToken)
    ensures d.RefreshWith? ==> d.refreshToken == stored.value.refreshToken.value
  {
    match stored
    case None => NoToken
    case Some(a) =>
      if now < a.expiresAt - EXPIRY_MARGIN_MS then UseCached(a.accessToken)
      else if Present(a.refreshToken) then RefreshWith(a.refreshToken.value)
      else NoToken
  }

  /** After a successful exchange, the new token is served from the cache until 30 seconds
      before it expires, and afterwards the refresh uses the refresh token it came with. */
  lemma TokenAfterExchange(local: map<string, string>, data: TokenData, now: int, later: int)
    ensures var stored := StoredAuthIn(local[AUTH_STORAGE_KEY := EncodeAuth(ExchangedAuth(data, now))]);
      (later < ExpiresAt(now, data.expiresIn) - EXPIRY_MARGIN_MS ==> Decide(stored, later) == UseCached(data.accessToken)) &&
      (later >= ExpiresAt(now, data.expiresIn) - EXPIRY_MARGIN_MS && Present(data.refreshToken) ==>
        Decide(stored, later) == RefreshWith(data.refreshToken.value)) &&
      (later >= ExpiresAt(now, data.expiresIn) - EXPIRY_MARGIN_MS && !Present(data.refreshToken) ==>
        Decide(stored, later) == NoToken)
  {
    ReadAfterWrite(local, ExchangedAuth(data, now));
  }

  /** A refresh whose response leaves out `refresh_token` keeps the old one, so the next
      refresh sends it again. */
  lemma RefreshKeepsRefreshToken(local: map<string, string>, data: TokenData, previous: string, now: int, later: int)
    requires data.refreshToken.None? && previous != ""
    requires later >= ExpiresAt(now, data.expiresIn) - EXPIRY_MARGIN_MS
    ensures Decide(StoredAuthIn(local[AUTH_STORAGE_KEY := EncodeAuth(RefreshedAuth(data, previous, now))]), later)
      == RefreshWith(previous)
  {
    ReadAfterWrite(local, RefreshedAuth(data, previous, now));
  }

  /** A token with `expires_in` seconds is fresh for `expires_in - 30` seconds after it arrives. */
  lemma CachedWindow(data: TokenData, now: int, elapsedMs: int)
    requires data.expiresIn.Some?
    ensures now + elapsedMs < ExpiresAt(now, data.expiresIn) - EXPIRY_MARGIN_MS <==>
      elapsedMs < (data.expiresIn.value - 30) * 1000
  {
  }

  // ---------------------------------------------------------------------------------------
  // The stores

  /** `localStorage`, `sessionStorage`, and the requests sent to the token endpoint so far. */
  class AuthStore {
    var local: map<string, string>
    var session: map<string, string>
    var requests: seq<TokenRequest>

    constructor(local0: map<string, string>, session0: map<string, string>)
      ensures local == local0 && session == session0 && requests == []
    {
      local := local0;
      session := session0;
      requests := [];
    }

    /** `writeStoredAuth(auth)`: replaces the whole record. */
    method WriteStoredAuth(auth: StoredAuth)
      modifies this
      ensures local == old(local)[AUTH_STORAGE_KEY := EncodeAuth(auth)]
      ensures session == old(session) && requests == old(requests)
      ensures StoredAuthIn(local) == Some(auth)
    {
      local := local[AUTH_STORAGE_KEY := EncodeAuth(auth)];
      ReadAfterWrite(old(local), auth);
    }

    /** `clearStoredSpotifyAuth`: removes the record and both verifiers, and nothing else. */
    method Clear()
      modifies this
      ensures local == old(local) - {AUTH_STORAGE_KEY, PKCE_VERIFIER_FALLBACK_KEY}
      ensures session == old(session) - {PKCE_VERIFIER_KEY}
      ensures requests == old(requests)
      ensures StoredAuthIn(local).None? && SelectVerifier(session, local).None?
    {
      local := local - {AUTH_STORAGE_KEY};
      session := session - {PKCE_VERIFIER_KEY};
      local := local - {PKCE_VERIFIER_FALLBACK_KEY};
    }

    /** `startSpotifyAuth(scopes)` with `random` as the verifier's random bytes: fails before
        touching storage without a configuration, and otherwise stores the same verifier in both
        stores and returns the authorization URL carrying its challenge. */
    method Start(config: Config, scopes: seq<string>, random: seq<byte>, sha256: seq<byte> -> seq<byte>)
      returns (r: Result<string, AuthError>)
      requires |random| == DEFAULT_VERIFIER_LENGTH
      modifies this
      ensures !HasConfig(config) ==> r == Failure(Thrown(MISSING_CONFIG)) && unchanged(this)
      ensures HasConfig(config) ==>
        var verifier := GenerateCodeVerifier(DEFAULT_VERIFIER_LENGTH, random);
        session == old(session)[PKCE_VERIFIER_KEY := verifier] &&
        local == old(local)[PKCE_VERIFIER_FALLBACK_KEY := verifier] &&
        requests == old(requests) &&
        r == Success(AuthorizeUrl(config.clientId.value, config.redirectUri.value,
                                  GenerateCodeChallenge(verifier, sha256), scopes))
      ensures HasConfig(config) ==> SelectVerifier(session, local) == Some(GenerateCodeVerifier(DEFAULT_VERIFIER_LENGTH, random))
    {
      if !HasConfig(config) {
        return Failure(Thrown(MISSING_CONFIG));
      }
      var verifier := GenerateCodeVerifier(DEFAULT_VERIFIER_LENGTH, random);
      var challenge := GenerateCodeChallenge(verifier, sha256);
      StoreVerifier(verifier);
      r := Success(AuthorizeUrl(config.clientId.value, config.redirectUri.value, challenge, scopes));
    }

    /** Keeps the verifier in both stores, for the exchange that follows the redirect. */
    method StoreVerifier(verifier: string)
      modifies this
      ensures session == old(session)[PKCE_VERIFIER_KEY := verifier]
      ensures local == old(local)[PKCE_VERIFIER_FALLBACK_KEY := verifier]
      ensures requests == old(requests)
      ensures SelectVerifier(session, local) == Some(verifier)
    {
      session := session[PKCE_VERIFIER_KEY := verifier];
      local := local[PKCE_VERIFIER_FALLBACK_KEY := verifier];
    }

    /** `fetch(TOKEN_ENDPOINT, ...)`: the request is recorded and `endpoint` answers it. */
    method Send(request: TokenRequest, endpoint: TokenRequest -> TokenResponse) returns (response: TokenResponse)
      modifies this
      ensures requests == old(requests) + [request]
      ensures local == old(local) && session == old(session)
      ensures response == endpoint(request)
    {
      requests := requests + [request];
      response := endpoint(request);
    }

    /** `exchangeSpotifyCodeForToken(code)` at time `now`, with `endpoint` answering the POST. */
    method Exchange(config: Config, code: string, now: int, endpoint: TokenRequest -> TokenResponse)
      returns (r: Result<string, AuthError>)
      modifies this
      ensures !HasConfig(config) ==> r == Failure(Thrown(MISSING_CONFIG)) && unchanged(this)
      ensures HasConfig(config) && !Present(SelectVerifier(old(session), old(local))) ==>
        r == Failure(Thrown(MISSING_VERIFIER)) && unchanged(this)
      ensures HasConfig(config) && Present(SelectVerifier(old(session), old(local))) ==>
        var request := FormPost(ExchangeParams(code, config.redirectUri.value, config.clientId.value,
                                               SelectVerifier(old(session), old(local)).value));
        requests == old(requests) + [request] && session == old(session) &&
        match endpoint(request)
        case Unreachable => r == Failure(NetworkError) && local == old(local)
        case TokenReply(status, data) =>
          if !SpotifyRequest.IsOk(status) then r == Failure(Thrown(EXCHANGE_FAILED)) && local == old(local)
          else if data.None? then r == Failure(MalformedTokenResponse) && local == old(local)
          else r == Success(data.value.accessToken) &&
               local == old(local)[AUTH_STORAGE_KEY := EncodeAuth(ExchangedAuth(data.value, now))]
    {
      if !HasConfig(config) {
        return Failure(Thrown(MISSING_CONFIG));
      }
      var verifier := SelectVerifier(session, local);
      if !Present(verifier) {
        return Failure(Thrown(MISSING_VERIFIER));
      }
      var request := FormPost(ExchangeParams(code, config.redirectUri.value, config.clientId.value, verifier.value));
      var response := Send(request, endpoint);
      match response
      case Unreachable =>
        r := Failure(NetworkError);
      case TokenReply(status, data) =>
        if !SpotifyRequest.IsOk(status) {
          r := Failure(Thrown(EXCHANGE_FAILED));
        } else if data.None? {
          r := Failure(MalformedTokenResponse);
        } else {
          WriteStoredAuth(ExchangedAuth(data.value, now));
          r := Success(data.value.accessToken);
        }
    }

    /** The outcome of `refreshAccessToken(refreshToken)` at time `now`: `null` without a client
        id or for a non-ok response, otherwise the new token, stored with the refresh token the
        response gives or else the old one. */
    twostate predicate Refreshed(config: Config, refreshToken: string, now: int,
                                 endpoint: TokenRequest -> TokenResponse, new r: Result<Option<string>, AuthError>)
      reads this
    {
      session == old(session) &&
      if !Present(config.clientId) then r == Success(None) && local == old(local) && requests == old(requests)
      else
        var request := FormPost(RefreshParams(refreshToken, config.clientId.value));
        requests == old(requests) + [request] &&
        match endpoint(request)
        case Unreachable => r == Failure(NetworkError) && local == old(local)
        case TokenReply(status, data) =>
          if !SpotifyRequest.IsOk(status) then r == Success(None) && local == old(local)
          else if data.None? then r == Failure(MalformedTokenResponse) && local == old(local)
          else r == Success(Some(data.value.accessToken)) &&
               local == old(local)[AUTH_STORAGE_KEY := EncodeAuth(RefreshedAuth(data.value, refreshToken, now))]
    }

    /** `refreshAccessToken(refreshToken)`. */
    method Refresh(config: Config, refreshToken: string, now: int, endpoint: TokenRequest -> TokenResponse)
      returns (r: Result<Option<string>, AuthError>)
      modifies this
      ensures Refreshed(config, refreshToken, now, endpoint, r)
    {
      if !Present(config.clientId) {
        return Success(None);
      }
      var request := FormPost(RefreshParams(refreshToken, config.clientId.value));
      var response := Send(request, endpoint);
      match response
      case Unreachable =>
        r := Failure(NetworkError);
      case TokenReply(status, data) =>
        if !SpotifyRequest.IsOk(status) {
          r := Success(None);
        } else if data.None? {
          r := Failure(MalformedTokenResponse);
        } else {
          WriteStoredAuth(RefreshedAuth(data.value, refreshToken, now));
          r := Success(Some(data.value.accessToken));
        }
    }

    /** `getValidSpotifyAccessToken()` at time `now`: no request at all unless the stored token is
        within 30 seconds of expiry and there is a refresh token, and then exactly one refresh. */
    method GetValidAccessToken(config: Config, now: int, endpoint: TokenRequest -> TokenResponse)
      returns (r: Result<Option<string>, AuthError>)
      modifies this
      ensures match Decide(StoredAuthIn(old(local)), now)
        case NoToken => r == Success(None) && unchanged(this)
        case UseCached(token) => r == Success(Some(token)) && unchanged(this)
        case RefreshWith(refreshToken) => Refreshed(config, refreshToken, now, endpoint, r)
    {
      var decision := Decide(StoredAuthIn(local), now);
      match decision
      case NoToken =>
        r := Success(None);
      case UseCached(token) =>
        r := Success(Some(token));
      case RefreshWith(refreshToken) =>
        r := Refresh(config, refreshToken, now, endpoint);
    }
  }

  /** The verifier `startSpotifyAuth` stores meets section 4.1 of RFC 7636, and with a 32-byte
      digest its challenge is 43 URL-safe characters. */
  lemma StartedVerifierIsValid(random: seq<byte>, sha256: seq<byte> -> seq<byte>)
    requires |random| == DEFAULT_VERIFIER_LENGTH
    requires |sha256(Utf8Encode(GenerateCodeVerifier(DEFAULT_VERIFIER_LENGTH, random)))| == 32
    ensures IsValidCodeVerifier(GenerateCodeVerifier(DEFAULT_VERIFIER_LENGTH, random))
    ensures var challenge := GenerateCodeChallenge(GenerateCodeVerifier(DEFAULT_VERIFIER_LENGTH, random), sha256);
      |challenge| == 43 && IsUrlSafe(challenge)
  {
    DefaultVerifierIsValid(random);
    CodeChallengeShape(GenerateCodeVerifier(DEFAULT_VERIFIER_LENGTH, random), sha256);
  }
}
