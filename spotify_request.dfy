/** The authenticated request helper: one `fetch` with a bearer token, and the three ways it
    ends — a network failure, a `SpotifyHttpError` describing a non-ok response, or the decoded
    body. `fetch` and `JSON.parse` are parameters. */
module SpotifyRequest {
  import opened Wrappers
  import opened JsText
  import opened Json
  import opened SpotifyErrors

  // ---------------------------------------------------------------------------------------
  // parseEndpoint

  /** The index of the first character of `s` that is in `stops`, or `|s|`. */
  function IndexOfAny(s: string, stops: set<char>): (k: nat)
    ensures k <= |s|
    ensures forall i :: 0 <= i < k ==> s[i] !in stops
    ensures k < |s| ==> s[k] in stops
  {
    if s == [] || s[0] in stops then 0 else 1 + IndexOfAny(s[1..], stops)
  }

  predicate StartsWithIgnoringCase(s: string, p: string) {
    |p| <= |s| && EqualsIgnoringCase(s[..|p|], p)
  }

  /** The pieces of an http(s) URL that `pathname` and `search` expose. */
  datatype UrlParts = UrlParts(host: string, pathname: string, search: string)

  /** The parts after an authority that starts `rest`: the host runs up to the first `/`, `?`,
      `#` or `\`; the path up to `?` or `#` (`/` when empty); the query up to `#`, and a bare `?`
      gives an empty `search`. */
  function SplitAfterScheme(rest: string): Option<UrlParts>
  {
    var h := IndexOfAny(rest, {'/', '?', '#', '\\'});
    if h == 0 then None
    else
      var afterHost := rest[h..];
      var p := IndexOfAny(afterHost, {'?', '#'});
      var path := afterHost[..p];
      var afterPath := afterHost[p..];
      var query := if afterPath != [] && afterPath[0] == '?' then afterPath[..IndexOfAny(afterPath, {'#'})] else "";
      Some(UrlParts(rest[..h], if path == "" then "/" else path, if |query| <= 1 then "" else query))
  }

  /** `new URL(url)` cut down to the absolute http and https URLs the API layer builds (scheme
      in any case), split as written; `None` for every other text. It does not apply the URL
      Standard's normalisation, so it agrees with the constructor only on the plain URLs
      described by `PlainHost`, `PlainPath` and `PlainQuery`. */
  function ParseHttpUrl(url: string): Option<UrlParts>
  {
    if StartsWithIgnoringCase(url, "http://") then SplitAfterScheme(url[7..])
    else if StartsWithIgnoringCase(url, "https://") then SplitAfterScheme(url[8..])
    else None
  }

  /** `parseEndpoint(url)`: the path and query of an http(s) URL, else the input unchanged. */
  function ParseEndpoint(url: string): (r: string)
    ensures ParseHttpUrl(url).None? ==> r == url
  {
    match ParseHttpUrl(url)
    case Some(parts) => parts.pathname + parts.search
    case None => url
  }

  predicate FreeOf(s: string, cs: set<char>) {
    forall i :: 0 <= i < |s| ==> s[i] !in cs
  }

  lemma {:induction false} IndexOfAnyAt(a: string, b: string, stops: set<char>)
    requires FreeOf(a, stops)
    requires b == [] || b[0] in stops
    ensures IndexOfAny(a + b, stops) == |a|
  {
    if a != [] {
      assert (a + b)[1..] == a[1..] + b;
      IndexOfAnyAt(a[1..], b, stops);
    } else {
      assert a + b == b;
    }
  }

  /** The splitter takes the authority, path, query and fragment after the scheme apart as
      they were written. */
  lemma SplitAfterSchemeOf(host: string, path: string, query: string, fragment: string)
    requires host != [] && FreeOf(host, {'/', '?', '#', '\\'})
    requires path != [] && path[0] == '/' && FreeOf(path, {'?', '#'})
    requires query == [] || (|query| > 1 && query[0] == '?' && FreeOf(query, {'#'}))
    requires fragment == [] || fragment[0] == '#'
    ensures SplitAfterScheme(host + (path + (query + fragment))) == Some(UrlParts(host, path, query))
  {
    var rest := host + (path + (query + fragment));
    IndexOfAnyAt(host, path + (query + fragment), {'/', '?', '#', '\\'});
    assert rest[..|host|] == host;
    assert rest[|host|..] == path + (query + fragment);
    IndexOfAnyAt(path, query + fragment, {'?', '#'});
    assert (path + (query + fragment))[..|path|] == path;
    assert (path + (query + fragment))[|path|..] == query + fragment;
    if query != [] {
      IndexOfAnyAt(query, fragment, {'#'});
      assert (query + fragment)[..|query|] == query;
    } else {
      assert query + fragment == fragment;
    }
  }

  predicate IsHostChar(c: char) {
    IsAsciiAlnum(c) || c == '-' || c == '.'
  }

  /** Whether a label of `host` starts at `i` with the ACE prefix `xn--`, in either case. */
  predicate AcePrefixAt(host: string, i: nat) {
    i + 4 <= |host| && (i == 0 || host[i - 1] == '.') &&
    FoldCase(host[i]) == 'X' && FoldCase(host[i + 1]) == 'N' && host[i + 2] == '-' && host[i + 3] == '-'
  }

  /** A domain the URL Standard's host parser accepts without change other than case: letters,
      digits, `-` and `.`, every label non-empty and starting with a letter, so that the host
      is not read as an IPv4 address, no label starting with `xn--`, which UTS 46 would decode
      as Punycode and may reject, and with no `@`, port or forbidden code point. */
  predicate PlainHost(host: string) {
    host != [] && IsAsciiLetter(host[0]) && host[|host| - 1] != '.' &&
    (forall i :: 0 <= i < |host| ==> IsHostChar(host[i])) &&
    (forall i :: 0 <= i < |host| - 1 && host[i] == '.' ==> IsAsciiLetter(host[i + 1])) &&
    (forall i :: 0 <= i < |host| ==> !AcePrefixAt(host, i))
  }

  predicate IsPathChar(c: char) {
    IsAsciiAlnum(c) || c == '/' || c == '-' || c == '_' || c == '~'
  }

  /** A path the URL parser keeps as written: it starts with `/` and has no character it would
      percent-encode, no backslash it would read as `/`, and no `.` or `%` that could form a dot
      segment. */
  predicate PlainPath(path: string) {
    path != [] && path[0] == '/' && forall i :: 0 <= i < |path| ==> IsPathChar(path[i])
  }

  /** A query the URL parser keeps as written: empty, or `?` and printable ASCII outside the
      special-query percent-encode set (space, `"`, `#`, `<`, `>`, `'`). */
  predicate PlainQuery(query: string) {
    query == [] ||
    (|query| > 1 && query[0] == '?' &&
     forall i :: 0 <= i < |query| ==> '!' <= query[i] <= '~' && query[i] !in {'"', '#', '<', '>', '\''})
  }

  /** An http(s) URL built from a plain host, path and query, and any fragment, has the path
      and the query as its endpoint: the scheme, the host and the fragment are gone. These
      are the URLs on which the splitter and `new URL` agree. */
  lemma ParseEndpointOfUrl(scheme: string, host: string, path: string, query: string, fragment: string)
    requires scheme == "https://" || scheme == "http://"
    requires PlainHost(host)
    requires PlainPath(path)
    requires PlainQuery(query)
    requires fragment == [] || fragment[0] == '#'
    ensures ParseEndpoint(scheme + (host + (path + (query + fragment)))) == path + query
  {
    PlainHostFree(host);
    PlainPathFree(path);
    var rest := host + (path + (query + fragment));
    var url := scheme + rest;
    assert url[..|scheme|] == scheme;
    assert url[|scheme|..] == rest;
    if scheme == "http://" {
      assert StartsWithIgnoringCase(url, "http://");
    } else {
      assert !StartsWithIgnoringCase(url, "http://") by { assert FoldCase(url[4]) != FoldCase(':'); }
      assert StartsWithIgnoringCase(url, "https://");
    }
    SplitAfterSchemeOf(host, path, query, fragment);
  }

  /** A plain host ends at the path: it holds no `/`, `?`, `#` or backslash. */
  lemma PlainHostFree(host: string)
    requires forall i :: 0 <= i < |host| ==> IsHostChar(host[i])
    ensures FreeOf(host, {'/', '?', '#', '\\'})
  {
    forall i | 0 <= i < |host| ensures host[i] !in {'/', '?', '#', '\\'} {
      assert IsHostChar(host[i]);
    }
  }

  /** A plain path ends at the query: it holds no `?` or `#`. */
  lemma PlainPathFree(path: string)
    requires forall i :: 0 <= i < |path| ==> IsPathChar(path[i])
    ensures FreeOf(path, {'?', '#'})
  {
    forall i | 0 <= i < |path| ensures path[i] !in {'?', '#'} {
      assert IsPathChar(path[i]);
    }
  }

  /** A text that does not start with an http(s) scheme is its own endpoint. */
  lemma ParseEndpointOfRelative(url: string)
    requires url == [] || url[0] == '/'
    ensures ParseEndpoint(url) == url
  {
    assert !StartsWithIgnoringCase(url, "http://") by {
      if |url| >= 7 { assert FoldCase(url[0]) != FoldCase('h'); }
    }
    assert !StartsWithIgnoringCase(url, "https://") by {
      if |url| >= 8 { assert FoldCase(url[0]) != FoldCase('h'); }
    }
  }

  // ---------------------------------------------------------------------------------------
  // Retry-After, the payload and the network message

  /** `parseRetryAfterSeconds`: an absent or empty header gives `null`, anything else
      `parseInt(value, 10)` with NaN as `null`. */
  function ParseRetryAfter(header: Option<string>): (r: Option<int>)
    ensures header.None? || header == Some("") ==> r.None?
    ensures header.Some? && header.value != "" ==> r == ParseInt(header.value)
  {
    match header
    case None => None
    case Some(v) => if v == "" then None else ParseInt(v)
  }

  /** A delay-seconds header reads back as its number, with or without surrounding text that
      does not continue the digits. */
  lemma ParseRetryAfterDelay(seconds: nat, rest: string)
    requires rest == [] || !IsAsciiDigit(rest[0])
    ensures ParseRetryAfter(Some(IntToString(seconds) + rest)) == Some(seconds)
  {
    ParseIntOfIntToString(seconds, rest);
  }

  /** An HTTP-date value such as `Wed, 21 Oct 2015 07:28:00 GMT` starts with a letter, which
      `parseInt` cannot read. */
  lemma ParseRetryAfterDate(v: string)
    requires v != [] && IsAsciiLetter(v[0])
    ensures ParseRetryAfter(Some(v)) == None
  {
    assert !IsJsWhitespace(v[0]);
    assert TrimStart(v) == v;
  }

  /** `readResponsePayload`: a blank body is `null`, a body `JSON.parse` accepts is its value,
      any other body is the raw text. */
  function ReadResponsePayload(raw: string, parse: string -> Option<Json>): (r: Json)
    ensures AllWhitespace(raw) ==> r == JNull
    ensures !AllWhitespace(raw) && parse(raw).Some? ==> r == parse(raw).value
    ensures !AllWhitespace(raw) && parse(raw).None? ==> r == JString(raw)
  {
    TrimEmpty(raw);
    if Trim(raw) == "" then JNull
    else
      match parse(raw)
      case Some(v) => v
      case None => JString(raw)
  }

  /** A body that is not JSON is still a reason: its trimmed text. */
  lemma RawBodyIsReason(raw: string, parse: string -> Option<Json>)
    requires !AllWhitespace(raw) && parse(raw).None?
    ensures ExtractReason(ReadResponsePayload(raw, parse)) == Some(Trim(raw))
  {
    ExtractReasonOfString(raw);
  }

  /** A blank body gives no reason, so the message falls back to the status hint. */
  lemma BlankBodyHasNoReason(raw: string, parse: string -> Option<Json>)
    requires AllWhitespace(raw)
    ensures ExtractReason(ReadResponsePayload(raw, parse)) == None
  {
  }

  function NetworkErrorMessage(action: string): string {
    "Unable to reach Spotify while trying to " + action + ". Check internet connectivity and try again."
  }

  // ---------------------------------------------------------------------------------------
  // spotifyRequestJson

  /** The parts of a `RequestInit` the Spotify calls use; `headers` is a plain record. */
  datatype RequestInit = RequestInit(httpMethod: Option<string>, body: Option<string>,
                                     headers: Option<map<string, string>>)

  /** What `fetch` produced: a rejected promise, or a response. */
  datatype FetchOutcome =
    | NetworkFailure
    | Response(status: int, statusText: string, retryAfter: Option<string>, body: string)

  /** The errors `spotifyRequestJson` throws; a body `response.json()` rejects is the last. */
  datatype RequestError =
    | NetworkError(message: string)
    | HttpError(error: SpotifyHttpError)
    | InvalidJson

  /** `response.ok`. */
  predicate IsOk(status: int) {
    200 <= status <= 299
  }

  /** `{ Authorization: "Bearer " + token, ...(headers ?? {}) }`: a caller's own
      `Authorization` entry replaces the bearer one. */
  function MergedHeaders(accessToken: string, headers: Option<map<string, string>>): (r: map<string, string>)
    ensures "Authorization" in r
    ensures headers.None? ==> r == map["Authorization" := "Bearer " + accessToken]
    ensures headers.Some? ==> r.Keys == headers.value.Keys + {"Authorization"}
    ensures headers.Some? ==> forall k :: k in headers.value ==> r[k] == headers.value[k]
    ensures headers.None? || "Authorization" !in headers.value ==> r["Authorization"] == "Bearer " + accessToken
  {
    map["Authorization" := "Bearer " + accessToken] + headers.GetOr(map[])
  }

  /** `{ ...init, headers: … }`: every other field of the caller's init passes through. */
  function OutgoingInit(accessToken: string, init: Option<RequestInit>): (r: RequestInit)
    ensures init.Some? ==> r.httpMethod == init.value.httpMethod && r.body == init.value.body
    ensures init.None? ==> r.httpMethod.None? && r.body.None?
    ensures r.headers == Some(MergedHeaders(accessToken, if init.Some? then init.value.headers else None))
  {
    match init
    case None => RequestInit(None, None, Some(MergedHeaders(accessToken, None)))
    case Some(i) => RequestInit(i.httpMethod, i.body, Some(MergedHeaders(accessToken, i.headers)))
  }

  /** The error a non-ok response is turned into. */
  function HttpErrorOf(action: string, url: string, status: int, statusText: string,
                       retryAfter: Option<string>, body: string, parse: string -> Option<Json>): SpotifyHttpError
  {
    NewSpotifyHttpError(ErrorInput(action, status, statusText, ParseEndpoint(url),
      ExtractReason(ReadResponsePayload(body, parse)), ParseRetryAfter(retryAfter)))
  }

  /** `spotifyRequestJson({ accessToken, url, action, init })` with `fetch` and `JSON.parse` as
      parameters. */
  function RequestJson(accessToken: string, url: string, action: string, init: Option<RequestInit>,
                       fetch: (string, RequestInit) -> FetchOutcome,
                       parse: string -> Option<Json>): (r: Result<Json, RequestError>)
    ensures fetch(url, OutgoingInit(accessToken, init)).NetworkFailure? <==>
      r == Failure(NetworkError(NetworkErrorMessage(action)))
    ensures r.Success? <==>
      var o := fetch(url, OutgoingInit(accessToken, init));
      o.Response? && IsOk(o.status) && parse(o.body).Some?
    ensures r.Success? ==> r.value == parse(fetch(url, OutgoingInit(accessToken, init)).body).value
    ensures r.Failure? && r.error.HttpError? ==>
      var o := fetch(url, OutgoingInit(accessToken, init));
      o.Response? && !IsOk(o.status) &&
      r.error.error == HttpErrorOf(action, url, o.status, o.statusText, o.retryAfter, o.body, parse)
  {
    match fetch(url, OutgoingInit(accessToken, init))
    case NetworkFailure => Failure(NetworkError(NetworkErrorMessage(action)))
    case Response(status, statusText, retryAfter, body) =>
      if !IsOk(status) then
        Failure(HttpError(HttpErrorOf(action, url, status, statusText, retryAfter, body, parse)))
      else
        match parse(body)
        case Some(v) => Success(v)
        case None => Failure(InvalidJson)
  }

  /** Every non-ok response becomes a `SpotifyHttpError`, whatever its body. */
  lemma NonOkIsHttpError(accessToken: string, url: string, action: string, init: Option<RequestInit>,
                         fetch: (string, RequestInit) -> FetchOutcome, parse: string -> Option<Json>)
    requires fetch(url, OutgoingInit(accessToken, init)).Response?
    requires !IsOk(fetch(url, OutgoingInit(accessToken, init)).status)
    ensures RequestJson(accessToken, url, action, init, fetch, parse).Failure?
    ensures RequestJson(accessToken, url, action, init, fetch, parse).error.HttpError?
    ensures var e := RequestJson(accessToken, url, action, init, fetch, parse).error.error;
      var o := fetch(url, OutgoingInit(accessToken, init));
      e.status == o.status && e.action == action && e.endpoint == ParseEndpoint(url) &&
      e.retryAfterSeconds == ParseRetryAfter(o.retryAfter)
  {
  }

  /** A rate-limited response with a blank body and `Retry-After: n` tells the user to retry in
      about n seconds. */
  lemma RateLimitedRequestMessage(accessToken: string, url: string, action: string, init: Option<RequestInit>,
                                  fetch: (string, RequestInit) -> FetchOutcome, parse: string -> Option<Json>,
                                  seconds: nat)
    requires fetch(url, OutgoingInit(accessToken, init)).Response?
    requires fetch(url, OutgoingInit(accessToken, init)).status == 429
    requires fetch(url, OutgoingInit(accessToken, init)).retryAfter == Some(IntToString(seconds))
    requires fetch(url, OutgoingInit(accessToken, init)).body == ""
    ensures var r := RequestJson(accessToken, url, action, init, fetch, parse);
      r.Failure? && r.error.HttpError? &&
      r.error.error.message ==
        MessagePrefix(ErrorInput(action, 429, fetch(url, OutgoingInit(accessToken, init)).statusText,
          ParseEndpoint(url), None, Some(seconds))) + ": " + RateLimitedHint(seconds)
  {
    var o := fetch(url, OutgoingInit(accessToken, init));
    RateLimitedErrorOf(action, url, o.statusText, seconds, parse);
  }

  lemma RateLimitedErrorOf(action: string, url: string, statusText: string, seconds: nat,
                           parse: string -> Option<Json>)
    ensures HttpErrorOf(action, url, 429, statusText, Some(IntToString(seconds)), "", parse).message ==
      MessagePrefix(ErrorInput(action, 429, statusText, ParseEndpoint(url), None, Some(seconds))) + ": " +
      RateLimitedHint(seconds)
  {
    assert IntToString(seconds) + "" == IntToString(seconds);
    ParseRetryAfterDelay(seconds, "");
    BlankBodyHasNoReason("", parse);
    HintWithoutReason(ErrorInput(action, 429, statusText, ParseEndpoint(url), None, Some(seconds)));
  }

  /** A JSON error body `{ error: { message } }` shows its trimmed message. */
  lemma SpotifyErrorBodyMessage(accessToken: string, url: string, action: string, init: Option<RequestInit>,
                                fetch: (string, RequestInit) -> FetchOutcome, parse: string -> Option<Json>,
                                inner: map<string, Json>, m: string)
    requires fetch(url, OutgoingInit(accessToken, init)).Response?
    requires !IsOk(fetch(url, OutgoingInit(accessToken, init)).status)
    requires !AllWhitespace(fetch(url, OutgoingInit(accessToken, init)).body)
    requires parse(fetch(url, OutgoingInit(accessToken, init)).body) == Some(JObject(map["error" := JObject(inner)]))
    requires "message" in inner && inner["message"] == JString(m) && !AllWhitespace(m)
    ensures var r := RequestJson(accessToken, url, action, init, fetch, parse);
      var o := fetch(url, OutgoingInit(accessToken, init));
      r.Failure? && r.error.HttpError? &&
      r.error.error.reason == Some(Trim(m)) &&
      r.error.error.message ==
        MessagePrefix(ErrorInput(action, o.status, o.statusText, ParseEndpoint(url), Some(Trim(m)),
          ParseRetryAfter(o.retryAfter))) + ": " + Trim(m)
  {
    var o := fetch(url, OutgoingInit(accessToken, init));
    ErrorBodyOf(action, url, o.status, o.statusText, o.retryAfter, o.body, parse, inner, m);
  }

  lemma ErrorBodyOf(action: string, url: string, status: int, statusText: string, retryAfter: Option<string>,
                    body: string, parse: string -> Option<Json>, inner: map<string, Json>, m: string)
    requires !AllWhitespace(body)
    requires parse(body) == Some(JObject(map["error" := JObject(inner)]))
    requires "message" in inner && inner["message"] == JString(m) && !AllWhitespace(m)
    ensures var e := HttpErrorOf(action, url, status, statusText, retryAfter, body, parse);
      e.reason == Some(Trim(m)) &&
      e.message == MessagePrefix(ErrorInput(action, status, statusText, ParseEndpoint(url), Some(Trim(m)),
        ParseRetryAfter(retryAfter))) + ": " + Trim(m)
  {
    var fields := map["error" := JObject(inner)];
    assert "message" !in fields by { assert "message"[0] != "error"[0]; }
    NestedMessage(fields, inner, m);
    assert ReadResponsePayload(body, parse) == JObject(fields);
    TrimEmpty(m);
    ReasonTakesPrecedence(ErrorInput(action, status, statusText, ParseEndpoint(url), Some(Trim(m)),
      ParseRetryAfter(retryAfter)));
  }
}
