/** Classifying a failed Spotify response: the reason Spotify gave, the hint a status code
    implies, and the message of the error the request layer throws. */
module SpotifyErrors {
  import opened Wrappers
  import opened JsText
  import opened Json

  const HINT_UNAUTHORIZED: string :=
    "Spotify access token expired or is invalid. Reconnect Spotify and try again."
  const HINT_FORBIDDEN: string :=
    "Spotify denied this request. Your account may be missing required permissions/scopes."
  const HINT_RATE_LIMITED_UNKNOWN: string := "Rate limited by Spotify. Retry in a few seconds."
  const HINT_UNAVAILABLE: string := "Spotify service is currently unavailable. Try again shortly."
  const UNKNOWN_STATUS: string := "Unknown Status"

  /** `Rate limited by Spotify. Retry in about ${seconds}s.` */
  function RateLimitedHint(seconds: int): string {
    "Rate limited by Spotify. Retry in about " + IntToString(seconds) + "s."
  }

  /** `getStatusHint`: a hint for 401, 403, 429 and every status from 500 on, none otherwise. */
  function StatusHint(status: int, retryAfterSeconds: Option<int>): (r: Option<string>)
    ensures r.None? <==> status != 401 && status != 403 && status != 429 && status < 500
    ensures status == 401 ==> r == Some(HINT_UNAUTHORIZED)
    ensures status == 403 ==> r == Some(HINT_FORBIDDEN)
    ensures status == 429 && retryAfterSeconds.Some? ==> r == Some(RateLimitedHint(retryAfterSeconds.value))
    ensures status == 429 && retryAfterSeconds.None? ==> r == Some(HINT_RATE_LIMITED_UNKNOWN)
    ensures status >= 500 ==> r == Some(HINT_UNAVAILABLE)
    ensures r.Some? ==> r.value != ""
  {
    if status == 401 then Some(HINT_UNAUTHORIZED)
    else if status == 403 then Some(HINT_FORBIDDEN)
    else if status == 429 then
      (match retryAfterSeconds
       case Some(n) => Some(RateLimitedHint(n))
       case None => Some(HINT_RATE_LIMITED_UNKNOWN))
    else if status >= 500 then Some(HINT_UNAVAILABLE)
    else None
  }

  /** `getStringProperty(obj, key)`: the trimmed text of a string property that is not blank. */
  function GetStringProperty(obj: Json, key: string): (r: Option<string>)
    ensures r.Some? ==> Get(obj, key).Some? && Get(obj, key).value.JString? &&
                        r.value == Trim(Get(obj, key).value.s) && r.value != ""
    ensures r.None? && Get(obj, key).Some? && Get(obj, key).value.JString? ==>
              AllWhitespace(Get(obj, key).value.s)
  {
    match Get(obj, key)
    case Some(JString(s)) =>
      TrimEmpty(s);
      if |Trim(s)| > 0 then Some(Trim(s)) else None
    case _ => None
  }

  /** `extractSpotifyErrorReason(payload)`: a non-blank string payload trimmed, else the
      top-level `message`, else `error.message`. */
  function ExtractReason(payload: Json): Option<string>
  {
    match payload
    case JString(s) => if |Trim(s)| > 0 then Some(Trim(s)) else None
    case _ =>
      if !IsRecord(payload) then None
      else
        match GetStringProperty(payload, "message")
        case Some(m) => Some(m)
        case None =>
          match Get(payload, "error")
          case Some(nested) => if IsRecord(nested) then GetStringProperty(nested, "message") else None
          case None => None
  }

  /** A reason is never empty and never has whitespace at either end. */
  lemma ExtractReasonTrimmed(payload: Json)
    ensures ExtractReason(payload).Some? ==>
      ExtractReason(payload).value != "" && Trim(ExtractReason(payload).value) == ExtractReason(payload).value
  {
    var r := ExtractReason(payload);
    if r.Some? {
      var s := if payload.JString? then payload.s
        else if GetStringProperty(payload, "message").Some? then Get(payload, "message").value.s
        else Get(payload, "error").value.fields["message"].s;
      assert r.value == Trim(s);
      TrimIdempotent(s);
    }
  }

  /** A string payload gives its trimmed text unless it is blank. */
  lemma ExtractReasonOfString(s: string)
    ensures ExtractReason(JString(s)) == (if AllWhitespace(s) then None else Some(Trim(s)))
  {
    TrimEmpty(s);
  }

  /** `null`, booleans and numbers give no reason. */
  lemma ExtractReasonOfScalar(payload: Json)
    requires payload.JNull? || payload.JBool? || payload.JNumber?
    ensures ExtractReason(payload) == None
  {
  }

  /** A non-blank top-level `message` wins over whatever `error` holds. */
  lemma TopLevelMessageWins(fields: map<string, Json>, m: string)
    requires "message" in fields && fields["message"] == JString(m) && !AllWhitespace(m)
    ensures ExtractReason(JObject(fields)) == Some(Trim(m))
  {
    TrimEmpty(m);
  }

  /** Without a usable top-level `message`, a non-blank `error.message` is the reason. */
  lemma NestedMessage(fields: map<string, Json>, inner: map<string, Json>, m: string)
    requires "message" !in fields || !fields["message"].JString? || AllWhitespace(fields["message"].s)
    requires "error" in fields && fields["error"] == JObject(inner)
    requires "message" in inner && inner["message"] == JString(m) && !AllWhitespace(m)
    ensures ExtractReason(JObject(fields)) == Some(Trim(m))
  {
    var obj := JObject(fields);
    assert GetStringProperty(obj, "message") == None by {
      if "message" in fields && fields["message"].JString? {
        TrimEmpty(fields["message"].s);
      }
    }
    assert Get(obj, "error") == Some(JObject(inner));
    assert GetStringProperty(JObject(inner), "message") == Some(Trim(m)) by {
      TrimEmpty(m);
    }
  }

  /** An object with neither gives no reason (the `{ foo: "bar" }` case). */
  lemma NoMessageNoReason(fields: map<string, Json>)
    requires "message" !in fields && "error" !in fields
    ensures ExtractReason(JObject(fields)) == None
  {
  }

  /** The payload fixtures of the unit tests: a nested message, ... */
  lemma NestedExample()
    ensures ExtractReason(JObject(map["error" := JObject(map["message" := JString("Invalid access token")])]))
      == Some("Invalid access token")
  {
    var inner := map["message" := JString("Invalid access token")];
    var nested := map["error" := JObject(inner)];
    assert "message" !in nested by { assert "message"[0] != "error"[0]; }
    assert !AllWhitespace("Invalid access token") by { assert !IsJsWhitespace("Invalid access token"[0]); }
    TrimOfTrimmed("Invalid access token");
    NestedMessage(nested, inner, "Invalid access token");
  }

  /** ... a top-level message, ... */
  lemma TopLevelExample()
    ensures ExtractReason(JObject(map["message" := JString("Service unavailable")])) == Some("Service unavailable")
  {
    assert !AllWhitespace("Service unavailable") by { assert !IsJsWhitespace("Service unavailable"[0]); }
    TrimOfTrimmed("Service unavailable");
    TopLevelMessageWins(map["message" := JString("Service unavailable")], "Service unavailable");
  }

  /** ... an unknown shape and `null`. */
  lemma UnknownShapeExample()
    ensures ExtractReason(JObject(map["foo" := JString("bar")])) == None
    ensures ExtractReason(JNull) == None
  {
    var foo := map["foo" := JString("bar")];
    assert "message" !in foo && "error" !in foo by {
      assert "message"[0] != "foo"[0] && "error"[0] != "foo"[0];
    }
    NoMessageNoReason(foo);
  }

  // ---------------------------------------------------------------------------------------
  // The message

  /** The input of `buildSpotifyErrorMessage` and of the `SpotifyHttpError` constructor. */
  datatype ErrorInput = ErrorInput(
    action: string,
    status: int,
    statusText: string,
    endpoint: string,
    reason: Option<string>,
    retryAfterSeconds: Option<int>)

  /** The status text, or "Unknown Status" when it is blank; a non-blank text is kept as it is,
      untrimmed. */
  function StatusLabel(statusText: string): (r: string)
    ensures AllWhitespace(statusText) ==> r == UNKNOWN_STATUS
    ensures !AllWhitespace(statusText) ==> r == statusText
  {
    TrimEmpty(statusText);
    if |Trim(statusText)| > 0 then statusText else UNKNOWN_STATUS
  }

  /** `Failed to ${action} (${status} ${statusLabel}) on ${endpoint}`. */
  function MessagePrefix(input: ErrorInput): string {
    "Failed to " + input.action + " (" + IntToString(input.status) + " " +
      StatusLabel(input.statusText) + ") on " + input.endpoint
  }

  /** `reason ?? getStatusHint(status, retryAfterSeconds)`: only a missing reason falls back. */
  function ReasonOrHint(input: ErrorInput): Option<string> {
    if input.reason.Some? then input.reason else StatusHint(input.status, input.retryAfterSeconds)
  }

  /** `buildSpotifyErrorMessage(input)`. */
  function BuildErrorMessage(input: ErrorInput): string {
    var detail := ReasonOrHint(input);
    if detail.Some? && detail.value != "" then MessagePrefix(input) + ": " + detail.value
    else MessagePrefix(input) + "."
  }

  /** A non-empty reason is always quoted after the prefix, whatever the status. */
  lemma ReasonTakesPrecedence(input: ErrorInput)
    requires input.reason.Some? && input.reason.value != ""
    ensures BuildErrorMessage(input) == MessagePrefix(input) + ": " + input.reason.value
  {
  }

  /** Without a reason the status hint, when there is one, follows the prefix. */
  lemma HintWithoutReason(input: ErrorInput)
    requires input.reason.None?
    ensures StatusHint(input.status, input.retryAfterSeconds).Some? ==>
      BuildErrorMessage(input) == MessagePrefix(input) + ": " + StatusHint(input.status, input.retryAfterSeconds).value
    ensures StatusHint(input.status, input.retryAfterSeconds).None? ==>
      BuildErrorMessage(input) == MessagePrefix(input) + "."
  {
  }

  /** An empty reason is kept by `??` but is falsy, so neither it nor the hint is written. */
  lemma EmptyReasonHidesHint(input: ErrorInput)
    requires input.reason == Some("")
    ensures BuildErrorMessage(input) == MessagePrefix(input) + "."
  {
  }

  /** The reasons extracted from a payload are never empty, so with one the message always
      ends in that reason. */
  lemma ExtractedReasonAlwaysShown(input: ErrorInput, payload: Json)
    requires input.reason == ExtractReason(payload) && input.reason.Some?
    ensures BuildErrorMessage(input) == MessagePrefix(input) + ": " + input.reason.value
  {
    ExtractReasonTrimmed(payload);
  }

  /** The message spelled out in terms of the status label and the detail it shows. */
  lemma MessageWithDetail(input: ErrorInput, statusLabel: string, detail: string)
    requires StatusLabel(input.statusText) == statusLabel
    requires ReasonOrHint(input) == Some(detail) && detail != ""
    ensures BuildErrorMessage(input) ==
      "Failed to " + input.action + " (" + IntToString(input.status) + " " + statusLabel + ") on " + input.endpoint +
      ": " + detail
  {
  }

  /** The message fixtures of the unit tests: a reason Spotify gave, ... */
  lemma ReasonMessageExample(input: ErrorInput)
    requires input == ErrorInput("retrieve playlists", 403, "Forbidden", "/v1/me/playlists",
      Some("Insufficient client scope"), None)
    ensures BuildErrorMessage(input) ==
      "Failed to retrieve playlists (403 Forbidden) on /v1/me/playlists: " + "Insufficient client scope"
  {
    assert IntToString(403) == "403";
    assert !AllWhitespace("Forbidden") by { assert !IsJsWhitespace("Forbidden"[0]); }
    MessageWithDetail(input, "Forbidden", "Insufficient client scope");
    ReasonHead(input.action, IntToString(403));
    ReasonTail(input.statusText, input.endpoint);
  }

  lemma ReasonHead(action: string, code: string)
    requires action == "retrieve playlists" && code == "403"
    ensures "Failed to " + action + " (" + code + " " == "Failed to retrieve playlists (403 "
  {
    ReasonAction(action);
    ReasonCode(code);
  }

  lemma ReasonAction(action: string)
    requires action == "retrieve playlists"
    ensures "Failed to " + action + " (" == "Failed to retrieve playlists ("
  {
  }

  lemma ReasonCode(code: string)
    requires code == "403"
    ensures "Failed to retrieve playlists (" + code + " " == "Failed to retrieve playlists (403 "
  {
  }

  lemma ReasonTail(statusLabel: string, endpoint: string)
    requires statusLabel == "Forbidden" && endpoint == "/v1/me/playlists"
    ensures "Failed to retrieve playlists (403 " + statusLabel + ") on " + endpoint + ": " ==
      "Failed to retrieve playlists (403 Forbidden) on /v1/me/playlists: "
  {
    ReasonLabel(statusLabel);
    ReasonEndpoint(endpoint);
  }

  lemma ReasonLabel(statusLabel: string)
    requires statusLabel == "Forbidden"
    ensures "Failed to retrieve playlists (403 " + statusLabel + ") on " == "Failed to retrieve playlists (403 Forbidden) on "
  {
  }

  lemma ReasonEndpoint(endpoint: string)
    requires endpoint == "/v1/me/playlists"
    ensures "Failed to retrieve playlists (403 Forbidden) on " + endpoint + ": " ==
      "Failed to retrieve playlists (403 Forbidden) on /v1/me/playlists: "
  {
  }

  /** ... the hint of a 401 ... */
  lemma UnauthorizedMessageExample(input: ErrorInput)
    requires input == ErrorInput("search tracks", 401, "Unauthorized", "/v1/search", None, None)
    ensures BuildErrorMessage(input) ==
      "Failed to search tracks (401 Unauthorized) on /v1/search: " + HINT_UNAUTHORIZED
  {
    assert IntToString(401) == "401";
    assert !AllWhitespace("Unauthorized") by { assert !IsJsWhitespace("Unauthorized"[0]); }
    MessageWithDetail(input, "Unauthorized", HINT_UNAUTHORIZED);
    UnauthorizedHead(input.action, IntToString(401));
    UnauthorizedTail(input.statusText, input.endpoint);
  }

  lemma UnauthorizedHead(action: string, code: string)
    requires action == "search tracks" && code == "401"
    ensures "Failed to " + action + " (" + code + " " == "Failed to search tracks (401 "
  {
    UnauthorizedAction(action);
    UnauthorizedCode(code);
  }

  lemma UnauthorizedAction(action: string)
    requires action == "search tracks"
    ensures "Failed to " + action + " (" == "Failed to search tracks ("
  {
  }

  lemma UnauthorizedCode(code: string)
    requires code == "401"
    ensures "Failed to search tracks (" + code + " " == "Failed to search tracks (401 "
  {
  }

  lemma UnauthorizedTail(statusLabel: string, endpoint: string)
    requires statusLabel == "Unauthorized" && endpoint == "/v1/search"
    ensures "Failed to search tracks (401 " + statusLabel + ") on " + endpoint + ": " ==
      "Failed to search tracks (401 Unauthorized) on /v1/search: "
  {
    UnauthorizedLabel(statusLabel);
    UnauthorizedEndpoint(endpoint);
  }

  lemma UnauthorizedLabel(statusLabel: string)
    requires statusLabel == "Unauthorized"
    ensures "Failed to search tracks (401 " + statusLabel + ") on " == "Failed to search tracks (401 Unauthorized) on "
  {
  }

  lemma UnauthorizedEndpoint(endpoint: string)
    requires endpoint == "/v1/search"
    ensures "Failed to search tracks (401 Unauthorized) on " + endpoint + ": " ==
      "Failed to search tracks (401 Unauthorized) on /v1/search: "
  {
  }

  /** ... and the retry window of a 429. */
  lemma RateLimitMessageExample(input: ErrorInput)
    requires input == ErrorInput("retrieve saved tracks", 429, "Too Many Requests", "/v1/me/tracks", None, Some(7))
    ensures BuildErrorMessage(input) ==
      "Failed to retrieve saved tracks (429 Too Many Requests) on /v1/me/tracks: " +
      "Rate limited by Spotify. Retry in about 7s."
  {
    assert IntToString(429) == "429" && IntToString(7) == "7";
    assert !AllWhitespace("Too Many Requests") by { assert !IsJsWhitespace("Too Many Requests"[0]); }
    MessageWithDetail(input, "Too Many Requests", RateLimitedHint(7));
    RateLimitHead(input.action, IntToString(429));
    RateLimitTail(input.statusText, input.endpoint);
    RateLimitHintText(IntToString(7));
  }

  lemma RateLimitHintText(seconds: string)
    requires seconds == "7"
    ensures "Rate limited by Spotify. Retry in about " + seconds + "s." == "Rate limited by Spotify. Retry in about 7s."
  {
  }

  lemma RateLimitHead(action: string, code: string)
    requires action == "retrieve saved tracks" && code == "429"
    ensures "Failed to " + action + " (" + code + " " == "Failed to retrieve saved tracks (429 "
  {
    RateLimitAction(action);
    RateLimitCode(code);
  }

  lemma RateLimitAction(action: string)
    requires action == "retrieve saved tracks"
    ensures "Failed to " + action + " (" == "Failed to retrieve saved tracks ("
  {
  }

  lemma RateLimitCode(code: string)
    requires code == "429"
    ensures "Failed to retrieve saved tracks (" + code + " " == "Failed to retrieve saved tracks (429 "
  {
  }

  lemma RateLimitTail(statusLabel: string, endpoint: string)
    requires statusLabel == "Too Many Requests" && endpoint == "/v1/me/tracks"
    ensures "Failed to retrieve saved tracks (429 " + statusLabel + ") on " + endpoint + ": " ==
      "Failed to retrieve saved tracks (429 Too Many Requests) on /v1/me/tracks: "
  {
    RateLimitLabel(statusLabel);
    RateLimitEndpoint(endpoint);
  }

  lemma RateLimitLabel(statusLabel: string)
    requires statusLabel == "Too Many Requests"
    ensures "Failed to retrieve saved tracks (429 " + statusLabel + ") on " ==
      "Failed to retrieve saved tracks (429 Too Many Requests) on "
  {
  }

  lemma RateLimitEndpoint(endpoint: string)
    requires endpoint == "/v1/me/tracks"
    ensures "Failed to retrieve saved tracks (429 Too Many Requests) on " + endpoint + ": " ==
      "Failed to retrieve saved tracks (429 Too Many Requests) on /v1/me/tracks: "
  {
  }

  // ---------------------------------------------------------------------------------------
  // SpotifyHttpError

  /** The fields a `SpotifyHttpError` carries; the status text is only used in the message. */
  datatype SpotifyHttpError = SpotifyHttpError(
    name: string,
    message: string,
    status: int,
    endpoint: string,
    action: string,
    reason: Option<string>,
    retryAfterSeconds: Option<int>)

  /** `new SpotifyHttpError(input)`. */
  function NewSpotifyHttpError(input: ErrorInput): (e: SpotifyHttpError)
    ensures e.name == "SpotifyHttpError"
    ensures e.status == input.status && e.endpoint == input.endpoint && e.action == input.action
    ensures e.reason == input.reason && e.retryAfterSeconds == input.retryAfterSeconds
    ensures e.message == BuildErrorMessage(input)
  {
    SpotifyHttpError("SpotifyHttpError", BuildErrorMessage(input), input.status, input.endpoint,
      input.action, input.reason, input.retryAfterSeconds)
  }
}
