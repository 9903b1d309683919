# musicscan's Spotify layer in Dafny

musicscan prints music-quiz cards from the user's Spotify library and scans them back. This
project models the part of it that talks to Spotify and turns what comes back into cards:

- the Web API fetchers, as imperative Dafny (`SpotifyApi`). This covers the offset/limit
  pagination loop shared by the listings, the two searches, and the album loader. For a
  compilation, the album loader resolves every track by a search run on a pool of at most
  five workers that write into index-addressed slots;
- the OAuth 2.0 authorization-code flow with PKCE (section 4.1 and section 6 of RFC 6749,
  sections 4.1 and 4.2 of RFC 7636), as a class over the browser's two key/value stores
  (`SpotifyAuth.AuthStore`), with the text form of the stored token record (`AuthCodec`);
- the error layer: reason extraction, status hints and message templates (`SpotifyErrors`),
  and the request wrapper with its endpoint, `Retry-After` and payload parsing
  (`SpotifyRequest`);
- the encoders and parsers: base64url without padding (section 5 of RFC 4648), the code
  verifier and the S256 challenge (`SpotifyUtils`), the scan parser for `spotify:track:ID`
  and `open.spotify.com/track/ID` (`SpotifyParser`), and the card builder (`CardBuilder`);
- the state of the library hook, with its first-seen merge of track lists
  (`MusicLibrary.Library`);
- the selector component's handlers, summary and card ordering (`LibrarySelector`);
- the countdown hook as a one-cell class stepped by its timer (`Countdown.Countdown`).

Supporting modules model the JavaScript built-ins the code relies on:

- `JsText`: `trim`, `join`, `parseInt` and number-to-string;
- `Json`: values, `String(v)` and truthiness;
- `TextEncoding`: `TextEncoder` and the `URLSearchParams` serialiser, together with a
  parser that reads its output back;
- `Wrappers`: `Option`, `Result` and the `filter(x => x !== null)` idiom.

Everything outside the program is a parameter of the operation that uses it:

- each `fetch` is a function from the request to a decoded response;
- the random bytes are a sequence;
- SHA-256 is an uninterpreted function;
- the clock is an integer `now`;
- `JSON.parse` is a function from text to an optional value;
- the order in which workers finish is a scheduling function.

## Model

| member | source | states |
|---|---|---|
| Wrappers.FilterSomeMembers | src/spotify/spotifyApi.ts:304 | The null-filtered list holds a value exactly when some entry is that value. |
| Wrappers.FilterSomeAll | src/spotify/spotifyApi.ts:42-46 | A list with no missing entries loses none: same length, and entry i is the i-th value. |
| Wrappers.FilterSomeSnoc | src/spotify/spotifyApi.ts:87 | Filtering one more entry adds its value when present and nothing otherwise; with the empty case this fixes the filter, order and repeats included. |
| JsText.TrimPadded | src/spotify/spotifyParser.ts:13 | `trim` ignores any whitespace added on either side. |
| JsText.Trim | src/spotify/spotifyParser.ts:13 | `trim` never lengthens, and what it returns neither starts nor ends with whitespace. |
| JsText.TrimOfTrimmed | src/spotify/spotifyErrors.ts:40 | Text without whitespace at either end is its own trim. |
| JsText.TrimEmpty | src/spotify/spotifyErrors.ts:40 | A string trims to "" exactly when it is all whitespace. |
| JsText.TrimIdempotent | src/spotify/spotifyErrors.ts:45-46 | Trimming twice is trimming once. |
| JsText.NatToStringInjective | src/hooks/useCardBuilder.ts:15 | Different indexes have different decimal forms. |
| JsText.NatToString | src/hooks/useCardBuilder.ts:15 | A number's decimal text is a non-empty run of digits with no leading zero. |
| JsText.IntToString | src/spotify/spotifyAuth.ts:38 | An integer's text is its digits, after a `-` when it is negative. |
| JsText.ParseIntOfIntToString | src/spotify/spotifyRequest.ts:25 | `parseInt(s, 10)` reads back any integer's decimal form, whatever non-digit text follows. |
| JsText.ParseIntOfDigits | src/hooks/useCardBuilder.ts:18 | A run of digits followed by a non-digit is read as its value. |
| JsText.ParseIntOfMinus | src/spotify/spotifyRequest.ts:25-26 | After a minus sign, `parseInt` reads the digits that follow, negated; with no digits it gives NaN. |
| JsText.ParseIntOfNegatedDigits | src/spotify/spotifyRequest.ts:25 | A minus sign, digits and then a non-digit read as the negated value of the digits. |
| Json.Get | src/spotify/spotifyErrors.ts:39 | A property lookup finds a value exactly when the value is an object with that key, and then finds that key's value. |
| Json.ToJsString | src/spotify/spotifyApi.ts:81-82 | `String(v)` of a string is that string. |
| TextEncoding.Utf8OfAscii | src/spotify/spotifyUtils.ts:38 | `TextEncoder` maps ASCII text to one byte per character, that character's code. |
| TextEncoding.FormEncode | src/spotify/spotifyAuth.ts:98-105 | An encoded name or value never holds `&`, `=` or a space, so the pairs of a query stay apart. |
| TextEncoding.DecodeEncodeBytes | src/spotify/spotifyAuth.ts:98-105 | Percent-decoding the form encoding of any bytes gives those bytes back. |
| TextEncoding.SplitJoin | src/hooks/useCardBuilder.ts:12 | Splitting on a separator that no part holds gives back the parts that were joined. |
| TextEncoding.FormDecodeEncode | src/spotify/spotifyAuth.ts:98-105 | The form parser recovers exactly the UTF-8 bytes of every serialised name or value. |
| TextEncoding.ParseQueryString | src/spotify/spotifyAuth.ts:131-137 | A serialised `URLSearchParams` reads back as exactly its names and values, in order. |
| SpotifyUtils.Base64UrlEncodeIsUnpadded | src/spotify/spotifyUtils.ts:12-15 | Standard base64 with `+`→`-`, `/`→`_` and trailing `=` removed equals the unpadded base64url reference encoding of section 5 of RFC 4648. |
| SpotifyUtils.Base64UrlEncodeShape | src/spotify/spotifyUtils.ts:14 | The output uses only `[A-Za-z0-9_-]` and has length 4·(n/3) plus 0, 2 or 3 for n mod 3 = 0, 1, 2. |
| SpotifyUtils.Base64UrlEncodeExample | tests/unit/spotify/spotifyUtils.test.ts:13-14 | The bytes 116, 101, 115, 116 encode to "dGVzdA". |
| SpotifyUtils.UrlSafeOfPadded | src/spotify/spotifyUtils.ts:14 | After the two replacements, the padded encoding is the reference encoding followed by the padding. |
| SpotifyUtils.StripEquals | src/spotify/spotifyUtils.ts:14 | `.replace(/=+$/, "")` removes exactly the padding from text that does not itself end in `=`. |
| SpotifyUtils.StripTrailingEquals | src/spotify/spotifyUtils.ts:14 | The result is a prefix of the input that does not end in `=`, and everything it drops is `=`. |
| SpotifyUtils.MakeUrlSafe | src/spotify/spotifyUtils.ts:14 | The replacement keeps the length and maps each character on its own. |
| SpotifyUtils.CodeVerifierShape | src/spotify/spotifyUtils.ts:24-28 | A verifier has exactly the requested length, uses only `[A-Za-z0-9_-]`, and is the length-prefix of the encoding of the random bytes. |
| SpotifyUtils.DefaultVerifierIsValid | src/spotify/spotifyUtils.ts:24 | The default length 96 gives a verifier that meets `43*128unreserved` of section 4.1 of RFC 7636. |
| SpotifyUtils.CodeChallengeShape | src/spotify/spotifyUtils.ts:37-41 | A 32-byte digest gives a 43-character URL-safe challenge. |
| SpotifyUtils.CodeChallengeAppendixB | tests/unit/spotify/spotifyUtils.test.ts:24-25 | Any SHA-256 that maps the Appendix B verifier of RFC 7636 to the published digest yields the published challenge. |
| SpotifyParser.AlnumRun | src/spotify/spotifyParser.ts:16 | The greedy `[A-Za-z0-9]+` takes the longest alphanumeric prefix, so the next character is not alphanumeric. |
| SpotifyParser.FirstUrlMatch | src/spotify/spotifyParser.ts:20 | Finds the first position from p at which the link expression matches, and none before it. |
| SpotifyParser.UrlMatch | src/spotify/spotifyParser.ts:20-21 | The link expression matches exactly when it matches at some position, and it yields the run at the leftmost one. |
| SpotifyParser.ParseTrackFromScan | src/spotify/spotifyParser.ts:12-24 | A non-null result is a non-empty string over `[A-Za-z0-9]`. |
| SpotifyParser.ParseIgnoresPadding | src/spotify/spotifyParser.ts:13 | Surrounding whitespace never changes the result. |
| SpotifyParser.ParseUri | src/spotify/spotifyParser.ts:16-17 | `spotify:track:`, in any case, followed by an alphanumeric id gives that id. |
| SpotifyParser.MarkerIsNoUri | src/spotify/spotifyParser.ts:16 | No text containing the link marker is a track URI. |
| SpotifyParser.ParseOfNoUri | src/spotify/spotifyParser.ts:20-23 | A trimmed text that is not a URI gives the link expression's result, which is null when it does not match. |
| SpotifyParser.ParseLeftmostLink | src/spotify/spotifyParser.ts:20-21 | A trimmed non-URI text gives the run after the marker at the leftmost matching position. |
| SpotifyParser.UrlMatchLeftmost | src/spotify/spotifyParser.ts:20 | The link expression yields its group at the leftmost matching position. |
| SpotifyParser.LinkMatchesAt | src/spotify/spotifyParser.ts:20 | The marker, an alphanumeric id and then `?`, `/` or the end match at the marker, with the id as the group. |
| SpotifyParser.ParseLink | src/spotify/spotifyParser.ts:20-21 | A link whose text before the marker holds no `o` gives the id when `?`, `/` or the end follows it. |
| SpotifyParser.NoMatchBefore | src/spotify/spotifyParser.ts:20 | No match starts before the first `o`. |
| SpotifyParser.NoMarker | src/spotify/spotifyParser.ts:20 | A text with no `o` early enough for the marker has no link match. |
| SpotifyParser.ParseNothing | src/spotify/spotifyParser.ts:23 | A trimmed non-URI text with no `o` early enough for the marker gives null. |
| SpotifyParser.UriExample | tests/unit/spotify/spotifyParser.test.ts:6 | "spotify:track:1A2B3C4D" gives "1A2B3C4D". |
| SpotifyParser.LinkWithQueryExample | tests/unit/spotify/spotifyParser.test.ts:10-12 | A link with a `?si=` query gives its id. |
| SpotifyParser.SlashLinkExample | tests/unit/spotify/spotifyParser.test.ts:16-17 | A link ending in `/` gives its id. |
| SpotifyParser.PaddedLinkExample | tests/unit/spotify/spotifyParser.test.ts:18 | The same link padded with spaces gives the same id. |
| SpotifyParser.AlbumUriExample | tests/unit/spotify/spotifyParser.test.ts:22 | "spotify:album:1234" gives null. |
| SpotifyParser.OtherSiteExample | tests/unit/spotify/spotifyParser.test.ts:23 | A link to another site gives null. |
| SpotifyParser.EmptyExample | tests/unit/spotify/spotifyParser.test.ts:24 | The empty text gives null. |
| CardBuilder.BuildCards | src/hooks/useCardBuilder.ts:9-22 | One card per track, in order. Card i has id `${track.id}-${i}`, track i's name as its title, its artists' names joined with ", ", the year parsed from its release date (0 when there is none) and the URI `spotify:track:` + track i's id. |
| CardBuilder.BuiltCardArtist | src/hooks/useCardBuilder.ts:17 | A card's artist line starts with the track's first artist, and is that name alone for a single-artist track. |
| CardBuilder.BuiltCardYear | src/hooks/useCardBuilder.ts:11-18 | Card i of a track released in a year (`YYYY` or `YYYY-…`) shows that year. |
| CardBuilder.BuiltCardScans | src/hooks/useCardBuilder.ts:19 | Scanning the code on card i gives back track i's id (for an alphanumeric id). |
| CardBuilder.ArtistNames | src/hooks/useCardBuilder.ts:17 | The artist names, one per artist, in order. |
| CardBuilder.CardIdsDistinct | src/hooks/useCardBuilder.ts:15 | Two cards of one build never share an id, even when a track is repeated. |
| CardBuilder.AfterLastDash | src/hooks/useCardBuilder.ts:15 | In `a-d` with no `-` in d, d is determined by the whole text. |
| CardBuilder.ReleaseYearOf | src/hooks/useCardBuilder.ts:11-18 | A release date that is a year, alone or followed by `-…`, gives that year. |
| CardBuilder.YearTextOf | src/hooks/useCardBuilder.ts:11-12 | The text before the first `-` of such a date is the year's digits. |
| CardBuilder.ReleaseYearMissing | src/hooks/useCardBuilder.ts:11-18 | No release date, or a date starting with a letter, gives year 0. |
| CardBuilder.CardUriScans | src/hooks/useCardBuilder.ts:19 | Scanning a card's `spotifyUri` gives back its track's id (for an alphanumeric id). |
| Countdown.RunFrom | src/hooks/useCountdown.ts:18-27 | From n > 0, k seconds later the value is n − k until it reaches 0. It then stays at 0, and the callback has run exactly once. |
| Countdown.RunIdle | src/hooks/useCountdown.ts:19-23 | Stopped or at 0, no timer is pending and time changes nothing. |
| Countdown.RunNegative | src/hooks/useCountdown.ts:25 | A negative start counts down without end and never calls the callback. |
| Countdown.CountdownFromThree | tests/unit/hooks/useCountdown.test.ts:10-32 | From 3 the value is 2, 1, 0 on successive seconds, and the callback runs once however long one waits. |
| Countdown.StopAndRestart | tests/unit/hooks/useCountdown.test.ts:40-55 | Stopping from 2 leaves null forever; starting again gives 2, then 1 a second later. |
| Countdown.Countdown.constructor | src/hooks/useCountdown.ts:15-16 | The state starts at `initialSeconds`. The callback has run once when that is 0 and never otherwise. |
| Countdown.Countdown.Set | src/hooks/useCountdown.ts:16-27 | `setCountdown`: setting the held value changes nothing; a new value of 0 runs the callback. |
| Countdown.Countdown.Start | src/hooks/useCountdown.ts:29 | Sets the value back to `initialSeconds`. |
| Countdown.Countdown.Stop | src/hooks/useCountdown.ts:30 | Sets the value to null, after which no timer is pending. |
| Countdown.Countdown.Reset | src/hooks/useCountdown.ts:31 | Sets the value back to `initialSeconds`. |
| Countdown.Countdown.Tick | src/hooks/useCountdown.ts:25 | The pending timer lowers the value by one. |
| SpotifyErrors.StatusHint | src/spotify/spotifyErrors.ts:16-36 | Hints for 401, 403, 429 (with or without a known retry window) and every status from 500 on; null for every other status; a hint is never empty. |
| SpotifyErrors.GetStringProperty | src/spotify/spotifyErrors.ts:38-41 | A string property gives its trimmed, non-empty text. It is skipped only when missing, not a string, or blank. |
| SpotifyErrors.ExtractReasonTrimmed | src/spotify/spotifyErrors.ts:38-47 | An extracted reason is never empty and has no whitespace at either end. |
| SpotifyErrors.ExtractReasonOfString | src/spotify/spotifyErrors.ts:44-47 | A string payload gives its trimmed text, or null when blank. |
| SpotifyErrors.ExtractReasonOfScalar | src/spotify/spotifyErrors.ts:49-51 | null, booleans and numbers give no reason. |
| SpotifyErrors.TopLevelMessageWins | src/spotify/spotifyErrors.ts:53-56 | A non-blank top-level `message` wins over whatever `error` holds. |
| SpotifyErrors.NestedMessage | src/spotify/spotifyErrors.ts:58-63 | Without a usable top-level message, a non-blank `error.message` is the reason. |
| SpotifyErrors.NoMessageNoReason | src/spotify/spotifyErrors.ts:58-61 | An object with neither key gives no reason. |
| SpotifyErrors.NestedExample | tests/unit/spotify/spotifyErrors.test.ts:7 | The nested-message fixture gives "Invalid access token". |
| SpotifyErrors.TopLevelExample | tests/unit/spotify/spotifyErrors.test.ts:11 | The top-level fixture gives "Service unavailable". |
| SpotifyErrors.UnknownShapeExample | tests/unit/spotify/spotifyErrors.test.ts:15-16 | `{ foo: "bar" }` and null give no reason. |
| SpotifyErrors.StatusLabel | src/spotify/spotifyErrors.ts:74 | A blank status text becomes "Unknown Status"; any other is kept untrimmed. |
| SpotifyErrors.ReasonTakesPrecedence | src/spotify/spotifyErrors.ts:75-78 | A non-empty reason always follows the prefix, whatever the status hint. |
| SpotifyErrors.HintWithoutReason | src/spotify/spotifyErrors.ts:75-79 | Without a reason the hint follows the prefix when there is one, and otherwise the message ends in ".". |
| SpotifyErrors.EmptyReasonHidesHint | src/spotify/spotifyErrors.ts:75-79 | A reason of "" is kept by `??` but is falsy, so the message ends in "." and shows no hint. |
| SpotifyErrors.ExtractedReasonAlwaysShown | src/spotify/spotifyErrors.ts:43-79 | A reason extracted from a payload always ends the message. |
| SpotifyErrors.MessageWithDetail | src/spotify/spotifyErrors.ts:77-78 | The message is `Failed to {action} ({status} {label}) on {endpoint}: {detail}`. |
| SpotifyErrors.ReasonMessageExample | tests/unit/spotify/spotifyErrors.test.ts:22-33 | The 403 fixture's message, with Spotify's reason. |
| SpotifyErrors.UnauthorizedMessageExample | tests/unit/spotify/spotifyErrors.test.ts:37-47 | The 401 fixture's message, with the expired-token hint. |
| SpotifyErrors.RateLimitMessageExample | tests/unit/spotify/spotifyErrors.test.ts:51-62 | The 429 fixture's message, "Retry in about 7s.". |
| SpotifyErrors.NewSpotifyHttpError | src/spotify/spotifyErrors.ts:89-106 | The error keeps status, endpoint, action, reason and retry window unchanged, is named "SpotifyHttpError", and its message is the built message of the same input. |
| SpotifyRequest.IndexOfAny | src/spotify/spotifyRequest.ts:12 | The first index holding one of the stop characters, or the length. |
| SpotifyRequest.ParseEndpoint | src/spotify/spotifyRequest.ts:10-17 | `new URL` is stood for by a splitter of http(s) URLs; any text it does not split is returned unchanged, as the source returns it when the constructor throws. |
| SpotifyRequest.ParseEndpointOfUrl | src/spotify/spotifyRequest.ts:12-13 | An http(s) URL with a plain host (letters, digits, `-`, `.`; labels starting with a letter and none with `xn--`), a plain path and a query outside the percent-encode set gives its path and query; the scheme, host and fragment are dropped. On these URLs the URL Standard changes nothing. |
| SpotifyRequest.ParseEndpointOfRelative | src/spotify/spotifyRequest.ts:14-15 | A relative path is its own endpoint. |
| SpotifyRequest.SplitAfterSchemeOf | src/spotify/spotifyRequest.ts:12 | The splitter that stands for `new URL` takes host, path, query and fragment apart as they were written. |
| SpotifyRequest.ParseRetryAfter | src/spotify/spotifyRequest.ts:19-27 | An absent or empty header gives null; any other is `parseInt(value, 10)`, with NaN as null. |
| SpotifyRequest.ParseRetryAfterDelay | src/spotify/spotifyRequest.ts:25-26 | A delay-seconds value (section 10.2.3 of RFC 9110) reads as its number. |
| SpotifyRequest.ParseRetryAfterDate | src/spotify/spotifyRequest.ts:25-26 | An HTTP-date value starts with a letter and gives null. |
| SpotifyRequest.ReadResponsePayload | src/spotify/spotifyRequest.ts:29-40 | A blank body gives null, a body `JSON.parse` accepts gives its value, and any other body gives the raw text. |
| SpotifyRequest.RawBodyIsReason | src/spotify/spotifyRequest.ts:29-40 | A non-JSON body is still a reason: its trimmed text. |
| SpotifyRequest.BlankBodyHasNoReason | src/spotify/spotifyRequest.ts:29-40 | A blank body gives no reason, so the message falls back to the hint. |
| SpotifyRequest.MergedHeaders | src/spotify/spotifyRequest.ts:52-55 | The bearer header plus every caller header; without a caller `Authorization`, the bearer one is sent. |
| SpotifyRequest.OutgoingInit | src/spotify/spotifyRequest.ts:50-56 | The caller's other `init` fields pass through unchanged. |
| SpotifyRequest.RequestJson | src/spotify/spotifyRequest.ts:46-74 | A rejected fetch gives exactly the network-error message for the action. An ok response with a parseable body gives that body. A non-ok response gives the HTTP error built from the response. |
| SpotifyRequest.NonOkIsHttpError | src/spotify/spotifyRequest.ts:61-71 | Every non-ok response becomes a `SpotifyHttpError` carrying the response's status, `parseEndpoint(url)`, the action and the parsed `Retry-After`. |
| SpotifyRequest.RateLimitedRequestMessage | src/spotify/spotifyRequest.ts:61-71 | A 429 with a blank body and `Retry-After: n` says to retry in about n seconds. |
| SpotifyRequest.SpotifyErrorBodyMessage | src/spotify/spotifyRequest.ts:61-71 | A JSON body `{ error: { message } }` makes the trimmed message the error's reason and the end of its text. |
| AuthCodec.UnquoteQuote | src/spotify/spotifyAuth.ts:21-39 | A JSON string literal reads back as the string written, whatever follows its closing quote. |
| AuthCodec.Unquote | src/spotify/spotifyAuth.ts:25 | Reading a string literal always consumes text, so the rest is shorter. |
| AuthCodec.ReadInt | src/spotify/spotifyAuth.ts:25 | A number is accepted only when it is exactly the text `JSON.stringify` writes for it. |
| AuthCodec.ReadIntToString | src/spotify/spotifyAuth.ts:21-39 | The integer text `JSON.stringify` writes reads back as the integer. |
| AuthCodec.DecodeEncodeAuth | src/spotify/spotifyAuth.ts:21-39 | Reading back the text written for a record gives the same record, with or without a refresh token. |
| AuthCodec.EncodeAuthNonEmpty | src/spotify/spotifyAuth.ts:21-39 | The written text is never empty, so a written record is never read as "nothing stored". |
| SpotifyAuth.StoredAuthIn | src/spotify/spotifyAuth.ts:21-29 | A missing or empty entry gives null, and so does malformed text; any record returned is what the text decodes to. |
| SpotifyAuth.ReadAfterWrite | src/spotify/spotifyAuth.ts:21-39 | What `writeStoredAuth` writes is what `readStoredAuth` reads next, whatever was stored before. |
| SpotifyAuth.SelectVerifier | src/spotify/spotifyAuth.ts:124-126 | The session verifier if present, else the fallback one; null exactly when neither store has one. |
| SpotifyAuth.AuthorizeUrlCarriesParams | src/spotify/spotifyAuth.ts:98-107 | The URL is the authorize endpoint, whose query reads back as exactly the six parameters in order, with the scopes joined by spaces. |
| SpotifyAuth.ExchangeRequestCarriesParams | src/spotify/spotifyAuth.ts:131-143 | The exchange body reads back as its five parameters. |
| SpotifyAuth.RefreshRequestCarriesParams | src/spotify/spotifyAuth.ts:172-182 | The refresh body reads back as its three parameters. |
| SpotifyAuth.RefreshedAuth | src/spotify/spotifyAuth.ts:188-196 | A refresh stores the new token, the response's refresh token or else the previous one, and expires at now + expires_in·1000. |
| SpotifyAuth.Decide | src/spotify/spotifyAuth.ts:208-223 | Exactly one outcome holds. The cached token is used exactly when now < expiresAt − 30000. A refresh happens exactly when the token is that close to expiry and a refresh token is present. Otherwise the result is null. |
| SpotifyAuth.TokenAfterExchange | src/spotify/spotifyAuth.ts:150-223 | After an exchange, the token is served from the cache until 30 s before expiry. After that, the refresh uses the refresh token the exchange stored, or the result is null without one. |
| SpotifyAuth.RefreshKeepsRefreshToken | src/spotify/spotifyAuth.ts:190 | A refresh response without `refresh_token` keeps the old one for the next refresh. |
| SpotifyAuth.CachedWindow | src/spotify/spotifyAuth.ts:150-215 | A token with `expires_in` seconds stays fresh for `expires_in − 30` seconds. |
| SpotifyAuth.StartedVerifierIsValid | src/spotify/spotifyAuth.ts:92-93 | The verifier start stores meets section 4.1 of RFC 7636, and with a 32-byte digest its challenge is 43 URL-safe characters. |
| SpotifyAuth.AuthStore.constructor | src/spotify/spotifyAuth.ts:21-52 | The stores start as given, and no request has been sent. |
| SpotifyAuth.AuthStore.WriteStoredAuth | src/spotify/spotifyAuth.ts:37-39 | Replaces the whole record and nothing else; the record then reads back. |
| SpotifyAuth.AuthStore.Clear | src/spotify/spotifyAuth.ts:48-52 | Removes the record, the session verifier and the fallback verifier, and nothing else. |
| SpotifyAuth.AuthStore.Start | src/spotify/spotifyAuth.ts:86-108 | Without a configuration it fails and touches nothing. Otherwise it stores the same verifier in both stores and returns the authorize URL carrying that verifier's challenge. |
| SpotifyAuth.AuthStore.StoreVerifier | src/spotify/spotifyAuth.ts:95-96 | The verifier is in both stores and is the one an exchange selects. |
| SpotifyAuth.AuthStore.Send | src/spotify/spotifyAuth.ts:139-143 | One request is recorded, and the storage is untouched. |
| SpotifyAuth.AuthStore.Exchange | src/spotify/spotifyAuth.ts:118-159 | Without a configuration, or without a verifier, it fails and touches nothing. Otherwise it sends exactly one request. A network failure, a non-ok response or an unreadable body leaves storage unchanged. Success stores the new record and returns the token. |
| SpotifyAuth.AuthStore.Refresh | src/spotify/spotifyAuth.ts:168-199 | Null without a client id (no request) or for a non-ok response (no write). Otherwise it sends one request, stores the refreshed record and returns the new token. |
| SpotifyAuth.AuthStore.GetValidAccessToken | src/spotify/spotifyAuth.ts:208-223 | Nothing stored: null. Fresh token: the cached token. No refresh token: null. In these cases it sends no request and changes nothing. Otherwise it returns exactly one refresh's outcome. |
| SpotifyApi.FetchAllPages | src/spotify/spotifyApi.ts:19-52 | Requests offsets 0, limit, 2·limit, … until a page names no next page. The result is the page-order concatenation of each page's kept items. The first request that is rejected or not ok fails the whole listing, and a rejection keeps its own message. |
| SpotifyApi.EndsAtUnique | src/spotify/spotifyApi.ts:50 | A listing ends at one request only. |
| SpotifyApi.FailedPageFailsListing | src/spotify/spotifyApi.ts:28-37 | A rejected or not-ok request anywhere fails the listing, and no partial list is returned. |
| SpotifyApi.FirstFailureFailsListing | src/spotify/spotifyApi.ts:28-37 | The listing fails with the cause of its first failing request: a rejected `fetch` with that rejection's message, a not-ok response as not ok. |
| SpotifyApi.ThrownBy | src/spotify/spotifyApi.ts:28-37 | The message a fetcher ends with: a rejection's own, or the fetcher's fixed message for a not-ok response. |
| SpotifyApi.RejectedFirstPage | src/spotify/spotifyApi.ts:28-37 | A rejected first request ends the fetcher with the rejection's message, not the fetcher's own. |
| SpotifyApi.EmptyPageContinues | src/spotify/spotifyApi.ts:42-50 | An empty page that names a next page adds nothing, and the listing goes on. |
| SpotifyApi.TotalListing | src/spotify/spotifyApi.ts:191-206 | A listing whose extractor keeps every item yields the items mapped one by one, in page order. |
| SpotifyApi.MapSeq | src/spotify/spotifyApi.ts:391-393 | One output per item, the function applied to it. |
| SpotifyApi.OrThrow | src/spotify/spotifyApi.ts:28-37 | A listing that met a not-ok response becomes the fetcher's error, one that met a rejected `fetch` that rejection's error, and a successful one its values. |
| SpotifyApi.GetPlaylistTracks | src/spotify/spotifyApi.ts:13-55 | The page-order listing of `item.track ?? item.item` with nulls dropped, or "Failed to fetch playlist tracks" on a not-ok page, or a rejected `fetch`'s own message. |
| SpotifyApi.GetCurrentUserPlaylists | src/spotify/spotifyApi.ts:316-353 | The page-order listing of the playlists with null items dropped, or "Failed to fetch user playlists" on a not-ok page, or a rejected `fetch`'s own message. |
| SpotifyApi.GetCurrentUserSavedTracks | src/spotify/spotifyApi.ts:363-402 | The page-order listing of each item's `track`, or "Failed to fetch saved tracks" on a not-ok page, or a rejected `fetch`'s own message. |
| SpotifyApi.Search | src/spotify/spotifyApi.ts:66-120 | A rejected `fetch` fails with its own error's message. A non-ok response fails with a message that prefers the body's error message to the status text. An ok response gives exactly `FilterSome` of the hits: the non-null hits in order, repeats kept. |
| SpotifyApi.SearchTracks | src/spotify/spotifyApi.ts:66-88 | The shared search, for tracks. |
| SpotifyApi.SearchAlbums | src/spotify/spotifyApi.ts:98-120 | The shared search, for albums. |
| SpotifyApi.SearchUrlCarriesQuery | src/spotify/spotifyApi.ts:72-76 | The search URL's query reads back as exactly the query and the kind. |
| SpotifyApi.ItemArtists | src/spotify/spotifyApi.ts:195-201 | One artist per listed artist, in order, artist i named `artist.name ?? ""`; no artists when the list is absent. |
| SpotifyApi.InfoMapHasId | src/spotify/spotifyApi.ts:191-206 | Every compilation track id has searchable text. |
| SpotifyApi.InfoMapOnlyIds | src/spotify/spotifyApi.ts:191-206 | Every entry belongs to a listed track id. |
| SpotifyApi.InfoMapLatest | src/spotify/spotifyApi.ts:191-206 | An id's entry is that of the last item with that id. |
| SpotifyApi.CandidateSearchCarriesQuery | src/spotify/spotifyApi.ts:226-235 | The search asks for ten track hits for the name, a space and the artist names joined by spaces. |
| SpotifyApi.FindAlbumRelease | src/spotify/spotifyApi.ts:252-253 | The index of the first hit whose `album_type` is "album", or none when no hit is. |
| SpotifyApi.PickCandidate | src/spotify/spotifyApi.ts:248-257 | Null exactly for no hits. Otherwise it picks the first album release when there is one, and else the first hit. |
| SpotifyApi.ResolveTrack | src/spotify/spotifyApi.ts:219-272 | Null for an unknown id, a failed search or no hits; otherwise the picked hit. It never fails the batch. |
| SpotifyApi.Claim | src/spotify/spotifyApi.ts:284-286 | A worker goes on exactly when the claimed index is in range. |
| SpotifyApi.FirstWaiting | src/spotify/spotifyApi.ts:282-293 | The first worker still waiting on a track, or none when all are done. |
| SpotifyApi.ClaimKeepsWaiting | src/spotify/spotifyApi.ts:284-291 | After a worker finishes its index and claims the next, every claimed index is done or still being waited on. |
| SpotifyApi.RunWorkerPool | src/spotify/spotifyApi.ts:276-304 | min(5, n) workers start. The number of resolutions in flight, recorded at the start and after every completion, is min(5, n) at first and never more than five. The indexes are claimed exactly once, in order. Slot i holds `resolveTrack(ids[i])`. The output is the non-null slots in album order, for every completion order. |
| SpotifyApi.StartWorkers | src/spotify/spotifyApi.ts:296-299 | Worker w starts by claiming index w. |
| SpotifyApi.AllResolved | src/spotify/spotifyApi.ts:300-304 | Once no worker waits, every index has been claimed and every slot holds its resolved track. |
| SpotifyApi.IndexTracks | src/spotify/spotifyApi.ts:191-206 | The track ids in album order, and the map of searchable text with later duplicates winning. |
| SpotifyApi.GetAlbumTracks | src/spotify/spotifyApi.ts:131-305 | The album record is fetched first: a rejected fetch fails with its own message, a not-ok one with "Failed to fetch album info". A regular album's tracks carry the album's own name and date. A compilation's tracks are resolved through the pool. A track page that is rejected or not ok fails with its message or "Failed to fetch album tracks". |
| SpotifyApi.ResolveCompilation | src/spotify/spotifyApi.ts:217-304 | A compilation gives its tracks resolved one by one, unresolved ones dropped, in album order. |
| SpotifyApi.RegularAlbumTracks | src/spotify/spotifyApi.ts:147-215 | A regular album gives one track per listed item, in order, each with the album's name and date. No search is made, so the result does not depend on the search. |
| SpotifyApi.CompilationTracks | src/spotify/spotifyApi.ts:242-301 | Once listed, a compilation never fails, and a failed search only drops its track. An empty compilation gives no tracks. |
| MusicLibrary.FirstIndexOf | src/hooks/useMusicLibrary.ts:134 | The first position of the id. |
| MusicLibrary.DedupIds | src/hooks/useMusicLibrary.ts:129-139 | The merge drops no id and invents none. |
| MusicLibrary.DedupDistinct | src/hooks/useMusicLibrary.ts:134-136 | The merge keeps each id at most once. |
| MusicLibrary.DedupKeepsFirst | src/hooks/useMusicLibrary.ts:134-136 | For each id, the merge keeps its first occurrence. |
| MusicLibrary.DedupKeepsOrder | src/hooks/useMusicLibrary.ts:132-139 | The kept tracks come in the order of their first occurrences. |
| MusicLibrary.MergeCovers | src/hooks/useMusicLibrary.ts:132-139 | Every id of any merged list is in the output. |
| MusicLibrary.MergeFirstSeen | src/hooks/useMusicLibrary.ts:129-139 | The `seen`-set loop computes the first-occurrence merge of the lists, taken in list order and then item order. |
| MusicLibrary.Gather | src/hooks/useMusicLibrary.ts:125-127 | `Promise.all` succeeds exactly when every call does, and then holds their values in order. Otherwise it fails with a failed call's message, the first in list order. |
| MusicLibrary.TrackLists | src/hooks/useMusicLibrary.ts:126 | One load per id, in order. |
| MusicLibrary.LoadMerged | src/hooks/useMusicLibrary.ts:125-141 | The cards of the merged lists, or the error of a failed load; the album load at lines 162-178 is the same. |
| MusicLibrary.PlaylistIds | src/hooks/useMusicLibrary.ts:126 | The ids of the playlists, in order. |
| MusicLibrary.AlbumIds | src/hooks/useMusicLibrary.ts:163 | The ids of the albums, in order. |
| MusicLibrary.SearchGuard | src/hooks/useMusicLibrary.ts:33-54 | Without a token, or with a blank query, a search changes nothing. |
| MusicLibrary.SearchTracksRuns | src/hooks/useMusicLibrary.ts:33-50 | The results are replaced on success and the message recorded on failure. `loading` ends false, and the selections are untouched. |
| MusicLibrary.SearchAlbumsRuns | src/hooks/useMusicLibrary.ts:52-69 | The same, for album results. |
| MusicLibrary.ToggleUserPlaylistsTwice | src/hooks/useMusicLibrary.ts:89-95 | A hidden list is loaded and shown. Toggling again hides it without fetching and keeps what was loaded. |
| MusicLibrary.SelectPlaylistsFailure | src/hooks/useMusicLibrary.ts:142-148 | A failed load gives no cards and the first failing list's message. `loading` is false, and the selection is kept. |
| MusicLibrary.SelectPlaylistsSuccess | src/hooks/useMusicLibrary.ts:116-141 | When every list loads, the cards are built from the first-seen merge and no error remains. |
| MusicLibrary.SelectAlbumsFailure | src/hooks/useMusicLibrary.ts:179-185 | A failed load gives no cards and the first failing list's message. `loading` is false, and the selection is kept. |
| MusicLibrary.SelectAlbumsSuccess | src/hooks/useMusicLibrary.ts:153-178 | When every list loads, the cards are built from the first-seen merge and no error remains. |
| MusicLibrary.LoadSavedTracksOutcome | src/hooks/useMusicLibrary.ts:97-114 | The playlist selection is cleared. A failure gives no cards and records its message; a success gives one card per saved track. |
| MusicLibrary.NoTokenNoLoad | src/hooks/useMusicLibrary.ts:97-158 | Without a token these loads change nothing and give no cards. |
| MusicLibrary.ResetClears | src/hooks/useMusicLibrary.ts:190-199 | Everything returns to its initial value except `loading`, and resetting is idempotent. |
| MusicLibrary.Library.constructor | src/hooks/useMusicLibrary.ts:21-29 | Every collection is empty, with no error, not loading and the list hidden. |
| MusicLibrary.Library.SetSelectedPlaylists | src/hooks/useMusicLibrary.ts:22 | Replaces the playlist selection and nothing else. |
| MusicLibrary.Library.SetSelectedTracks | src/hooks/useMusicLibrary.ts:24 | Replaces the track selection and nothing else. |
| MusicLibrary.Library.SetSelectedAlbums | src/hooks/useMusicLibrary.ts:26 | Replaces the album selection and nothing else. |
| MusicLibrary.Library.Settle | src/hooks/useMusicLibrary.ts:42-47 | After an awaited call, `loading` is false and the error is recorded on failure. |
| MusicLibrary.Library.SearchTracks | src/hooks/useMusicLibrary.ts:33-50 | The new state is the track-search step of the old one. |
| MusicLibrary.Library.SearchAlbums | src/hooks/useMusicLibrary.ts:52-69 | The new state is the album-search step of the old one. |
| MusicLibrary.Library.LoadUserPlaylists | src/hooks/useMusicLibrary.ts:71-87 | Without a token, nothing changes. Otherwise a success shows the loaded list, and a failure records its message. |
| MusicLibrary.Library.ToggleUserPlaylists | src/hooks/useMusicLibrary.ts:89-95 | A shown list is hidden; a hidden one is loaded. |
| MusicLibrary.Library.LoadSavedTracks | src/hooks/useMusicLibrary.ts:97-114 | The new state and the cards are those of the saved-tracks step. |
| MusicLibrary.Library.SelectPlaylists | src/hooks/useMusicLibrary.ts:116-151 | The new state and the cards are those of the playlist-selection step. |
| MusicLibrary.Library.SelectAlbums | src/hooks/useMusicLibrary.ts:153-188 | The new state and the cards are those of the album-selection step. |
| MusicLibrary.Library.Reset | src/hooks/useMusicLibrary.ts:190-199 | The new state is the reset of the old one. |
| LibrarySelector.Without | src/components/spotify/MusicLibrarySelector.tsx:54 | Keeps exactly the entries whose id differs. |
| LibrarySelector.Find | src/components/spotify/MusicLibrarySelector.tsx:76-95 | The first result with the id, or none exactly when no result has it. |
| LibrarySelector.WithoutAppend | src/components/spotify/MusicLibrarySelector.tsx:54 | Filtering keeps the order of what it keeps. |
| LibrarySelector.WithoutAbsent | src/components/spotify/MusicLibrarySelector.tsx:54 | Filtering out an id that no entry has changes nothing. |
| LibrarySelector.TogglePlaylistEffect | src/components/spotify/MusicLibrarySelector.tsx:49-59 | Toggling a selected playlist removes every entry with its id and keeps the others in order. Toggling an unselected one appends it at the end. |
| LibrarySelector.TogglePlaylistTwice | src/components/spotify/MusicLibrarySelector.tsx:49-59 | Toggling an unselected playlist twice restores the selection. |
| LibrarySelector.ToggleFromResultsEffect | src/components/spotify/MusicLibrarySelector.tsx:68-97 | An unknown id leaves the selection unchanged. A known one appends its first result; toggling it again restores the selection. |
| LibrarySelector.ToggleFromResultsSelected | src/components/spotify/MusicLibrarySelector.tsx:70-91 | Toggling a selected track or album removes every entry with its id and keeps the others. |
| LibrarySelector.HandleSelectPlaylist | src/components/spotify/MusicLibrarySelector.tsx:49-59 | Only the playlist selection changes, to its toggle. |
| LibrarySelector.HandleToggleTrack | src/components/spotify/MusicLibrarySelector.tsx:68-83 | Only the track selection changes, toggled against the track results. |
| LibrarySelector.HandleToggleAlbum | src/components/spotify/MusicLibrarySelector.tsx:86-97 | Only the album selection changes, toggled against the album results. |
| LibrarySelector.TotalSelections | src/components/spotify/MusicLibrarySelector.tsx:130-132 | At least each selection's length, and 0 exactly when all three are empty. |
| LibrarySelector.SelectionsDescription | src/components/spotify/MusicLibrarySelector.tsx:134-146 | The push loop yields the non-empty categories' descriptions joined by ", ". |
| LibrarySelector.CountedPlural | src/components/spotify/MusicLibrarySelector.tsx:137-143 | A count ends in "s" exactly when it is more than one. |
| LibrarySelector.CountedStarts | src/components/spotify/MusicLibrarySelector.tsx:137-143 | A count starts with the number and a space. |
| LibrarySelector.DescriptionEmpty | src/components/spotify/MusicLibrarySelector.tsx:134-146 | The description is empty exactly when the total count is 0. |
| LibrarySelector.DescriptionCount | src/components/spotify/MusicLibrarySelector.tsx:136-144 | One description per non-empty selection. |
| LibrarySelector.DescriptionExample | src/components/spotify/MusicLibrarySelector.tsx:134-146 | One playlist and two tracks read "1 playlist, 2 tracks". |
| LibrarySelector.GenerateFromSavedTracks | src/components/spotify/MusicLibrarySelector.tsx:61-66 | The cards reach the callback only when there is at least one. |
| LibrarySelector.GenerateFromAll | src/components/spotify/MusicLibrarySelector.tsx:103-128 | The cards reach the callback only when the combined list is non-empty. |
| LibrarySelector.MergedNothing | src/components/spotify/MusicLibrarySelector.tsx:107-119 | Loading no lists gives no cards. |
| LibrarySelector.GenerateOrder | src/components/spotify/MusicLibrarySelector.tsx:103-128 | When the loads succeed, the cards are playlist cards, then track cards, then album cards, and every selection is kept. |
| LibrarySelector.GenerateWithoutToken | src/components/spotify/MusicLibrarySelector.tsx:103-128 | Without a token only the selected tracks become cards, and the state is unchanged. |
| LibrarySelector.GenerateAfterPlaylistFailure | src/components/spotify/MusicLibrarySelector.tsx:103-128 | A failed playlist load adds no cards, and a later successful album load clears its error. |

## Left out

- I/O:
  - `fetch`, `localStorage`/`sessionStorage`, `Date.now`, `crypto.getRandomValues` and SHA-256 are parameters, as listed above.
  - JSON decoding of the API responses is done by the oracle, so the responses arrive already typed.
- `getSpotifyConfig`: it reads build-time environment variables, so configuration is modelled as two optional strings.
- `getSpotifyCallbackCode` and `clearSpotifyCallbackParams`: they only read and rewrite `window.location` and the browser history.
- Asynchrony:
  - `await` is not modelled; each operation runs from its start to its end in one step.
  - The worker pool is modelled as an explicit event loop whose completion order is a parameter. Real timing is not modelled.
  - `Promise.all` is taken to report the first failing call in list order. The real one reports whichever call fails first in time.
- React:
  - The intermediate renders, `loading` while a call is under way, and state batching are not observable in the model.
  - Stale closures are not modelled.
  - The countdown effect re-running because the identity of `onComplete` changes is not modelled.
  - In the countdown, each pending timer fires once per modelled second.
- SpotifyApi.FetchAllPages: termination is a precondition. The caller names, as a ghost argument, the request after which the server stops naming a next page; a server that never stops is not modelled.
- Text outside the program's own output:
  - `AuthCodec` reads exactly the text `JSON.stringify` writes for the record. Hand-edited or differently ordered JSON in storage is read as malformed, although `JSON.parse` would accept it.
  - A token response with `"refresh_token": null` is stored by the source with `"refreshToken":null`. The model maps that null to an absent refresh token, so it writes the record without the key. Both read back the same, since a missing key and null are treated alike, but the stored text differs.
  - Numbers are integers: a fractional `expires_in` and precision loss above 2^53 are not modelled.
- SpotifyRequest.ParseEndpoint: `new URL` is not modelled in full. The model splits http(s) URLs as written, without the URL Standard's normalisation, so it departs from the source on other inputs:
  - non-special schemes such as `spotify:track:abc` parse in the source but come back unchanged in the model;
  - dot segments are removed and spaces percent-encoded by the source, and a backslash is read as `/`;
  - hosts the source rejects (a space, an out-of-range port, an invalid IPv4 address) still split in the model;
  - leading or trailing spaces and controls are stripped by the source.
  The URLs the code builds are already-encoded https API URLs, on which the two agree.
- SpotifyRequest.ParseEndpointOfUrl: stated only for plain hosts, paths and queries, where the splitter and `new URL` agree.
- SpotifyRequest.SplitAfterSchemeOf: a statement about the splitter; `new URL` agrees with it only on the inputs of `SpotifyRequest.ParseEndpointOfUrl`.
- `console.warn` in the compilation resolver has no effect in the model.
- Strings: a JavaScript string is a sequence of UTF-16 code units, but the model's `string` is a sequence of Unicode scalar values. So the model does not capture that `.length` counts an astral character as two, that a string may hold lone surrogates, or what `JSON.stringify`, `encodeURIComponent` and `URLSearchParams` do with lone surrogates.
- SpotifyApi.Search: the message of a body that is not JSON, when `response.json()` itself throws, is not modelled. The model takes the decoded `error.message` as given.
- SpotifyParser.ParseTrackFromScan: case-insensitive matching folds ASCII letters only, as a non-Unicode regular expression does.
- Behaviours of the code that its names alone do not suggest. The model follows the code in each:
  - A caller's own `Authorization` header overrides the bearer header, because it is spread after it (`SpotifyRequest.MergedHeaders`).
  - A successful exchange leaves the PKCE verifier in both stores.
  - The link form of the scan parser matches at any later position, not only at the first `open.spotify.com/track/`, because the expression is unanchored.
  - A session verifier that is present but empty wins over the fallback, because `??` skips only null, and the exchange then fails for a missing verifier.
  - A reason of "" is kept by `??` but is falsy, so the message shows neither reason nor hint (`SpotifyErrors.EmptyReasonHidesHint`).
  - A later item with the same track id replaces the earlier one's searchable text (`SpotifyApi.InfoMapLatest`).
  - The `!== null` filter in `loadUserPlaylists` is the identity, because the fetcher already dropped null playlists.
  - In generate-from-all, a playlist error is cleared by the album load that follows (`LibrarySelector.GenerateAfterPlaylistFailure`).
