# Nightbot song-request plugin for OBS: a verified model of its core

This project models the three components that sit behind the Qt and OBS glue of
the Nightbot song-request plugin. Each operation is stated against a
specification, and the properties are proved in Dafny.

- **NightbotAuth** (`auth.dfy`) is the OAuth2 login.
  - `Authenticate` binds a loopback server on port 8921, starts a 30-second timeout and a one-second countdown, and opens the authorization page. That page is `response_type`, `client_id`, `redirect_uri` and `scope`, in that order (section 4.1.1 of RFC 6749).
  - The request handler reads one request line: method SP target (section 3 of RFC 9112). It maps "+" to a space, percent-decodes the target (section 2.1 of RFC 3986) and dispatches:
    - `POST /token` with a body stores the tokens;
    - a `GET` whose query has `error` reports a failure, with the reason taken from `error_description` and falling back to `error` (section 4.1.2.1 of RFC 6749);
    - `OPTIONS` replies 204;
    - anything else replies 404.
  - `RefreshToken` trades the refresh token at the backend. `ClearTokens` forgets the login. The timer slots end the login or count it down.
  - The object is a class whose fields are the two tokens, the countdown, the listening flag and the two timer-armed flags. Everything it does to the outside world is recorded in a `trace` of effects: signals emitted, responses written with their status, disconnects and the URL opened.
- **NightbotAPI** (`api.dfy`) is the REST client.
  - `PerformRequest` refuses to run without a token. It builds the header list one header at a time, with the bearer header first, attaches a body only for POST and PUT, and turns a transfer failure into status -1.
  - The command requests: play, pause, skip, delete, promote and enable/disable.
  - The user-name lookup.
  - The song queue: the current song at position 0, then the queue entries with their `_position`. The list is sorted in place on an array by ascending position.
- **SettingsManager** (`settings.dfy`) is the flat key-value settings document.
  - The document is a `map` field, and the settings file is a second field that `Save` copies the document into.
  - `Load` creates the defaults when there is no file. Every setter except `SetHotkeyData` writes through to the file.

The supporting modules are:
- `strings.dfy`: the Qt string and URL operations the handler relies on. These are `indexOf`, `split`, the one-character `replace`, `QUrl::fromPercentEncoding`, the query of a URL, and QUrlQuery's items and `queryItemValue`.
- `json.dfy`: parsed JSON values and the Qt accessors with their defaults.
- `curl.dfy`: the outcome of a libcurl transfer.
- `wrappers.dfy`: `Option`.

The following are inputs of the operations that use them:
- the network;
- the bind result of the server;
- the request text a socket delivers;
- the timer events;
- the JSON parser, as a function `string -> Option<Json>`;
- the localized placeholder user name.

## Code and design notes

The model follows the code, including where its behaviour is not what one might expect from an OAuth client:

- **No retry on 401.** One might expect a rejected token to be refreshed and the request retried. `PerformRequest` (src/nightbot-api.cpp:35-85) has no retry, and no call path refreshes the token. No retry is modelled.
- **No exactly-once terminal event.** One might expect every login to end in exactly one `authenticationFinished`. The code does not guarantee this:
  - a preflight (`OPTIONS`) or a 404 closes the server after the timers were stopped, and reports nothing (`PreflightEndsSilently`);
  - a malformed request line leaves the server listening with both timers stopped (`MalformedLeavesServerOpen`). The timeout can no longer fire, so only a later request on a new connection can report.

  The model proves at most one `authenticationFinished` per handled request instead (`AtMostOneFinishedPerRequest`).
- **A failed `/token` POST can still change the access token.** `access_token = data["access_token"]` runs before the conversion of `refresh_token`. A body whose refresh token is not a string therefore replies 400 and reports failure, but by then the in-memory access token has already been replaced. Nothing is saved. This is `ReadTokens`' `AccessOnly` case.
- **A `type_error` escapes `RefreshToken`.** Only a parse error is caught there (src/nightbot-auth.cpp:163). A token value that is not a string throws out of the method. This is `TypeErrorEscaped`.
- **`FetchSongQueue` takes no argument.** It is declared with a `QString` parameter (src/nightbot-api.h:25), but its definition takes none and uses a localized string for the current song's missing user. The model takes that text as the parameter `playlistUser`.

## Model

| member | source | states |
|---|---|---|
| Settings.Defaults | src/SettingsManager.cpp:26-33 | the first-run document has exactly the five setting keys |
| Settings.Put | src/SettingsManager.cpp:64-68 | setting a key on a document leaves a document that maps the key to the value and keeps every other key; on no document it does nothing |
| Settings.StringAt | src/SettingsManager.cpp:70-77 | a string getter reads "" when no document is loaded |
| Settings.BoolAt | src/SettingsManager.cpp:109-112 | the bool getter is true only when a stored bool true is present |
| Settings.IntAt | src/SettingsManager.cpp:120-123 | the integer getter is non-zero only when that integer is stored |
| Settings.ArrayAt | src/SettingsManager.cpp:131-134 | the array getter returns an array only when one is stored under the key |
| Settings.Wrap32 | src/SettingsManager.cpp:120-123 | narrowing the stored 64-bit value to int keeps any value that fits and otherwise agrees with it modulo 2^32 |
| Settings.PutIsolation | src/SettingsManager.cpp:64-129 | after a set, the key reads the new value, and every other key reads what it read before |
| Settings.DefaultsRead | src/SettingsManager.cpp:20-35 | the default document reads empty tokens and user name, auto refresh on, and interval 5 |
| Settings.SettingsManager.constructor | src/SettingsManager.h:46-48 | a new manager has no document loaded |
| Settings.SettingsManager.Load | src/SettingsManager.cpp:20-35 | the document is the settings file when there is one, otherwise the defaults; the file is not written |
| Settings.SettingsManager.Save | src/SettingsManager.cpp:37-62 | without a document nothing is written; otherwise the file becomes the document |
| Settings.SettingsManager.SetAndSave | src/SettingsManager.cpp:64-68 | the document gets the key and the file then equals the document |
| Settings.SettingsManager.SetAccessToken | src/SettingsManager.cpp:64-77 | write-through: the document and the file hold the token, and the getter returns it |
| Settings.SettingsManager.SetRefreshToken | src/SettingsManager.cpp:79-92 | write-through: the document and the file hold the token, and the getter returns it |
| Settings.SettingsManager.SetUserName | src/SettingsManager.cpp:94-107 | write-through: the document and the file hold the name, and the getter returns it |
| Settings.SettingsManager.SetAutoRefreshEnabled | src/SettingsManager.cpp:125-129 | write-through: the getter returns the flag once a document is loaded |
| Settings.SettingsManager.SetAutoRefreshInterval | src/SettingsManager.cpp:114-123 | write-through: the getter returns the interval once a document is loaded |
| Settings.SettingsManager.SetHotkeyData | src/SettingsManager.cpp:136-139 | hotkey data changes the document but not the file |
| Settings.SettingsManager.GetAccessToken | src/SettingsManager.cpp:70-77 | "" before Load; a non-empty token is the string stored under `access_token` |
| Settings.SettingsManager.GetRefreshToken | src/SettingsManager.cpp:85-92 | "" before Load; a non-empty token is the string stored under `refresh_token` |
| Settings.SettingsManager.GetNightUserName | src/SettingsManager.cpp:100-107 | "" before Load; a non-empty name is the string stored under `user_name` |
| Settings.SettingsManager.GetAutoRefreshEnabled | src/SettingsManager.cpp:109-112 | true only when the bool true is stored under `auto_refresh_enabled` |
| Settings.SettingsManager.GetAutoRefreshInterval | src/SettingsManager.cpp:120-123 | 0 when nothing is stored; the stored integer when it fits in an int; non-zero only when an integer is stored |
| Settings.SettingsManager.GetHotkeyData | src/SettingsManager.cpp:131-134 | none before Load; an array only when one is stored under the key |
| Settings.TokenSurvivesRestart | src/SettingsManager.cpp:20-68 | a token set in one run is read back by the next run, which loads the file the first run left |
| Settings.GettersBeforeLoad | src/SettingsManager.cpp:70-107 | before Load every string getter reads "", whatever the file holds |
| Settings.FirstRunDefaults | src/SettingsManager.cpp:20-35 | with no settings file the getters read empty tokens and user, auto refresh on, and interval 5 |
| Json.Field | src/nightbot-api.cpp:162-186 | reading a missing key of an object gives a value of no type |
| Json.AsString | src/nightbot-api.cpp:162-186 | a value that is not a string reads as "" |
| Json.AsInt | src/nightbot-api.cpp:167-181 | `toInt` always gives a 32-bit value, and gives the number itself when it fits |
| Json.AsBool | src/nightbot-api.cpp:155 | `toBool` is true only for the JSON value true |
| Json.AsObject | src/nightbot-api.cpp:160-178 | a value that is not an object reads as the empty object |
| Json.AsArray | src/nightbot-api.cpp:176 | a value that is not an array reads as the empty array |
| Strings.IndexOf | src/nightbot-auth.cpp:249 | a match that is found lies inside the string |
| Strings.IndexOfIsFirst | src/nightbot-auth.cpp:249 | `indexOf` finds the first occurrence of the pattern, and finds none exactly when the pattern does not occur |
| Strings.FirstOccurrenceIsIndexOf | src/nightbot-auth.cpp:249 | the first occurrence is what `indexOf` returns |
| Strings.IndexOfShift | src/nightbot-auth.cpp:249 | a prefix with no match in it moves the first match by its length |
| Strings.IndexOfAfter | src/nightbot-auth.cpp:215 | a pattern whose first character the prefix lacks is found right after the prefix |
| Strings.IndexOfAbsentHead | src/nightbot-auth.cpp:249-250 | a string without the pattern's first character has no match (indexOf is -1) |
| Strings.Split | src/nightbot-auth.cpp:223 | `split` yields at least one part, no part contains the separator, and joining the parts gives the string back |
| Strings.SplitOfJoin | src/nightbot-auth.cpp:223 | splitting the join of separator-free parts gives back the parts |
| Strings.SplitAfterPiece | src/nightbot-auth.cpp:223-229 | a separator-free first piece is the first part, and the rest splits as before |
| Strings.SplitManyIffSeparator | src/nightbot-auth.cpp:223-224 | a string has two or more parts exactly when it contains the separator |
| Strings.SplitWithoutSeparator | src/nightbot-auth.cpp:223 | a string without the separator is a single part |
| Strings.ReplaceChar | src/nightbot-auth.cpp:233 | replacing "+" by a space keeps the length and every other character, puts a space at every position that held "+", and leaves no "+" |
| Strings.HexDigit | src/nightbot-auth.cpp:234 | each digit value has a hex digit that reads back as that value |
| Strings.PercentDecode | src/nightbot-auth.cpp:234 | decoding never makes the text longer |
| Strings.EncodedCharacters | src/nightbot-auth.cpp:234 | an encoded value holds only unreserved characters and "%" |
| Strings.DecodeOfEncodedOctet | src/nightbot-auth.cpp:234 | one encoded octet decodes to that octet, whatever follows |
| Strings.DecodeOfEncodeThen | src/nightbot-auth.cpp:234 | an encoded prefix decodes to its octets, whatever follows |
| Strings.DecodeOfEncode | src/nightbot-auth.cpp:234 | decoding inverts percent-encoding |
| Strings.DecodeOfPlainThen | src/nightbot-auth.cpp:234 | text without "%" decodes to itself, whatever follows |
| Strings.DecodeOfEncodedPair | src/nightbot-auth.cpp:234 | a two-item query with encoded values decodes to the query of the values as text |
| Strings.Before | src/nightbot-auth.cpp:235 | the text before the first occurrence of a character does not contain that character, and is the whole text when the character is absent |
| Strings.QueryItemsOfRender | src/nightbot-auth.cpp:236 | items without "&", "#", or "=" in a key are read back, in order, from the query they render to |
| Strings.QueryOfUrl | src/nightbot-auth.cpp:235-236 | the query of "base?rendered items" reads back as those items |
| Strings.KeyValueOfRendered | src/nightbot-auth.cpp:236 | "key=value" with no "=" in the key reads as that key and value |
| Strings.FirstValueIsFirst | src/nightbot-auth.cpp:283 | `queryItemValue` takes the value of the first item with the key, and finds none exactly when no item has the key |
| Strings.ItemValue | src/nightbot-auth.cpp:283-285 | a missing key reads as "" |
| Strings.ItemValueAt | src/nightbot-auth.cpp:283-285 | the value read is that of the first item carrying the key |
| Strings.QueryOf | src/nightbot-auth.cpp:235-236 | the query of a URL: the text after the first "?" and before any "#", empty without "?"; QueryOfUrl is its round trip |
| Strings.KeyValue | src/nightbot-auth.cpp:236 | one piece splits at its first "=", a piece without one being a key with an empty value; KeyValueOfRendered is its round trip |
| Strings.QueryItems | src/nightbot-auth.cpp:236 | the "&"-separated pieces of a query, in order, as key and value; QueryItemsOfRender is its round trip |
| Strings.FirstValue | src/nightbot-auth.cpp:283-284 | `queryItemValue` looks up the first item with the key; FirstValueIsFirst states it |
| Strings.HasItem | src/nightbot-auth.cpp:282 | `hasQueryItem`: some item carries the key |
| Strings.RenderQuery | src/nightbot-auth.cpp:79-84 | the authorization query: "key=value" items joined by "&"; RenderQueryCons and QueryItemsOfRender state it |
| Strings.RenderQueryCons | src/nightbot-auth.cpp:81-86 | a query is its first "key=value", "&", and the rest |
| Strings.RenderPairSplitsValue | src/nightbot-auth.cpp:234-236 | a value holding "&k=v" renders exactly like one more item |
| Strings.NoCharInRender | src/nightbot-auth.cpp:81-86 | a character that is in no key, in no value, and is neither "&" nor "=" is not in the rendered query |
| Auth.AuthorizeUrlQuery | src/nightbot-auth.cpp:74-86 | the page opened carries exactly the four authorization items, in order |
| Auth.AuthorizeRedirectUri | src/nightbot-auth.cpp:74-83 | its `redirect_uri` is the backend's base URL |
| Auth.AuthorizeUrlEndpoint | src/nightbot-auth.cpp:78-86 | the page's address before "?" is the authorization endpoint |
| Auth.AuthorizeUrl | src/nightbot-auth.cpp:76-86 | the page opened: the endpoint, "?", and the four items; AuthorizeUrlQuery and AuthorizeUrlEndpoint state what it holds |
| Auth.FirstLine | src/nightbot-auth.cpp:214-222 | a request without a CR is one line |
| Auth.ParseRequestLine | src/nightbot-auth.cpp:223-229 | a line is refused exactly when it has no space; method and target contain no space |
| Auth.BodyOf | src/nightbot-auth.cpp:249-254 | the text after the first blank line, if any; BlankLineAfterHeaders locates that line |
| Auth.DecodeTarget | src/nightbot-auth.cpp:231-234 | "+" becomes a space, then the escapes are decoded; DecodeErrorTarget states it for a failure redirect |
| Auth.TargetItems | src/nightbot-auth.cpp:234-236 | the query items of the decoded target; ErrorTargetItems and CutTargetItems state them |
| Auth.ErrorReason | src/nightbot-auth.cpp:283-285 | the reason is `error_description`, or `error` when the description is empty |
| Auth.Classify | src/nightbot-auth.cpp:248-315 | the branch tests run in the handler's order: POST /token (with or without a body) first, then an error GET, then OPTIONS |
| Auth.RouteOf | src/nightbot-auth.cpp:214-229 | a request is dropped as malformed exactly when its first line has no space |
| Auth.BlankLineAfterHeaders | src/nightbot-auth.cpp:249 | the first blank line of a well-formed request is the one after its headers |
| Auth.RequestLineOfParts | src/nightbot-auth.cpp:223-229 | "method target version" yields that method and target |
| Auth.RouteOfWire | src/nightbot-auth.cpp:214-254 | a well-formed request routes on its method and target with its body, whatever its headers |
| Auth.RouteOfSpacelessLine | src/nightbot-auth.cpp:222-227 | a request line without a space is dropped, whatever follows |
| Auth.RouteOfUnterminatedTokenPost | src/nightbot-auth.cpp:248-253 | a POST /token without a blank line takes the branch that disconnects without a reply |
| Auth.ErrorTargetCharacters | src/nightbot-auth.cpp:231-234 | a failure redirect has no "+", space, or CR for the handler to rewrite or split on |
| Auth.DecodeErrorTarget | src/nightbot-auth.cpp:231-234 | decoding the failure redirect gives the error and the description back as text |
| Auth.ErrorTargetItems | src/nightbot-auth.cpp:234-236 | the failure redirect's items are the error and then the description |
| Auth.RouteOfErrorRedirect | src/nightbot-auth.cpp:282-285 | a failure redirect takes the error branch, with the description as the reason, or the error when the description is empty |
| Auth.ReasonOfErrorFirst | src/nightbot-auth.cpp:282-285 | items that begin with `error` and `error_description` have the error item, and give the reason those two values name |
| Auth.CutTargetItems | src/nightbot-auth.cpp:234-236 | an encoded "&k=v" in the description becomes an item of its own once decoded |
| Auth.DescriptionCutAtEncodedAmpersand | src/nightbot-auth.cpp:282-285 | the reason shown is then the description only up to that "&", because the target is decoded before its query is split |
| Auth.ClassifyErrorGet | src/nightbot-auth.cpp:282-285 | a GET whose query has `error` takes the error branch |
| Auth.ReadTokens | src/nightbot-auth.cpp:256-273 | both tokens are taken exactly when both keys are present with string values; when both keys are present, a string access value with a refresh value that is not a string gives exactly the access token taken; a parse error takes nothing |
| Auth.TokensObjectReads | src/nightbot-auth.cpp:257-261 | the object the backend posts yields both of its tokens |
| Auth.RefreshStepOf | src/nightbot-auth.cpp:138-167 | a transfer failure, a non-2xx status, a parse error, or a missing `access_token` rejects the refresh; a 2xx response with a string `access_token` is accepted with it, together with a string `refresh_token` when that key is present; an `access_token` that is not a string throws before anything is taken, and a present `refresh_token` that is not a string throws after the access token was taken |
| Auth.RefreshRequest | src/nightbot-auth.cpp:115-130 | the refresh goes to the backend's /api/refresh-token with {"refresh_token": token} and a JSON content type; RefreshToken sends it |
| Auth.ClearedDocument | src/nightbot-auth.cpp:184-186 | clearing empties the two tokens and the user name and keeps every other key |
| Auth.ClearIdempotent | src/nightbot-auth.cpp:179-187 | clearing twice leaves what clearing once leaves |
| Auth.CountFinished | src/nightbot-auth.cpp:267-331 | the number of `authenticationFinished` signals in a trace, at most its length |
| Auth.KeepsListening | src/nightbot-auth.cpp:224-253 | the two branches that disconnect without closing the server |
| Auth.TokensOf | src/nightbot-auth.cpp:256-273 | only a POST /token with a body reads tokens |
| Auth.RouteEffects | src/nightbot-auth.cpp:224-317 | what each branch writes, emits and closes; HandleRoute is proved to produce it, and AtMostOneFinishedPerRequest and FinishedTrueIffTokens are stated on it |
| Auth.RequestEffects | src/nightbot-auth.cpp:208-318 | the effects of one request, its route's effects; OnRequest is proved to produce them |
| Auth.CountFinishedAppend | src/nightbot-auth.cpp:267-331 | the number of reports in a trace adds up over its parts |
| Auth.CountFinishedZero | src/nightbot-auth.cpp:267-331 | a trace has no report exactly when none of its effects is one |
| Auth.AtMostOneFinishedPerRequest | src/nightbot-auth.cpp:247-317 | a handled request reports at most once, and it reports exactly for a POST /token with a body and for an error redirect |
| Auth.FinishedTrueIffTokens | src/nightbot-auth.cpp:258-267 | success is reported exactly for a POST /token whose body yields both tokens |
| Auth.NightbotAuth.constructor | src/nightbot-auth.cpp:28-45 | the tokens start as the saved ones; no server runs and no timer is armed |
| Auth.NightbotAuth.IsAuthenticated | src/nightbot-auth.cpp:189-192 | logged in exactly when there is a non-empty access token to hand to the API client |
| Auth.NightbotAuth.GetAccessToken | src/nightbot-auth.cpp:194-197 | the in-memory access token, which need not be the saved one (ReadTokens' AccessOnly case) |
| Auth.NightbotAuth.Authenticate | src/nightbot-auth.cpp:53-89 | while listening, or when the bind fails, nothing changes; otherwise the server listens, both timers run, the countdown is 30, 30 is announced, and the authorization page is opened |
| Auth.NightbotAuth.RefreshToken | src/nightbot-auth.cpp:91-177 | it returns false with tokens and settings untouched when there is no refresh token, curl cannot start, or the step is rejected; on success the access token, and the refresh token when one is sent, are set and saved; a non-string value makes the type error escape, after the access token was saved when only the refresh value is bad |
| Auth.NightbotAuth.ClearTokens | src/nightbot-auth.cpp:179-187 | both tokens are empty, the user is logged out, and the settings are the cleared document written through |
| Auth.NightbotAuth.OnNewConnection | src/nightbot-auth.cpp:199-206 | accepting a connection stops both timers and changes nothing else |
| Auth.NightbotAuth.OnRequest | src/nightbot-auth.cpp:208-318 | the trace grows by the request's effects; the server keeps listening only for a dropped request; the timers are untouched; the tokens and settings change as the branch's token read says |
| Auth.NightbotAuth.HandleRoute | src/nightbot-auth.cpp:247-317 | a dropped request and a POST /token without a body only disconnect, and the server keeps listening; every other branch replies with its status (200 or 400 for POST /token, 400 with the reason for an error, 204, 404), reports as its branch does, disconnects, and closes the server; both tokens are set and saved only when both are read, and only the access token is set when the refresh value is not a string |
| Auth.NightbotAuth.OnAuthTimeout | src/nightbot-auth.cpp:324-333 | only while listening: the countdown stops, the server closes, and failure is reported once; otherwise nothing is emitted |
| Auth.NightbotAuth.OnSecondElapsed | src/nightbot-auth.cpp:335-343 | the countdown drops by one and is announced, stays between 0 and 29, and the countdown timer keeps running exactly while the count is above 0 |
| Auth.UnansweredLogin | src/nightbot-auth.cpp:324-333 | a login nobody answers announces 30, opens the page, reports failure once, and leaves no timer and no server |
| Auth.TokenSession | src/nightbot-auth.cpp:248-270 | a POST /token branch that reads both tokens gives report true, reply 200, and disconnect; the user is logged in when the access token is non-empty; a restart reads the tokens back |
| Auth.TokensDelivered | src/nightbot-auth.cpp:248-270 | the same for a well-formed POST /token request whose body is the backend's token object |
| Auth.SilentSession | src/nightbot-auth.cpp:199-227 | a preflight or malformed request after a login reports nothing and leaves no timer; only the malformed one leaves the server listening |
| Auth.PreflightEndsSilently | src/nightbot-auth.cpp:302-317 | a preflight closes the server with the timers stopped and nothing ever reported |
| Auth.MalformedLeavesServerOpen | src/nightbot-auth.cpp:222-227 | a request line without a space leaves the server listening, with no timer and no report |
| Auth.ClearTwice | src/nightbot-auth.cpp:179-192 | clearing twice leaves the settings clearing once leaves, and the user logged out |
| Api.CallOf | src/nightbot-api.cpp:37-67 | no transfer without a token or when curl cannot start; otherwise the request's URL and method, the bearer header first and the caller's headers after it in order, and a body exactly for POST and PUT |
| Api.ResponseOf | src/nightbot-api.cpp:37-84 | a curl error is flagged exactly when there is no token or the transfer did not complete; no token gives {-1, "", true, "No access token"}; a failed transfer gives code -1, its message and the bytes received; a completed transfer gives its status and body, whatever the status |
| Api.PerformRequest | src/nightbot-api.cpp:35-85 | the header loop and the transfer produce exactly that call and that response |
| Api.RequestsNeedLogin | src/nightbot-api.cpp:37-42 | with the login's access token, a request goes out (once curl starts) exactly when the login is authenticated; otherwise the response is the "No access token" failure |
| Api.Get | src/nightbot-api.cpp:21-26 | a request defaults to GET with no body and no extra headers |
| Api.BearerHeader | src/nightbot-api.cpp:51-53 | the authorization header carrying the token |
| Api.SendsBody | src/nightbot-api.cpp:65-67 | only POST and PUT attach a body |
| Api.MeRequest | src/nightbot-api.cpp:99 | GET .../1/me |
| Api.QueueRequest | src/nightbot-api.cpp:141 | GET .../1/song_requests/queue |
| Api.PlayRequest | src/nightbot-api.cpp:209-211 | POST .../queue/play |
| Api.PauseRequest | src/nightbot-api.cpp:228-230 | POST .../queue/pause |
| Api.SkipRequest | src/nightbot-api.cpp:247-248 | POST .../queue/skip |
| Api.DeleteRequest | src/nightbot-api.cpp:253-261 | no request for an empty id, otherwise DELETE .../queue/id; SongIdInUrls and SongRequestsInjective state it |
| Api.PromoteRequest | src/nightbot-api.cpp:285-293 | no request for an empty id, otherwise POST .../queue/id/promote; SongIdInUrls and SongRequestsInjective state it |
| Api.EnabledBody | src/nightbot-api.cpp:273-276 | the compact JSON text {"enabled":true} or {"enabled":false} |
| Api.SetEnabledRequest | src/nightbot-api.cpp:271-279 | PUT .../1/song_requests with that body and the JSON content type |
| Api.SongIdInUrls | src/nightbot-api.cpp:253-296 | the delete and promote URLs are the queue URL, "/", the id, and (for promote) "/promote" |
| Api.SongRequestsInjective | src/nightbot-api.cpp:253-296 | two ids that give the same delete or promote request are the same id |
| Api.ControlPlay | src/nightbot-api.cpp:205-222 | a POST to .../queue/play, which succeeds exactly for a completed transfer with a 2xx status |
| Api.ControlPause | src/nightbot-api.cpp:224-241 | a POST to .../queue/pause, which succeeds exactly for a completed transfer with a 2xx status |
| Api.ControlSkip | src/nightbot-api.cpp:243-251 | a POST to .../queue/skip with an empty body |
| Api.DeleteSong | src/nightbot-api.cpp:253-264 | no request for an empty id; otherwise a DELETE of .../queue/id with no body |
| Api.PromoteSong | src/nightbot-api.cpp:285-296 | no request for an empty id; otherwise a POST to .../queue/id/promote |
| Api.SetSREnabled | src/nightbot-api.cpp:266-283 | a PUT of {"enabled":b}, with the bearer header followed by the JSON content type |
| Api.DisplayName | src/nightbot-api.cpp:108-126 | the name is "" for a parse failure; when the payload's `user` is an object, the name is its `displayName` ("" when that is not a string); a non-empty name comes only from such a `displayName` |
| Api.FetchUserInfo | src/nightbot-api.cpp:95-134 | the name reported is the payload's display name for status 200, and "" otherwise |
| Api.CurrentSongItem | src/nightbot-api.cpp:159-174 | the current song is at position 0 with its `_id`, the `title`, `artist` and `duration` of its `track`; its user is `displayName`, or the placeholder when `user` is not an object |
| Api.QueueEntryItem | src/nightbot-api.cpp:177-187 | a queue entry keeps its `_position` and its `_id`, the `title`, `artist` and `duration` of its `track`, and its user's `displayName`, each with the accessor's default when absent |
| Api.QueueEntriesAt | src/nightbot-api.cpp:176-188 | there is one item per queue entry, each built from the entry at its place |
| Api.QueueEntries | src/nightbot-api.cpp:176-188 | the items of the queue entries in array order; QueueEntriesAt states them |
| Api.CurrentSong | src/nightbot-api.cpp:159-174 | the current song's item when `_currentSong` is an object, else nothing |
| Api.SongItems | src/nightbot-api.cpp:159-188 | the current song, then the queue entries, in the order they are appended |
| Api.QueuePayload | src/nightbot-api.cpp:141-152 | a payload exists exactly for a 200 response whose body parses to an object, and it is that object |
| Api.SortByPosition | src/nightbot-api.cpp:191-194 | the in-place sort leaves the array sorted by position and a permutation of what it held |
| Api.InsertLast | src/nightbot-api.cpp:191-194 | inserting the next element keeps the sorted prefix sorted and the array a permutation |
| Api.SwapDown | src/nightbot-api.cpp:191-194 | an exchange of two neighbours keeps the array a permutation |
| Api.CollectItems | src/nightbot-api.cpp:159-188 | the appended list is the current song followed by the queue entries, in order |
| Api.Sorted | src/nightbot-api.cpp:191-194 | the list comes back sorted by position and as a permutation of the input |
| Api.FetchSongQueue | src/nightbot-api.cpp:136-203 | only a 200 response whose body parses to an object is read; the request status reported is its `_requestsEnabled` when present; the list is sorted by position and is a permutation of the payload's current song and queue entries, and is empty when there is no payload |
| Api.CurrentSongLeads | src/nightbot-api.cpp:159-194 | when every queue position is above 0, the current song comes first in the sorted list |
| Api.SmallestLeads | src/nightbot-api.cpp:191-194 | a sorted permutation of items whose first item has a smaller position than every other starts with that item |

## Left out

- Sockets, the server and threads: QTcpServer, QTcpSocket, QDesktopServices and QThreadPool are not modelled. Requests, bind results and timer events are inputs, and the API calls run to completion in one step.
- Logging (`blog`) is not modelled, and neither are the HTML pages and localized texts. A response is its status, plus the reason for the error page. The CORS header text is not modelled.
- JSON parsing and serialization are not modelled. A parser is a parameter. The refresh request's body is the JSON object it serializes, not its text.
- Auth.RefreshRequest: the object is built, but `dump()` is not modelled.
- Auth.NightbotAuth.OnRequest does not model two checks:
  - the socket-validity check (src/nightbot-auth.cpp:209-212);
  - the empty-split check (src/nightbot-auth.cpp:216-220), which cannot trigger because a split always has one part.
- Auth.NightbotAuth.constructor: the source leaves `auth_countdown` uninitialised until the first login; the model starts it at 0.
- Strings.PercentDecode decodes "%HH" for valid hex digits only and keeps any other "%" as text. Qt's handling of malformed escapes, and decoding to UTF-8, are not modelled: an octet becomes the character with that code.
- Strings.QueryItems does not model Qt's second pass over the decoded target. `QUrl` parses in tolerant mode, re-encoding a lone "%" as "%25". `queryItemValue` then reads in pretty-decoded form: it keeps "%25" encoded, and it may decode a second time an escape that the first decoding produced (a "%2541" sent becomes "%41", then "A"). For a value that holds "%" after decoding, the model's reading is the decoded text, and Qt's differs from it.
- RouteOfErrorRedirect: the reason it proves is the description as sent. This matches Qt only for an error and a description that are ASCII and hold no "%". With "%" the reason Qt shows keeps an escape or is decoded twice, as stated for Strings.QueryItems. With a character from 128 to 255, Qt decodes the escaped octet as UTF-8, which gives U+FFFD for a lone octet, as stated for Strings.PercentDecode.
- DecodeErrorTarget: the decoded text it proves is what `QUrl::fromPercentEncoding` gives only for ASCII values, because Qt reads the decoded octets as UTF-8.
- ErrorTargetItems: the items it proves match what Qt reads only for ASCII values without "%".
- CutTargetItems: the items it proves match what Qt reads only for ASCII values without "%".
- DescriptionCutAtEncodedAmpersand: the cut it proves matches Qt only when `error`, `first`, `key` and `value` are ASCII and hold no "%".
- Strings.QueryItems reads an empty piece (as in "a=1&") as an item with an empty key. QUrlQuery's treatment of empty pieces and of "+" inside the query is not modelled.
- Settings.SettingsManager.Save does not model an I/O failure: a failed directory creation or a failed `obs_data_save_json` writes nothing, and the model always writes the file.
- Settings.SettingsManager.GetHotkeyData: reference counting of the returned array is not modelled.
- JSON numbers are integers: the doubles QJsonValue holds are not modelled. `toInt` is modelled as a range check.
- The Qt signals (`authenticationFinished`, `authTimerUpdate`, `userInfoFetched`, `songQueueFetched`, `srStatusFetched`) are trace entries or return values, not deliveries to receivers.
- The destructors do not appear: closing the server on exit, and the save on exit in `~SettingsManager`.
