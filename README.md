# ktntwitchgo core, modelled in Dafny

This project models the sequential core of `ktntwitchgo`, a Go client for the Twitch
Helix REST API, and proves properties of that model. It covers:

- **Query encoders.**
  - `parseOptions` turns an option record into `key=value` pairs. It uses the records' `json` tags, omits zero fields, expands slices and splices in one level of embedded struct.
  - `parseMixedParam` sends each identifier to a numeric or a textual key, using `isNumber`, `chooseKey`, `getJSONFieldName` and `isZeroValue`.
  - A second encoder, `ParseOptions` in `util.go`, keys by Go field names and sorts the keys through `url.Values.Encode`.
- **The client state machine.**
  - The `Client` object holds the tokens, the refresh counter, the handler registry and the handler calls made so far.
  - Its token operations are `validate`, `refresh`, `getAppAccessToken` and `GetUserAccess`.
  - Its request pipeline is `get`/`update` and their `post`/`put`/`patch`/`delete` wrappers. It includes the 401 refresh-and-retry and the 429 rate-limit wait or error.
  - The rest of the client: the rate-limit snapshot (`extractRateLimit`, `handleRateLimit`), the event registry (`AddEventHandler`, `RemoveEventHandler`, `emit`), `hasScope` and `GenerateAuthURL`.
- **The scope vocabulary** of `scopes.go` and the commercial-length and thumbnail helpers of `objects.go`.
- **Responses and errors:** `ResponseError.IsError`, `NewObsoleteResponse` and the rate-limit error message.

## Layout

The modules follow the program's structure:

- **Value modules** are pure functions and lemmas: `Errors`, `Responses`, `Objects` and `Scopes`. The loops of `scopes.go` are methods proved against the `Scopes` functions.
- **Library stand-ins:**
  - `GoStrings`, `Strconv` and `UrlValues` model the parts of Go's `strings`, `strconv` and `net/url` that the core relies on. This includes `Atoi` with its 64-bit clamping, `QueryEscape` over UTF-8, and `Encode` with keys in ascending byte order.
  - `Reflect` stands in for `reflect` and `fmt`'s `%v`, as an explicit value and field datatype.
  - `Json` and `Events` model decoded JSON values and the `AuthEvent` record.
  - `Http` models the network and the clock. The network is a `Transport` object whose replies come from a finite script; each round trip records its request and consumes one reply. The clock is a `Clock` object that `Sleep` advances.
- **Query encoders:** `ApiQuery` holds `parseOptions` and `parseMixedParam`, and `Util` holds `ParseOptions`. Each loop is a method proved against a specification function.
- **The client:**
  - `ClientSpec` states what each client operation does as a function from a `Session` snapshot to an `Outcome`.
  - `Api.Client` is the imperative client. It is a class whose fields the methods update in place. Every method is proved to leave exactly the state the matching `ClientSpec` function describes.
  - `ClientProperties` proves what the client promises about those functions.
  - In the source, `get` and `update` repeat the same attempt code after their own checks. The model writes that code once, as `Api.Client.Attempt`. Its 401 and 429 branches are the methods `Unauthorized` and `TooManyRequests`, and both call `Retry`, which makes the original call again.

The model follows the code where the code and its documented intent disagree. One case is written out by `ClientProperties.UnauthorizedWithoutNewToken`. The token endpoint can answer a refresh without an access token. `refresh` still returns no error in that case, so `get` and `update` issue the call again with the old token, and the number of rounds is bounded only by the replies. "## Findings" records this case together with the intended refresh, under which such a reply ends the call.

## Model

| member | source | states |
|---|---|---|
| Api.CreateTwitchApi | api.go:45-67 | the new client keeps the configured credentials, tokens, scopes and redirect URI; it throws rate-limit errors only when that option is present and true; it starts with the Helix and ingest base URLs, no handlers, no calls, a zero counter, and not ready or verbose; a wait handle exists exactly when an access token was supplied |
| Api.Client.constructor | api.go:46-63 | the field values of a fresh client, as for CreateTwitchApi |
| Api.Client.AddEventHandler | api.go:78-80 | the registry afterwards is the old one with the handler appended to that event's list; nothing else changes; `ready` and `verbose` keep their values |
| Api.Client.RemoveEventHandler | api.go:82-84 | the registry afterwards is the old one without that event; nothing else changes; `ready` and `verbose` keep their values |
| Api.Client.Emit | api.go:86-92 | the loop leaves the state ClientSpec.Emit describes: one call per registered handler, in order; `ready` and `verbose` keep their values |
| Api.Client.HandleRateLimit | api.go:398-401 | the state afterwards is the one ClientSpec.HandleRateLimit describes, with the snapshot of these headers emitted as `ratelimitpoll`; `ready` and `verbose` keep their values |
| Api.Client.HasScope | api.go:415-417 | the answer is true exactly when the scope is among the configured ones |
| Api.Client.GenerateAuthURL | api.go:555-571 | the URL built by adding the parameters one at a time is ClientSpec.AuthUrl, whose text AuthUrlShape gives |
| Api.Client.Validate | api.go:220-247 | the result and new state are those of ClientSpec.Validate, characterised by ValidateWithoutToken and ValidateVerdicts |
| Api.Client.Refresh | api.go:161-218 | the result and new state are those of ClientSpec.Refresh, characterised by RefreshWhenValid, RefreshWithoutRefreshToken and RefreshDecoded; `ready` and `verbose` keep their values |
| Api.Client.StoreTokens | api.go:204-209 | only the tokens change: each one of the reply replaces the stored one unless it is empty; `ready` and `verbose` keep their values |
| Api.Client.GetAppAccessToken | api.go:113-159 | the result and new state are those of ClientSpec.AppToken, characterised by AppTokenScope and AppTokenVerdicts |
| Api.Client.GetUserAccess | api.go:661-699 | the result and new state are those of ClientSpec.UserAccess, characterised by UserAccessUrlShape and UserAccessDecoded; `ready` and `verbose` keep their values |
| Api.Client.WaitForReset | api.go:305-308 | the clock sleeps for the wrapped 64-bit wait when it is positive and is untouched otherwise |
| Api.Client.Get | api.go:249-314 | the recursive retries together leave the state and return the result of ClientSpec.Perform on a `get` call; `ready` and `verbose` keep their values |
| Api.Client.Update | api.go:316-376 | the same for an `update` call with its data and method: a relative endpoint and a missing token end the call before anything is sent; `ready` and `verbose` keep their values |
| Api.Client.Attempt | api.go:262-313 | with the token present, one attempt leaves the state and returns the result ClientSpec.Issue describes: the request is sent, the rate limit reported, and the reply answered or the call made again; `ready` and `verbose` keep their values |
| Api.Client.Unauthorized | api.go:290-295 | after a 401 a failed refresh ends the call with its error, and a successful one makes the whole call again from the refreshed state; `ready` and `verbose` keep their values |
| Api.Client.TooManyRequests | api.go:297-311 | after a 429 the `ratelimit` handlers see the snapshot; then the call fails with the rate-limit error when that option is on, and otherwise the clock sleeps for the wait and the call is made again; `ready` and `verbose` keep their values |
| Api.Client.Retry | api.go:294-310 | making the call again is ClientSpec.Perform of the same call from the current state; `ready` and `verbose` keep their values |
| Api.Client.Post | api.go:378-381 | update with method `post`; `ready` and `verbose` keep their values |
| Api.Client.Put | api.go:383-386 | update with method `put`; `ready` and `verbose` keep their values |
| Api.Client.Patch | api.go:388-391 | update with method `patch`; `ready` and `verbose` keep their values |
| Api.Client.Delete | api.go:393-396 | update with method `delete`; `ready` and `verbose` keep their values |
| ClientProperties.ExtractRateLimitDecimal | api.go:403-413 | headers holding the decimal text of 64-bit numbers are read back as exactly those numbers |
| ClientProperties.ExtractRateLimitUnparsable | api.go:403-413 | missing headers, or ones that are not decimal (of up to 20 characters), give 0 |
| ClientProperties.ExtractRateLimitExample | api_test.go:299-314 | the headers 800, 799 and 1234567890 give the snapshot (800, 799, 1234567890) |
| ClientProperties.ExtractRateLimitInvalidExample | api_test.go:316-331 | the three non-numeric headers of the test give (0, 0, 0) |
| ClientProperties.ExtractRateLimitMissing | api.go:403-413 | absent headers read as "" and give (0, 0, 0) |
| ClientProperties.EmitCallsInOrder | api.go:86-92 | emit appends one call per handler of the event, in registration order and all with the same payload, and changes nothing else |
| ClientProperties.EmitUnknownEvent | api.go:86-92 | emitting an event nobody registered for leaves the state unchanged |
| ClientProperties.AddAppends | api.go:78-80 | adding a handler appends it to its event's list and leaves every other event's list alone |
| ClientProperties.AddNoDedup | api.go:78-80 | adding the same handler twice registers it twice |
| ClientProperties.RemoveOnlyThatEvent | api.go:82-84 | removing an event deletes its list and no other |
| ClientProperties.TwoHandlersExample | api_test.go:152-181 | two handlers of one event are both called, in registration order, with the emitted data |
| ClientProperties.RemoveHandlerExample | api_test.go:183-210 | after the removal the removed event is silent and the other event still reaches its handler |
| ClientProperties.ExtendsTransitive | api.go:249-376 | "is a later state of the same client" is transitive |
| ClientProperties.EmitExtends | api.go:86-92 | emit leads to a later state |
| ClientProperties.ExchangeExtends | api.go:282-286 | a round trip leads to a later state |
| ClientProperties.ValidateExtends | api.go:220-247 | validate leads to a later state |
| ClientProperties.RefreshedExtends | api.go:204-215 | storing a refresh reply leads to a later state |
| ClientProperties.RefreshExtends | api.go:161-218 | refresh leads to a later state: registry kept, calls, requests and sleeps only appended, replies consumed from the front, counter and clock not going back, tokens never lost |
| ClientProperties.AppTokenExtends | api.go:113-159 | the client-credentials grant leads to a later state |
| ClientProperties.LimitedExtends | api.go:297-308 | the 429 handling before the retry (the `ratelimit` emit and the optional sleep) leads to a later state |
| ClientProperties.PerformExtends | api.go:249-376 | every `get` or `update` call, with all its retries, leads to a later state of the same client |
| ClientProperties.FetchThenIssueExtends | api.go:251-260 | a `get` without a token extends the state through the token grant and the call |
| ClientProperties.RetryExtends | api.go:290-311 | a retry from a later state with fewer replies left extends the state |
| ClientProperties.IssueExtends | api.go:272-313 | one attempt with a token, including its retries, extends the state before the request, after the round trip and after the rate-limit poll |
| ClientProperties.AnsweredExtends | api.go:288-313 | an answered attempt extends the state reached after the rate-limit poll |
| ClientProperties.UnauthorizedExtends | api.go:290-295 | a 401 answer, with its refresh and retry, extends the polled state |
| ClientProperties.LimitedRetryExtends | api.go:297-311 | a 429 answer, with its sleep and retry or error, extends the polled state |
| ClientProperties.AdmittedIssues | api.go:249-260 | with a token present, and for `update` an endpoint starting with `/`, the call goes to the network at once |
| ClientProperties.RequestShape | api.go:262-343 | `get` sends GET with no body to the ingest base URL for "ingest" and to the Helix one otherwise; `update` sends the upper-cased method with its data to the Helix base URL and sets a JSON content type exactly when there is data; both send the client id and the bearer token |
| ClientProperties.FirstRequestIsTheCall | api.go:274-282 | with a token, the first request sent is the call's own, made with that token |
| ClientProperties.GetTokenFetchFails | api.go:251-255 | without a token, a failed token grant ends `get` with the grant's error, and only the grant request is sent |
| ClientProperties.GetFetchesToken | api.go:251-260 | without a token, `get` sends the grant request first, stores the token, then sends its call with that token |
| ClientProperties.PollPrecedesStatus | api.go:288-290 | every reply's rate-limit snapshot reaches the `ratelimitpoll` handlers before its status is examined |
| ClientProperties.UnauthorizedRefreshFails | api.go:290-293 | on 401 a failed refresh ends the call with the refresh's error and no retry |
| ClientProperties.UnauthorizedRetries | api.go:290-295 | on 401 a successful refresh issues the whole call again from the refreshed state |
| ClientProperties.UnauthorizedWithoutNewToken | api.go:204-217 | a refresh reply without an access token counts as success: the call is issued again with the same token, the counter goes up by one and three replies are consumed |
| ClientProperties.IntendedRefreshAgrees | api.go:161-218 | the intended refresh changes the state exactly as `refresh` does; it fails wherever `refresh` fails and is identical to it wherever it succeeds |
| ClientProperties.IntendedRefreshLeavesToken | api.go:161-218 | a successful intended refresh always leaves an access token: the validated one, or a new non-empty one from the token reply |
| ClientProperties.IntendedUnauthorizedAgrees | api.go:290-295 | wherever the two refreshes agree, the 401 step with the intended refresh is what `get` and `update` do |
| ClientProperties.IntendedUnauthorizedEnds | api.go:290-295 | with the intended refresh, a 401 whose token reply carries no access token ends the call with `no access_token in response` after three requests, and nothing more is sent |
| ClientProperties.RateLimitedThrows | api.go:297-303 | on 429 with rate-limit errors switched on, the `ratelimit` handlers see the snapshot of that reply's headers and the call fails with an error carrying the same snapshot |
| ClientProperties.RateLimitedWaits | api.go:297-311 | on 429 with errors switched off, the client sleeps reset − now seconds when that is positive and then issues the call again |
| ClientProperties.OtherStatusReturnsBody | api.go:313 | any status other than 401 and 429 ends the call with the reply's body, after the poll |
| ClientProperties.TransportFailureEnds | api.go:282-285 | a failed round trip ends the call with the transport's error after sending only the call's request |
| ClientProperties.UpdateRejectsRelativeEndpoint | api.go:317-319 | `update` of an endpoint not starting with `/` fails with the fixed message before changing or sending anything |
| ClientProperties.UpdateWithoutTokenPanics | api.go:342 | `update` without a token dereferences nil before sending anything |
| ClientProperties.PolledKeeps | api.go:398-401 | reporting the first reply keeps the tokens, counter, clock and registry and consumes exactly that reply |
| ClientProperties.ValidateWithoutToken | api.go:221-223 | with no access token validate reports not valid and sends nothing |
| ClientProperties.ValidateVerdicts | api.go:225-246 | validate sends one request with the OAuth header; the token is valid exactly when the reply decodes, does not carry the missing-token message, and has status 200; that message is an error, and so is a reply that does not decode |
| ClientProperties.RefreshWhenValid | api.go:162-169 | a valid token is not refreshed: tokens, counter and handler calls are unchanged |
| ClientProperties.RefreshWithoutRefreshToken | api.go:171-173 | an invalid token without a refresh token fails with `refresh token is not set`, and nothing more is sent |
| ClientProperties.RefreshDecoded | api.go:175-217 | a decoded reply replaces each token only when it is not empty, calls the `refresh` handlers once each with the reply, raises the counter exactly when the reply has no access token, and sends one request with the escaped refresh token |
| ClientProperties.AppTokenScope | api.go:114-123 | the grant sends the client id, the secret and `client_credentials`, and a space-separated `scope` exactly when the client has scopes |
| ClientProperties.AppTokenVerdicts | api.go:130-158 | the grant yields a token exactly when the reply is a JSON object whose `access_token` is a string; a non-JSON reply is reported with its text, otherwise `no access_token in response`; the tokens are untouched |
| ClientProperties.UserAccessDecoded | api.go:675-698 | a decoded code-grant reply replaces each non-empty token, emits `user_auth` once per handler, leaves the counter alone and sends one request |
| ClientProperties.EncodeInOrder | api.go:555-571 | parameters holding one value each, with keys given in ascending order, encode to their pairs in that order |
| ClientProperties.FourEncode | api.go:557-570 | four single-valued parameters, two of them optional, encode in key order with the optional ones present only when set |
| ClientProperties.FiveEncode | api.go:662-672 | five single-valued parameters, the last optional, encode in key order |
| ClientProperties.AuthUrlShape | api.go:555-571 | the authorization URL is the authorize endpoint, `?`, then `client_id`, an optional `redirect_uri`, `response_type=code` and, only with scopes, the space-joined `scope`, in that order and escaped |
| ClientProperties.UserAccessUrlShape | api.go:661-673 | the code-grant URL carries `client_id`, `client_secret`, `code`, `grant_type=authorization_code` and an optional `redirect_uri`, in that order and escaped |
| ClientProperties.KeyPair | api.go:557-570 | a key made of unreserved characters is written as it is |
| ApiQuery.JsonFieldNameSegment | api.go:459-467 | the key is "" for an untagged field, and otherwise the tag's text up to its first comma |
| ApiQuery.KeyBeforeComma | api.go:459-467 | a tag `name` or `name,options` has the key `name` |
| ApiQuery.JsonNameExamples | util_test.go:349-372 | the tags `name`, `user_id,omitempty`, `-` and "" give `name`, `user_id`, `-` and "" |
| ApiQuery.ChooseKey | api.go:451-457 | the first key when the condition holds, the second otherwise |
| ApiQuery.ChooseKeyExamples | api_test.go:54-59 | the cases of the test, and flipping the condition swaps the keys |
| ApiQuery.ZeroValues | api.go:469-478 | nil and empty slices and maps, nil pointers and the zero scalars are zero; a non-empty slice or map, a non-nil pointer to a string and non-zero scalars are not |
| ApiQuery.AppendField | api.go:498-541 | the field loop's body appends exactly the field's pairs |
| ApiQuery.AppendEmbedded | api.go:504-522 | the inner loop over an embedded struct appends its fields' pairs in order |
| ApiQuery.AppendTopField | api.go:495-541 | one turn of the outer loop appends the field's pairs, with an embedded struct's pairs in its place |
| ApiQuery.ParseOptions | api.go:480-548 | the nested loops return the `&`-join of the record's pairs, and "" for a nil record; a value whose type has a `String` method is written as that method's text |
| ApiQuery.OptionPartsAppend | api.go:495 | the fields contribute their pairs in declaration order |
| ApiQuery.OmittedFields | api.go:523-535 | nil pointers, pointers to zero values, zero values, untagged fields and fields tagged `-` contribute nothing |
| ApiQuery.StringField | api.go:536-541 | a set string field, direct or through a pointer, gives one pair with the text unescaped |
| ApiQuery.IntField | api.go:536-541 | a set integer field gives one pair with its decimal text |
| ApiQuery.SliceField | api.go:526-535 | a non-empty slice gives one pair per element, in order, under the field's key |
| ApiQuery.EmbeddedSplice | api.go:504-522 | an embedded struct's pairs take its place among the record's pairs |
| ApiQuery.NestedEmbeddingDropped | api.go:504-522 | a struct embedded in an embedded struct has no tag and contributes nothing |
| ApiQuery.NamedField | api.go:523-541 | a keyed value whose type has a `String` method gives one pair with that method's text, and none when its underlying value is zero |
| ApiQuery.StartCommercialQuery | options.go:209-212 | a StartCommercialOptions record gives `broadcaster_id=b&length=` followed by the text of CommercialLength.String, and leaves `length` out for 0 |
| ApiQuery.InvalidLengthExample | objects.go:394-411 | CommercialLength(45) is sent as `length=invalid` |
| ApiQuery.ValidLengthExample | objects.go:394-411 | CommercialLength60 is sent as `length=60` |
| ApiQuery.VideosParts | api.go:480-548 | for GetVideosOptions the pairs are first, then the ids, then user and game, whatever the values |
| ApiQuery.ParseOptionsUserAndGameExample | api_test.go:7-36 | `{UserID, GameID}` gives `user_id=12345&game_id=twitch` |
| ApiQuery.ParseOptionsIdsExample | api_test.go:7-36 | `{ID: [123, 456]}` gives `id=123&id=456` |
| ApiQuery.ParseOptionsIdsAndGameExample | api_test.go:7-36 | ids and a game give `id=123&id=456&game_id=twitch` |
| ApiQuery.ParseOptionsFirstAndUserExample | api_test.go:30-35 | the embedded `First` comes before `user_id`: `first=1&user_id=12345` |
| ApiQuery.IsNumberIff | api.go:550-553 | a string is a number exactly when it is an optionally signed decimal within signed 64-bit range |
| ApiQuery.NotNumber | api.go:550-553 | a string that is empty or starts with neither a sign nor a digit is not a number |
| ApiQuery.ShortDigitsAreNumber | api.go:550-553 | one to eighteen digits always make a number |
| ApiQuery.IsNumberExamples | api_test.go:61-74 | `123`, `0000` and `0` are numbers |
| ApiQuery.LongNumberExample | api_test.go:61-74 | the nineteen-digit identifier of the test is a number |
| ApiQuery.NotNumberExamples | api_test.go:61-74 | `twitch`, `ABCDEF`, `DeadBeef`, "", `O` and " " are not numbers |
| ApiQuery.AddToQuery | api.go:422-433 | the closure appends the value's pair: integers and numeric strings under the numeric key, other strings under the textual key |
| ApiQuery.ParseMixedParam | api.go:419-449 | the loops return the `&`-join of one pair per value, and "" for a value of any other type |
| ApiQuery.MixedPartsCount | api.go:435-446 | a string, an int, a string slice or an int slice gives exactly one pair per value; any other type gives none |
| ApiQuery.StringSlicePart | api.go:422-433 | the i-th string goes under the numeric key exactly when it is a number, and keeps its text |
| ApiQuery.IntSlicePart | api.go:422-433 | the i-th integer goes under the numeric key as its decimal text |
| ApiQuery.IntAndTextAgree | api.go:419-449 | a 64-bit integer and its decimal text give the same query |
| ApiQuery.MixedParamSingleExamples | api_test.go:38-52 | `twitch` gives `game_name=twitch` and 12345 gives `game_id=12345` |
| ApiQuery.MixedParamWordsExample | api_test.go:38-52 | two words go under the textual key, in order |
| ApiQuery.MixedParamIntsExample | api_test.go:38-52 | two integers go under the numeric key, in order |
| ApiQuery.MixedParamNumericTextExample | api_test.go:38-52 | numeric strings go under the numeric key |
| ApiQuery.MixedParamMixedExample | api_test.go:38-52 | a numeric and a textual string each go under their own key |
| Util.AddElements | util.go:133-139 | the inner loop adds the `%v` text of each element under the key, in order |
| Util.CollectFields | util.go:117-143 | the field loop leaves the map Util.Collect describes |
| Util.ParseOptions | util.go:98-150 | the result is the encoding of that map, and "" for a nil pointer or a non-struct; a value whose type has a `String` method is written as that method's text |
| Util.AddAllEffect | util.go:133-139 | adding a slice's elements gives the key their texts in order, adds the key only for a non-empty slice, and changes no other key |
| Util.NamedFieldPrintsText | util.go:140-141 | a field whose type has a `String` method, held directly or through a non-nil pointer, is written as that method's text |
| Util.CollectKeys | util.go:117-143 | a key is present exactly when some field of that Go name emits, and every list present is non-empty |
| Util.CollectValues | util.go:117-143 | with distinct field names, each emitting field's key holds exactly that field's texts |
| Util.SkippedFieldIgnored | util.go:121-129 | unexported fields and nil pointer or interface fields leave the map as it was |
| Util.LastSetWins | util.go:140-142 | a non-slice field is written with Set: its one text replaces what the key held |
| Util.SliceAppends | util.go:133-139 | a non-nil slice appends one text per element under its key |
| Util.EmptySliceAddsNothing | util.go:133-139 | an empty non-nil slice adds nothing, not even its key |
| Util.NilSliceWritesBrackets | util.go:133-141 | a nil slice takes the Set branch and is written as `[]` |
| Util.ZeroValuesKept | util.go:126-141 | zero values that are not nil pointers or interfaces are still written |
| Util.TagsIgnored | util.go:131 | the keys are Go field names: the tags have no effect |
| Util.ArgumentCases | util.go:102-116 | a nil pointer or a non-struct gives ""; a non-nil pointer is walked as the struct it points to |
| Util.EncodedIsEncode | util.go:145-147 | the result is `url.Values.Encode` of the map and never ends in `&` |
| Util.EncodedEmptyIff | util.go:117-147 | the result is "" exactly when there is no struct or none of its fields emits |
| Util.EmittingFieldMakesQuery | util.go:117-147 | one emitting field is enough to make the result non-empty |
| Util.ThreePairs | util.go:133-147 | one key with three unreserved values gives the three pairs in order |
| Util.BasicValues | util_test.go:227-275 | the basic test record writes `Name`, `Count`, the three `Items` and `Enabled` under their Go names |
| Util.BasicArguments | util_test.go:261-274 | the record gives a non-empty query, and a pointer to it gives the same |
| Util.NonStructExamples | util_test.go:261-274 | a nil pointer and the integer 123 give "" |
| Util.SliceExample | util_test.go:277-298 | a slice of three ids gives `IDs=123&IDs=456&IDs=789` |
| Util.IntExample | util_test.go:227-275 | `Value: 42` gives `Value=42` |
| Util.ZeroExample | util_test.go:300-314 | an empty string and a zero integer are both written |
| Util.NilFieldsExample | util_test.go:316-334 | a nil pointer is skipped and a nil slice prints `[]`, escaped as `Items=%5B%5D` |
| Util.PointerFieldPrintsAddress | util.go:140-141 | as written, a non-nil pointer field is printed as `0x` and the pointer's address |
| Util.AddressLeaks | util.go:140-141 | as written, two records differing only in where a pointer field points give different queries |
| Util.PointerFieldPrintsTarget | util.go:140-141 | with the intended writing, a pointer field carries the value it points to |
| Util.IntendedIgnoresAddresses | util.go:117-143 | with the intended writing, the map no longer depends on pointer addresses |
| UrlValues.SortedKeys | util.go:145 | the keys listed once each in strictly ascending byte order |
| UrlValues.AscendingUnique | util.go:145 | only one strictly ascending list has a given set of elements |
| UrlValues.QueryEscapeUnreserved | util.go:145 | text of unreserved characters is not escaped |
| UrlValues.QueryEscapeChars | util.go:145 | escaped text contains neither `&` nor `=` |
| UrlValues.EncodeNoTrailingAmpersand | util.go:147 | an encoding never ends in `&`, so the trim leaves it unchanged |
| UrlValues.Add | util.go:137 | Add appends the value to the key's list and changes no other key |
| UrlValues.Set | util.go:141 | Set makes the value the key's only one and changes no other key |
| UrlValues.EncodeSingles | api.go:570 | single-valued parameters encode as their pairs in key order |
| Strconv.Atoi | api.go:404-406 | the result fits in 64 bits, and a rejected input yields 0 or a clamped bound |
| Strconv.AtoiAccepts | api.go:550-553 | Atoi accepts exactly the optionally signed decimals within 64-bit range, with their value |
| Strconv.AtoiClamps | api.go:404-406 | out-of-range decimals are clamped to the 64-bit bounds and rejected |
| Strconv.AtoiSyntaxError | api.go:404-406 | a non-decimal text gives 0 |
| Strconv.AtoiItoa | api.go:404-406 | the decimal text of a 64-bit number is read back as that number |
| Strconv.ItoaInjective | errors.go:16 | distinct numbers have distinct decimal texts |
| Http.HeaderGet | api.go:404-406 | the first value of the header, or "" when it has none |
| Http.Transport.Do | api.go:282-286 | the request is recorded and the next scripted reply taken, or a transport error once the script is spent |
| Http.Clock.Sleep | api.go:305-308 | the clock advances by a positive duration and every sleep is recorded |
| Http.Wrap64 | api.go:305 | the signed 64-bit value congruent to the input, unchanged when it already fits |
| Http.SleepTimeExact | api.go:305-308 | between the epoch and the horizon nothing wraps: the wait is (reset − now) seconds, positive exactly when reset is ahead |
| Http.SleepTimeWrapsForClampedReset | api.go:305-306 | the largest reset Atoi clamps to wraps to a negative wait, so the call is re-issued at once |
| Reflect.PointerPrintsAddress | util.go:140-141 | `%v` of a non-nil pointer to a scalar is `0x` and its address |
| Reflect.NamedPrintsText | api.go:536-541 | `%v` of a value whose type has a `String` method, or of a non-nil pointer to one, is that method's text, while its zeroness is its underlying value's |
| Reflect.IntTextRoundTrip | util.go:138-141 | `%v` of a 64-bit integer is read back by Atoi as that integer |
| Json.DecodeMap | api.go:237-238 | decoding into a map succeeds exactly for an object or `null` |
| Json.StringMember | api.go:242 | the member as a string exactly when present with a string value |
| Events.DecodeEncodeAuthEvent | events.go:3-9 | an AuthEvent written as JSON decodes back to itself |
| Events.DecodeRejectsMistypedToken | events.go:3-9 | a non-string `access_token` makes the decoding fail |
| Errors.ErrorExample | errors.go:15-17 | the message of (800, 0, 1234) is `twitch api is rate limited (limit 800,remaining 0,reset 1234)` |
| Errors.ErrorInjective | errors.go:11-17 | distinct rate-limit triples give distinct messages, so the message depends on and determines the three fields |
| Responses.IsErrorOnlyStatus | responses.go:138-140 | IsError holds exactly when the status is at least 400 and depends on the status alone |
| Responses.NewObsoleteResponse | responses.go:142-148 | `Gone`, 410 and `This API is not available.` |
| Responses.ObsoleteIsError | responses.go:138-148 | the obsolete response counts as an error |
| Scopes.Scope.String | scopes.go:37-39 | the string of a scope is its underlying string |
| Scopes.IsValidIffDeclared | scopes.go:41-88 | a scope is valid exactly when it is one of the declared constants |
| Scopes.InvalidExamples | scopes_test.go:13-40 | "" and `random` are not valid |
| Scopes.AllScopesDistinctAndValid | scopes.go:67-88 | there are 18 scopes, pairwise distinct and all valid |
| Scopes.AllScopesDistinctStrings | scopes.go:67-88 | the 18 scopes have pairwise distinct strings |
| Scopes.CategorySizes | scopes.go:90-123 | the six categories have 2, 1, 5, 1, 8 and 1 scopes |
| Scopes.CategoryRuns | scopes.go:90-123 | each category is a run of AllScopes |
| Scopes.CategoriesInOrder | scopes.go:90-123 | the categories laid end to end are AllScopes, so every scope is in some category |
| Scopes.CategoriesDisjoint | scopes.go:90-123 | no scope is in two categories |
| Scopes.HasScope | scopes.go:125-132 | the early-return loop answers true exactly when the target occurs |
| Scopes.ScopesToStrings | scopes.go:134-140 | the loop fills in each scope's string, in order |
| Scopes.StringsToScopes | scopes.go:142-148 | the loop fills in each string's scope, in order |
| Scopes.StringsRoundTrip | scopes.go:134-148 | the two conversions are inverses of each other |
| Scopes.ValidateScopes | scopes.go:150-157 | the loop answers true exactly when every scope is valid, so true for none |
| Scopes.FilterScopes | scopes.go:159-177 | the loop keeps exactly the scopes of the wanted validity, in order |
| Scopes.FilterValidScopes | scopes.go:159-167 | the valid scopes, in order |
| Scopes.FilterInvalidScopes | scopes.go:169-177 | the invalid scopes, in order |
| Scopes.FilterPartition | scopes.go:159-177 | the two filters split the input: their lengths add up and their elements together are the input's |
| Scopes.FilterKeepsValidity | scopes.go:159-177 | every kept scope has the wanted validity |
| Scopes.FilterSubsequence | scopes.go:159-177 | each filter's result is an order-preserving subsequence of its input |
| Scopes.AllValidIffFilterKeepsAll | scopes.go:150-167 | the scopes are all valid exactly when the valid filter keeps them all |
| Objects.CommercialLength.String | objects.go:394-411 | the text is `invalid` exactly for an invalid length, and otherwise the length's decimal text |
| Objects.CommercialLength.Validate | objects.go:413-427 | a valid length, the smallest one not below the input, and 180 beyond it |
| Objects.ValidIffFixedByValidate | objects.go:388-427 | the valid lengths are exactly those Validate leaves unchanged |
| Objects.ValidateIdempotent | objects.go:413-427 | Validate applied twice is Validate applied once |
| Objects.ValidateMonotone | objects.go:413-427 | Validate is monotone |
| Objects.ReplaceSlot | objects.go:91-93 | substituting one slot in a template is replacing every occurrence of `{width}` or `{height}` in its text |
| Objects.FillBoth | objects.go:91-95 | the two replacements together fill both slots and leave other text unchanged |
| Objects.ThumbnailRendersTemplate | objects.go:77-96 | the thumbnail of a template made of `{`-free text and `{width}`/`{height}` slots is the template rendered at the chosen size |
| Objects.ThumbnailFillsSlots | objects.go:77-96 | for every thumbnail address, the result is the address with each `{width}` and each `{height}` replaced by the chosen size in one left-to-right scan, every other character kept |
| Objects.TwoPassesFillSlots | objects.go:91-93 | replacing all `{width}` and then all `{height}` by decimal texts equals the one-scan filling of both slots, for every string |
| Objects.FillSlotsKeepsPlainText | objects.go:91-93 | text without `{` comes through the filling unchanged |
| Objects.SizeDefaults | objects.go:78-89 | 1920 by 1080 unless a positive width or height is given, each independently |
| Objects.ThumbnailDefaults | api_test.go:376-398 | no options, or non-positive sizes, give the 1920x1080 address |
| Objects.ThumbnailBothSizes | api_test.go:376-398 | 640 by 360 gives the 640x360 address |
| Objects.ThumbnailWidthOnly | api_test.go:376-398 | a width alone keeps the default height |
| Objects.ThumbnailHeightOnly | api_test.go:376-398 | a height alone keeps the default width |

## Left out

- JSON is not parsed or written. Request bodies are JSON values, and replies carry the decoded JSON value next to their text. `json.Unmarshal` of the whole body and `json.Decoder.Decode` of its first value are both read from that single decoded value. JSON numbers are integers: a number with a fraction or an exponent is not modelled, which Go decodes as a float64 and rejects for the `int` field `AuthEvent.ExpiresIn`.
- `http.NewRequestWithContext`, `json.Marshal` and `io.ReadAll` are not modelled as failing, because their error branches depend on library internals. A reply's body is its text.
- Header names are matched as given, with no canonicalisation.
- The background user lookup started by `initialize` (a goroutine and a `sync.WaitGroup`) is not modelled, because it is concurrency. Only whether the wait handle exists is modelled.
- Verbose logging is not modelled, because it has no effect on state or results (`verbose` stays false).
- Handlers are Go closures. Here a handler is a number, and calling one is recorded, not run, so a handler cannot call back into the client.
- `getAppAccessToken` never returns a nil token without an error, so the nil-token branch of `get` (`app access token could not be fetched`, api.go:256-258) cannot be reached and is absent.
- The `LocalCache` file loaders and the `DecodeDataInstance`/`EncodeDataInstance` wrappers of util.go are not modelled, because they are file I/O and calls into encoding/json.
- The per-endpoint wrappers (`GetGames` … `StartCommercial`, `BanUser`, `ShoutoutUser`, the `simple*Decode` helpers) are left out. They compose the encoders with `get`/`update` and add nothing to the core.
- `GetClips` and `GetStreamMarkers` hand `parseOptions` a pointer to an interface. That case is not modelled.
- `Reflect.IsExported` tests only ASCII upper-case initials, where Go accepts any Unicode upper-case letter.
- options.go, events.go and the DTO records of objects.go are data declarations, used only as record shapes.
- Time is an unbounded integer of nanoseconds. The `time.Duration` arithmetic of the wait is wrapped to 64 bits explicitly. The clock moves only when the client sleeps: no time passes during a round trip.
- ClientProperties.RateLimitedWaits: states the wait only for reset times and clocks between the epoch and nearly three centuries later. Beyond that the wait wraps around, as Http.SleepTimeWrapsForClampedReset shows for the largest clamped reset.
- ClientProperties.ExtractRateLimitUnparsable: covers non-decimal headers of at most 20 characters only. A longer one can overflow before its first non-digit, and Atoi then reports a clamped value, not 0.
- ClientProperties.UpdateWithoutTokenPanics: the nil dereference at api.go:342 is a Go panic, which unwinds the caller of `update` as well. The model instead returns `NilTokenPanic` as the failure of that call, with nothing sent and the state unchanged.
- Reflect.Format: a value of a type with a `String` method always prints as that method's text. Go calls the method only on values it may pass as interfaces, so a value reached through an unexported struct field prints as its underlying kind. The option records have only exported fields. `String` itself is user code, so a `Named` value carries its text: `Scope.String` (scopes.go:37-39) returns the scope unchanged, and `CommercialLength.String` (objects.go:394-411) is modelled as Objects.CommercialLength.String. Named slice or map types with a `String` method are not modelled, because the client declares none.
- GoStrings.ToUpper: maps ASCII letters only, where Go's `strings.ToUpper` maps all of Unicode. Only the fixed ASCII verb names of the wrappers reach it.
- Events.DecodeAuthEvent: matches JSON member names exactly, where `encoding/json` also accepts a member whose name differs only in letter case.
- ClientProperties.AuthUrlShape: states the authorization URL for every configuration, not as the literal text of api_test.go:247-297.

## Findings

| source | as written | input that shows it | evidently intended | confidence | as-written member | corrected member |
|---|---|---|---|---|---|---|
| api.go:204-217 | after any decoded token reply `refresh` returns nil, also when the reply has no `access_token` | a 401, then a validation reply saying the token is invalid, then a token reply `{"refresh_token": "r"}` with no access token: the call is sent again with the old token, and again for as long as replies come | a refresh that yields no access token is a failed exchange and ends the call, as a failed refresh does | not executed | ClientProperties.UnauthorizedWithoutNewToken | ClientProperties.IntendedUnauthorizedEnds, ClientProperties.IntendedRefreshLeavesToken |
| util.go:140-141 | a non-slice field is written with `fmt.Sprintf("%v", field.Interface())`, which for a non-nil pointer field prints the pointer's address | a record with one exported field of type `*string` pointing to "x": the query is `Name=0x…`, the address in hex, not `Name=x` | a pointer field is written as the value it points to, as `parseOptions` in api.go does | not executed | Util.PointerFieldPrintsAddress, Util.AddressLeaks | Util.PointerFieldPrintsTarget, Util.IntendedIgnoresAddresses |
