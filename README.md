# nextup core, modelled in Dafny

nextup is a web app for shared YouTube listening rooms. A room's creator
drives playback, and members follow it over a realtime channel. Members add
streams, upvote them and vote to skip. This project models the parts of its
code that compute or decide something, and proves what those parts promise.

- **Clock alignment and message gating** (`room_ably.dfy`, `clock_sync.dfy`):
  - the simplified NTP offset of each time probe (section 8 of RFC 5905, with
    the server's receive and transmit times equal), with the client's
    readings moved onto the epoch clock the server reads (see Findings);
  - the upper median of the successful probes, sorted in place in an array;
  - the channel handlers that stamp playback updates with the channel's
    receipt time and keep them from the creator;
  - a `RoomConnection` object whose publish methods are gated on creator
    status, on a channel and on a live connection.
- **Rate limiting** (`rate_limit.dfy`):
  - a fixed-window counter per client key, kept in a `RateLimiter` object
    whose store is a map;
  - the 429 answer of section 4 of RFC 6585, with its `Retry-After` header;
  - the client-address fallback chain;
  - the expired-entry clean-up.
- **Error taxonomy** (`error_constants.dfy`, `custom_errors.dfy`, `api_errors.dfy`):
  - the three total tables from error code to status, category and default
    message;
  - the error constructors, whose status and category follow from the code;
  - the classification chain that turns any thrown value into a response.
- **Validators and string utilities** (`request_validation.dfy`,
  `room_schemas.dfy`, `string_utils.dfy`, `sanitize.dfy`, with the JavaScript
  string built-ins in `text.dfy`):
  - required route parameters and required headers;
  - boolean query parameters;
  - the three room schemas, as parsers;
  - `truncate`, `capitalize`, and the three sanitizers, each written as the
    left-to-right scan its regular expression performs.
- **Streams and recommendations** (`streams_service.dfy`, `recommendations.dfy`):
  - upvote counting, an in-place insertion sort (most upvoted first) and an
    in-place reversal (newest first);
  - the order of the checks when a stream is created;
  - search terms derived from a user's stream titles;
  - the de-duplicating collection of search results.
- **YouTube loader and debug log** (`youtube_api.dfy`, `youtube_debug.dfy`):
  - the player-state and player-error mappings;
  - the script loader as a `Loader` state machine whose promises are request
    ids, each settled exactly once;
  - the debug log capped at 100 entries, with its listener list;
  - the diagnostic report.

`wrappers.dfy` holds `Option` and `Result`.

Time, randomness, the network, the database, the search library and browser
state are parameters of the operations that use them:
- the probe results and the current time;
- the random draw that triggers the clean-up;
- the user table, the YouTube-id extractor and the search function;
- whether `window.YT.Player` exists;
- whether a channel appears within the 2-second wait;
- the result of injecting the script tag;
- the diagnostic checks.

Where the source relies on JavaScript truthiness (`x || y`, `if (!value)`),
the model treats the empty string, `null`/`undefined` and, for numbers, 0 as
false.

## Model

| member | source | states |
|---|---|---|
| ClockSync.Offset | src/hooks/useRoomAbly.ts:55-60 | the server's reading less the midpoint of the client's send and receive readings |
| ClockSync.MixedClocksOffset | src/hooks/useRoomAbly.ts:45-60 | with the client readings taken from `performance.now()` (counting from the page's time origin) and the server's from `Date.now()`, the estimate is the skew plus the page's time origin, so it misses the skew whenever the origin is not 0 |
| ClockSync.EpochProbe | src/hooks/useRoomAbly.ts:45-60 | moving the client readings onto the epoch clock by adding the page's time origin lowers the estimate by exactly that origin |
| ClockSync.EpochClocksOffset | src/hooks/useRoomAbly.ts:45-60 | with the client readings on the epoch clock and equal delays, the estimate is exactly the skew |
| ClockSync.EpochProbes | src/hooks/useRoomAbly.ts:42-66 | every probe keeps its place; a successful one is moved onto the epoch clock and a failed one stays failed |
| ClockSync.EpochProbesWithoutOrigin | src/hooks/useRoomAbly.ts:45-60 | with the page's time origin at 0 the probes are unchanged, so the corrected estimate then equals the source's |
| ClockSync.OffsetError | src/hooks/useRoomAbly.ts:55-60 | with a server clock ahead by `skew` and one-way delays `dOut` and `dBack`, the estimate is `skew + (dOut - dBack) / 2`, so equal delays give the skew exactly |
| ClockSync.SamplesOf | src/hooks/useRoomAbly.ts:42-66 | every sample is the offset of a successful probe; there are at most as many samples as probes, exactly as many when every probe succeeds, and none when every probe fails |
| ClockSync.AnsweredBefore | src/hooks/useRoomAbly.ts:42-66 | the number of successful probes among the first `k` is at most `k` |
| ClockSync.SamplesUpTo | src/hooks/useRoomAbly.ts:42-66 | the samples after `k` probes: one for each successful probe among them |
| ClockSync.SamplesUpToFromProbes | src/hooks/useRoomAbly.ts:42-66 | every sample after `k` probes is the offset of a successful probe among them; all `k` succeeding gives `k` samples and all failing gives none |
| ClockSync.SamplesInProbeOrder | src/hooks/useRoomAbly.ts:42-66 | the offset of successful probe `i` is the sample at the position given by the successful probes before it: the samples keep probe order |
| ClockSync.SamplesOfAnswered | src/hooks/useRoomAbly.ts:42-66 | exactly one sample per successful probe, each that probe's offset, in probe order |
| ClockSync.SortedSamples | src/hooks/useRoomAbly.ts:76 | the samples in ascending order: sorted, and a permutation of the input |
| ClockSync.Insert | src/hooks/useRoomAbly.ts:76 | inserting into a sorted sequence gives a sorted sequence one longer, with the new element added to its multiset |
| ClockSync.SortedUnique | src/hooks/useRoomAbly.ts:76 | two sorted arrangements of the same multiset are equal, so the sorted order (and hence the median) does not depend on how it was reached |
| ClockSync.SortAscending | src/hooks/useRoomAbly.ts:76 | `samples.sort((a, b) => a - b)` in place: the array ends sorted and is a permutation of its old contents |
| ClockSync.InsertInto | src/hooks/useRoomAbly.ts:76 | one insertion step: with the first `i` cells sorted, the first `i + 1` end sorted and the array keeps its multiset |
| ClockSync.SwapDown | src/hooks/useRoomAbly.ts:76 | exchanges two neighbouring cells and nothing else, keeping the multiset |
| ClockSync.SyncClockToServer | src/hooks/useRoomAbly.ts:40-78 | the loop over five probes followed by the in-place sort returns exactly the element at index ⌊n/2⌋ of the sorted samples, or 0 with no sample |
| ClockSync.Median | src/hooks/useRoomAbly.ts:74-77 | 0 without samples, otherwise one of the samples |
| ClockSync.MedianIsASample | src/hooks/useRoomAbly.ts:75-77 | the offset is 0 without samples; otherwise it is one of the samples and lies within any bounds that hold for all samples |
| ClockSync.MedianSplitsSorted | src/hooks/useRoomAbly.ts:76-77 | in the sorted samples, every element up to the middle is at most the offset and every element from the middle on is at least it |
| ClockSync.CountWithinPermutation | src/hooks/useRoomAbly.ts:76 | how many samples lie in an interval depends only on the multiset of samples, not on their order |
| ClockSync.MajorityWithinBoundsBoundsMedian | src/hooks/useRoomAbly.ts:74-77 | if more than half of the samples lie in `[lo, hi]`, the offset does too: a minority of outlier probes cannot move it out of range |
| ClockSync.SortedMajorityBoundsMiddle | src/hooks/useRoomAbly.ts:76-77 | in a sorted sequence of which more than half lies in `[lo, hi]`, the middle element does too |
| RoomAbly.ReceiptTime | src/hooks/useRoomAbly.ts:196-201 | the channel message's timestamp when it is present and non-zero, otherwise the current time |
| RoomAbly.OnPlaybackMessage | src/hooks/useRoomAbly.ts:189-207 | an update is delivered exactly when the client is not the creator and a callback is registered; it carries the receipt time as `serverTimestamp` and every other payload field unchanged |
| RoomAbly.PayloadTimestampIsIgnored | src/hooks/useRoomAbly.ts:196-201 | two messages that differ only in the payload's own `serverTimestamp` are delivered identically |
| RoomAbly.OnMessage | src/hooks/useRoomAbly.ts:209-231 | the `stream:change`, `reaction` and `skip:update` payloads reach the callback unchanged exactly when one is registered |
| RoomAbly.HasRoomId | src/hooks/useRoomAbly.ts:134 | a room id counts only when present and non-empty |
| RoomAbly.RoomConnection.constructor | src/hooks/useRoomAbly.ts:134-158 | a channel exists exactly when a non-empty room id and an API key are present; the connection starts down, with offset 0 and nothing published |
| RoomAbly.RoomConnection.OnConnected | src/hooks/useRoomAbly.ts:163-165 | the connection is reported up at once, while the clock offset, the channel and the messages published so far keep their old values; until the probes finish, gated publishes go out and playback updates are stamped with the old offset |
| RoomAbly.RoomConnection.OnClockSynced | src/hooks/useRoomAbly.ts:167-170 | once the probes finish, the stored offset is the median of the probes made, their client readings moved onto the epoch clock; with the time origin at 0 this is the source's own median of the raw readings; the connection flag, the channel and the messages published are unchanged. It is the corrected half of the finding below |
| RoomAbly.RoomConnection.OnDisconnected | src/hooks/useRoomAbly.ts:179-187 | the `disconnected` and `failed` events mark the connection down and change nothing else |
| RoomAbly.RoomConnection.Close | src/hooks/useRoomAbly.ts:233-239 | the clean-up releases the channel and changes nothing else |
| RoomAbly.RoomConnection.PublishPlaybackUpdate | src/hooks/useRoomAbly.ts:244-295 | only the creator publishes, and only with a channel, possibly one that appeared during the wait; the update is stamped with `now` plus the stored offset; in every other case nothing is published and the channel is unchanged |
| RoomAbly.RoomConnection.PublishStreamChange | src/hooks/useRoomAbly.ts:298-309 | appends one `stream:change` message exactly when a channel exists and the connection is up, and otherwise changes nothing |
| RoomAbly.RoomConnection.PublishReaction | src/hooks/useRoomAbly.ts:312-323 | appends one `reaction` message exactly when a channel exists and the connection is up, and otherwise changes nothing |
| RoomAbly.RoomConnection.PublishSkipUpdate | src/hooks/useRoomAbly.ts:326-337 | appends one `skip:update` message exactly when a channel exists and the connection is up, and otherwise changes nothing |
| RoomAbly.MemberPublishesNoPlayback | src/hooks/useRoomAbly.ts:250-253 | by the invariant every method keeps, a member's connection has published no playback update at all |
| RateLimit.CeilDiv | src/lib/api/rateLimit.ts:59 | `Math.ceil(x / d)`: the least `q` with `x <= q * d`, and non-negative for non-negative `x` |
| RateLimit.Step | src/lib/api/rateLimit.ts:44-75 | allowed exactly when the window is new or expired, or the count is below the limit; a new window gives count 1 ending at `now + window`, even with limit 0; otherwise an allowed request adds 1 to its own count; only the request's key changes; a refusal leaves the store unchanged and reports `ceil((resetTime - now) / 1000) >= 0` |
| RateLimit.Cleaned | src/lib/api/rateLimit.ts:94-100 | exactly the entries whose window ended before `now` are removed; the rest keep their records |
| RateLimit.Admitted | src/lib/api/rateLimit.ts:44-75 | a run of requests never has more requests allowed than it contains |
| RateLimit.CleanupKeepsDecision | src/lib/api/rateLimit.ts:37-44 | running the clean-up before a request never changes that request's decision |
| RateLimit.AdmittedInsideWindow | src/lib/api/rateLimit.ts:53-75 | inside an open window with count `c`, a run of requests has exactly `min(n, max(limit - c, 0))` of them allowed |
| RateLimit.WindowAdmitsExactly | src/lib/api/rateLimit.ts:44-75 | within one window exactly `min(n, max(limit, 1))` requests are allowed, and the rest are refused |
| RateLimit.TooManyRequests | src/lib/api/rateLimit.ts:55-70 | the refusal has status 429 and its four headers; `Retry-After` is the decimal form of the body's `retryAfter` |
| RateLimit.BeforeComma | src/lib/api/rateLimit.ts:82 | `split(',')[0]`: the longest prefix without a comma |
| RateLimit.GetClientIP | src/lib/api/rateLimit.ts:78-92 | the first `x-forwarded-for` entry, trimmed; else `x-real-ip`; else "unknown"; an empty header counts as absent |
| RateLimit.RateLimiter.constructor | src/lib/api/rateLimit.ts:10 | the store starts empty |
| RateLimit.RateLimiter.CleanupExpiredEntries | src/lib/api/rateLimit.ts:94-100 | deleting one key at a time leaves exactly `Cleaned(old store, now)` |
| RateLimit.RateLimiter.Check | src/lib/api/rateLimit.ts:36-76 | reading the record before the optional clean-up, the decision and the new store are those of `Step` on the cleaned or uncleaned store |
| RateLimit.RateLimiter.RateLimitRequest | src/lib/api/rateLimit.ts:27-76 | the key is the identifier when non-empty, else the client address; no response exactly when the request is allowed; otherwise the 429 response for that decision |
| ErrorConstants.StatusTableIsTotal | src/lib/api/errorConstants.ts:62-103 | every error code has a status |
| ErrorConstants.CategoryTableIsTotal | src/lib/api/errorConstants.ts:108-149 | every error code has a category |
| ErrorConstants.MessageTableIsTotal | src/lib/api/errorConstants.ts:154-195 | every error code has a default message |
| ErrorConstants.GetErrorCategory | src/lib/api/errorConstants.ts:207-209 | a plain lookup in the category table |
| ErrorConstants.GetErrorStatus | src/lib/api/errorConstants.ts:200-202 | the status table agrees with the categories: 400 for validation and business logic, 401, 403, 404, and 500 for database and internal codes, except DATABASE_CONNECTION_FAILED, which is 503 |
| ErrorConstants.GetErrorMessage | src/lib/api/errorConstants.ts:214-216 | a plain lookup in the message table, and never empty |
| ErrorConstants.StatusNotFoundIffCategoryNotFound | src/lib/api/errorConstants.ts:62-149 | the status is 404 exactly when the category is NOT_FOUND |
| ErrorConstants.ServiceUnavailableOnlyForConnectionFailure | src/lib/api/errorConstants.ts:96-98 | 503 exactly for DATABASE_CONNECTION_FAILED; every other database code gives 500 |
| ErrorConstants.StatusIsAnErrorStatus | src/lib/api/errorConstants.ts:62-103 | every status in the table is one of 400, 401, 403, 404, 500 and 503 |
| CustomErrors.MessageOrDefault | src/lib/api/errors/customErrors.ts:23 | the given message when it is non-empty, otherwise the code's default; never empty |
| CustomErrors.MessageOrDefaultIdempotent | src/lib/api/errors/customErrors.ts:23 | passing a resolved message back in returns it unchanged |
| CustomErrors.NewApiError | src/lib/api/errors/customErrors.ts:18-34 | name of the class, the code given, status and category derived from the code, the message or the default, details unchanged |
| CustomErrors.ToJson | src/lib/api/errors/customErrors.ts:39-48 | the six fields are reproduced unchanged |
| CustomErrors.NewValidationError | src/lib/api/errors/customErrors.ts:55-59 | always VALIDATION_ERROR, status 400 |
| CustomErrors.NewAuthenticationError | src/lib/api/errors/customErrors.ts:65-69 | always UNAUTHORIZED, status 401, with its default message |
| CustomErrors.NewAuthorizationError | src/lib/api/errors/customErrors.ts:75-79 | the code defaults to FORBIDDEN (403); status follows the code |
| CustomErrors.NewNotFoundError | src/lib/api/errors/customErrors.ts:85-89 | the code defaults to NOT_FOUND (404); status follows the code |
| CustomErrors.NewBusinessLogicError | src/lib/api/errors/customErrors.ts:95-99 | the given code, with the status and category it maps to |
| CustomErrors.NewDatabaseError | src/lib/api/errors/customErrors.ts:105-109 | the code defaults to DATABASE_ERROR (500); status follows the code |
| CustomErrors.NewInternalServerError | src/lib/api/errors/customErrors.ts:115-119 | always INTERNAL_SERVER_ERROR, status 500 |
| CustomErrors.IsErrorCodeIffBuiltWithCode | src/lib/api/errors/customErrors.ts:124-133 | `isErrorCode(e, c)` holds exactly for an ApiError built with code `c`, whichever class built it, and implies `isApiError(e)` |
| CustomErrors.IsApiError | src/lib/api/errors/customErrors.ts:124-126 | `isApiError(e)` holds exactly when `e` is an ApiError, whichever subclass built it |
| CustomErrors.IsErrorCode | src/lib/api/errors/customErrors.ts:131-133 | `isErrorCode(e, c)` holds exactly when `e` is an ApiError and its code is `c` |
| ApiErrors.CodeResponse | src/lib/api/errors.ts:80-127 | a response for a code has HTTP status and body status both equal to the code's status |
| ApiErrors.MentionsConnectionFailure | src/lib/api/errors.ts:79 | a message names a lost database connection when it contains "Can't reach database server" or "P1001" |
| ApiErrors.MentionsMissingTable | src/lib/api/errors.ts:92 | a message names a missing table when it contains "does not exist" or "Table" |
| ApiErrors.HandleApiError | src/lib/api/errors.ts:29-128 | HTTP status equals body status; schema errors give VALIDATION_ERROR/400 with "Invalid request data" and the issues; an ApiError keeps its code, status and message; a connection failure ("Can't reach database server" or "P1001") wins over a missing table and gives 503; a missing table gives DATABASE_SCHEMA_MISMATCH; any other Error gives 500 with its own message; a non-Error gives UNKNOWN_ERROR; details only in development |
| ApiErrors.ConstructedErrorKeepsCodeStatus | src/lib/api/errors.ts:45-62 | an error built by any constructor is answered with its own code and that code's status |
| ApiErrors.UnauthorizedResponse | src/lib/api/errors.ts:140-150 | 401 with UNAUTHORIZED and the given message or the default |
| ApiErrors.NotFoundResponse | src/lib/api/errors.ts:155-165 | the code defaults to NOT_FOUND (404); status follows the code; the given message or that code's default |
| Text.TrimEmptyIffBlank | src/lib/api/validation/index.ts:61 | `value.trim() === ""` exactly when the value is all whitespace |
| Text.TrimStart | src/lib/api/validation/index.ts:61 | the longest suffix not starting with whitespace; only whitespace is dropped |
| Text.TrimEnd | src/lib/api/validation/index.ts:61 | the longest prefix not ending in whitespace; only whitespace is dropped |
| Text.Trim | src/lib/api/validation/index.ts:61 | `trim()`: the result is a contiguous middle part of the input; everything before it and everything after it is whitespace, and it has no whitespace at either end |
| Text.TrimOfTrimmed | src/lib/api/validation/index.ts:61 | a string without whitespace at its ends is its own trim |
| Text.ShiftLetter | src/lib/api/validation/index.ts:91 | a letter of the source range moves to the same place in the target range; every other character is unchanged |
| Text.ToLower | src/lib/api/validation/index.ts:91 | `toLowerCase` on the ASCII letters, character by character, same length |
| Text.ToUpper | src/lib/utils/string/string.utils.ts:20 | `toUpperCase` on the ASCII letters, character by character, same length |
| Text.JoinStartsWithFirst | src/lib/youtube/youtube-debug.utils.ts:259 | a joined list of strings starts with its first string |
| Text.Join | src/lib/youtube/youtube-debug.utils.ts:259 | `parts.join(sep)`: empty for no parts, the part itself for one, otherwise the parts with `sep` between neighbours |
| Text.Contains | src/lib/api/errors.ts:79-93 | `s.includes(t)`, a search for `t` at each position of `s` from the left |
| Text.ContainsIffOccurs | src/lib/api/errors.ts:79-93 | `s.includes(t)` holds exactly when `t` occurs in `s` at some position |
| Text.IntToString | src/lib/api/rateLimit.ts:64-67 | `String(n)`: non-empty, starting with "-" exactly for negative numbers |
| RequestValidation.MissingKeys | src/lib/api/validation/index.ts:60-62 | only required keys that are absent, empty or blank are reported |
| RequestValidation.MissingKeysExactly | src/lib/api/validation/index.ts:60-62 | a key is reported exactly when it is required and missing |
| RequestValidation.MissingKeysOfConcat | src/lib/api/validation/index.ts:60-62 | the report keeps the order of `requiredKeys`: filtering a concatenation concatenates the filtered parts |
| RequestValidation.NoMissingKeys | src/lib/api/validation/index.ts:60-64 | nothing is reported exactly when every required key is present and not blank |
| RequestValidation.ValidateParams | src/lib/api/validation/index.ts:54-72 | succeeds exactly when every required key is present and not blank, returning the parameters unchanged; otherwise a VALIDATION_ERROR (400) naming the missing keys in order |
| RequestValidation.GetQueryParam | src/lib/api/validation/index.ts:78-81 | null exactly when no pair has the key; otherwise the value of the first such pair |
| RequestValidation.GetBooleanQueryParam | src/lib/api/validation/index.ts:88-93 | null exactly when the key is absent; otherwise true exactly when the lower-cased value is "true", "1", "yes" or "on" |
| RequestValidation.BooleanQueryParamExamples | src/lib/api/validation/index.ts:86-92 | "TRUE" and "On" give true; "0" and "" give false; absence gives null |
| RequestValidation.MissingHeaderNames | src/lib/api/validation/index.ts:117-124 | only required headers that are absent or empty are listed |
| RequestValidation.NoMissingHeaders | src/lib/api/validation/index.ts:117-126 | nothing is listed exactly when every required header is present and non-empty |
| RequestValidation.CollectHeaders | src/lib/api/validation/index.ts:114-124 | the loop lists the missing headers in the order required, and copies exactly the present required headers with the request's values |
| RequestValidation.ValidateHeaders | src/lib/api/validation/index.ts:110-134 | succeeds exactly when no required header is absent or empty, with a map whose keys are exactly the required headers and whose values are the request's; otherwise a VALIDATION_ERROR (400) listing the missing headers in order |
| RoomSchemas.ParseCreateRoom | src/validation/rooms/rooms.validation.ts:3-7 | accepted exactly when the name is a string of 1 to 100 characters, the description is absent or at most 500, and `isPublic` is absent or a boolean; `isPublic` defaults to true |
| RoomSchemas.CreateRoomRoundTrip | src/validation/rooms/rooms.validation.ts:3-7 | an input within the bounds survives encoding and parsing unchanged; one outside them is refused |
| RoomSchemas.CreateRoomDefaultsToPublic | src/validation/rooms/rooms.validation.ts:6 | a body with only a valid name parses as a public room without description |
| RoomSchemas.ParseAddStream | src/validation/rooms/rooms.validation.ts:11-16 | accepted exactly when both fields are well-typed and at least one of `streamId` and `url` is present and non-empty |
| RoomSchemas.AddStreamNeedsIdOrUrl | src/validation/rooms/rooms.validation.ts:14-16 | with both fields absent or empty the body is refused |
| RoomSchemas.ParsePlaybackUpdate | src/validation/rooms/rooms.validation.ts:20-23 | accepted exactly when `playbackTime` is a number and `isPlaying` a boolean, and those two values are returned |
| RoomSchemas.PlaybackUpdateRoundTrip | src/validation/rooms/rooms.validation.ts:20-23 | any update survives encoding and parsing, whatever other fields the body has |
| StringUtils.Truncate | src/lib/utils/string/string.utils.ts:8-13 | a string that fits is returned unchanged; otherwise the result is exactly `maxLength` long, a prefix of the input followed by the suffix |
| StringUtils.TruncateWithEllipsis | src/lib/utils/string/string.utils.ts:8 | with the default suffix the result never exceeds `maxLength` and a cut string ends in "..." |
| StringUtils.TruncateIdempotent | src/lib/utils/string/string.utils.ts:8-13 | truncating twice equals truncating once |
| StringUtils.Capitalize | src/lib/utils/string/string.utils.ts:18-21 | same length; the first character upper-cased and the rest lower-cased, on the ASCII letters; "" stays "" |
| StringUtils.CapitalizeIdempotent | src/lib/utils/string/string.utils.ts:18-21 | capitalizing twice equals capitalizing once, for ASCII case mapping |
| Sanitize.CollapseWhitespace | src/lib/utils/string/sanitize.utils.ts:15 | never longer, empty exactly when the input is, and single-spaced: every whitespace character left is a plain space and no two are adjacent |
| Sanitize.CollapseSingleSpaced | src/lib/utils/string/sanitize.utils.ts:15 | a string that is already single-spaced is unchanged |
| Sanitize.RemoveAngleBrackets | src/lib/utils/string/sanitize.utils.ts:16 | no `<` or `>` remains; a string without them is unchanged |
| Sanitize.LeadingNewlines | src/lib/utils/string/sanitize.utils.ts:28 | the length of the run of newlines at the start |
| Sanitize.SanitizeRoomName | src/lib/utils/string/sanitize.utils.ts:12-17 | never longer than the input, and free of `<` and `>` |
| Sanitize.SanitizeRoomNameKeepsCleanName | src/lib/utils/string/sanitize.utils.ts:12-17 | a name already trimmed, single-spaced and free of angle brackets comes back unchanged |
| Sanitize.CollapseNewlines | src/lib/utils/string/sanitize.utils.ts:28 | never longer, and no three newlines in a row remain; a string without such a run is unchanged |
| Sanitize.FirstClose | src/lib/utils/string/sanitize.utils.ts:29 | the position of the first `>`, or -1 when there is none |
| Sanitize.StripTags | src/lib/utils/string/sanitize.utils.ts:29 | never longer, and no `<` is followed anywhere later by a `>`; a string in which the expression matches nowhere is unchanged |
| Sanitize.SanitizeDescription | src/lib/utils/string/sanitize.utils.ts:25-30 | never longer, and no `<` is followed anywhere later by a `>` |
| Sanitize.SanitizeDescriptionKeepsCleanText | src/lib/utils/string/sanitize.utils.ts:25-30 | a description already trimmed, without three newlines in a row and without a tag comes back unchanged |
| Sanitize.RemoveNul | src/lib/utils/string/sanitize.utils.ts:40 | no NUL remains; a string without one is unchanged |
| Sanitize.SanitizeText | src/lib/utils/string/sanitize.utils.ts:37-41 | never longer, and without NUL characters |
| Sanitize.SanitizeTextKeepsCleanText | src/lib/utils/string/sanitize.utils.ts:37-41 | text already trimmed and without NUL characters comes back unchanged |
| StreamsService.WithCounts | src/features/streams/services/streams.service.ts:72-75 | each row once, in order, with `upvoteCount` equal to the length of its upvote list |
| StreamsService.Reversed | src/features/streams/services/streams.service.ts:82 | `reverse()`: element `k` of the result is element `n - 1 - k` of the input |
| StreamsService.ReversedKeepsElements | src/features/streams/services/streams.service.ts:82 | reversing is a permutation |
| StreamsService.SortByUpvotesDesc | src/features/streams/services/streams.service.ts:79 | in place, the array ends non-increasing by `upvoteCount` and is a permutation of its old contents |
| StreamsService.InsertInto | src/features/streams/services/streams.service.ts:79 | one insertion step keeps a longer prefix in non-increasing order and the multiset intact |
| StreamsService.SwapDown | src/features/streams/services/streams.service.ts:79 | exchanges two neighbouring cells and nothing else, keeping the multiset |
| StreamsService.ReverseInPlace | src/features/streams/services/streams.service.ts:82 | in place, the array ends as the reverse of its old contents |
| StreamsService.GetStreams | src/features/streams/services/streams.service.ts:54-86 | same length, counts matching the upvote lists, a permutation of the counted rows; non-increasing by upvotes for "mostUpvoted", the fetched order reversed for "newest" |
| StreamsService.MostUpvotedExample | src/features/streams/services/__tests__/streams.service.test.ts:97-118 | two upvotes then one upvote give counts 2 and 1, already in order |
| StreamsService.StreamStore.constructor | src/features/streams/services/streams.service.ts:18-49 | a store with the given users and no streams or lookups |
| StreamsService.StreamStore.CreateStream | src/features/streams/services/streams.service.ts:18-49 | a failed id extraction gives YOUTUBE_ID_EXTRACTION_FAILED before any user lookup; an unknown creator gives USER_NOT_FOUND after one lookup and creates nothing; otherwise one stream owned by the creator, with the extracted id and type Youtube, is added |
| StreamsService.CreateStreamRefusals | src/features/streams/services/streams.service.ts:26-35 | those two refusals are a 400 and a 404, the latter with message "User not found" |
| Recommendations.Take | app/api/youtube/recommendations/route.ts:35 | `slice(0, n)`: a prefix of length `min(n, length)` |
| Recommendations.NonBlankTitlesOf | app/api/youtube/recommendations/route.ts:32-34 | only titles that are present and not blank are kept, at most one per stream |
| Recommendations.StreamTitles | app/api/youtube/recommendations/route.ts:32-35 | at most five titles, none of them blank |
| Recommendations.Tokens | app/api/youtube/recommendations/route.ts:45 | `split(/\s+/)` without empty pieces: every piece is a non-empty word without whitespace |
| Recommendations.FirstWord | app/api/youtube/recommendations/route.ts:45 | the longest prefix without whitespace, ending at whitespace or at the end |
| Recommendations.TokensOfJoin | app/api/youtube/recommendations/route.ts:45-50 | words joined with single spaces split back into exactly those words |
| Recommendations.TokensOfNoUpperCase | app/api/youtube/recommendations/route.ts:44-45 | the words of a lower-cased title have no capitals |
| Recommendations.Qualifying | app/api/youtube/recommendations/route.ts:46 | only words longer than three characters and not among the common words pass |
| Recommendations.TermWords | app/api/youtube/recommendations/route.ts:43-47 | at most four words, each a word lower-cased on the ASCII letters, longer than three characters and not a common word |
| Recommendations.TermFor | app/api/youtube/recommendations/route.ts:43-57 | the search term for one title; what it means is stated by `TermForMeaning` |
| Recommendations.TermForMeaning | app/api/youtube/recommendations/route.ts:49-57 | a word-based term splits back into exactly the chosen words; without such words the term is the title cut to at most 30 characters, and the whole title when it is that short |
| Recommendations.ForEachTitle | app/api/youtube/recommendations/route.ts:42-58 | the `forEach` pushes one term per title, in order, and records every title as a basis |
| Recommendations.MapSeq | app/api/youtube/recommendations/route.ts:42-58 | one result per element, at the same position |
| Recommendations.DeriveSearchTerms | app/api/youtube/recommendations/route.ts:37-62 | one term per title, or the three default terms and "popular content" when there is no title |
| Recommendations.FlattenConcat | app/api/youtube/recommendations/route.ts:76-102 | the items of consecutive searches are the concatenation of their items |
| Recommendations.FailedSearchIsSkipped | app/api/youtube/recommendations/route.ts:99-101 | a search that throws contributes nothing, and the later searches are still used |
| Recommendations.DiscoverDistinct | app/api/youtube/recommendations/route.ts:82-96 | the recommendations have pairwise distinct ids, none empty and none the user's own |
| Recommendations.Discover | app/api/youtube/recommendations/route.ts:82-96 | never more recommendations than items |
| Recommendations.DiscoverFromItems | app/api/youtube/recommendations/route.ts:87-95 | each recommendation is built from one of the search items |
| Recommendations.DiscoverCovers | app/api/youtube/recommendations/route.ts:82-96 | every wanted item found has its id among the recommendations |
| Recommendations.ToRecommendation | app/api/youtube/recommendations/route.ts:87-95 | id, `extractedId` and the watch URL come from the item's id, and the title falls back to "Untitled" |
| Recommendations.CollectRecommendations | app/api/youtube/recommendations/route.ts:73-102 | the two nested loops query the first three terms and keep exactly `Discover` of the items found, with the seen-id set equal to the ids kept |
| Recommendations.OutcomesOf | app/api/youtube/recommendations/route.ts:76-79 | one search outcome per term, in order |
| Recommendations.DeriveTerms | app/api/youtube/recommendations/route.ts:40-62 | no titles give the three default terms; otherwise one term per title, in order |
| Recommendations.BasedOn | app/api/youtube/recommendations/route.ts:40-62 | never empty; with titles it is the titles themselves |
| Recommendations.GetRecommendations | app/api/youtube/recommendations/route.ts:8-114 | a missing user id is the only failure, a VALIDATION_ERROR; no streams gives the empty answer; otherwise at most ten recommendations, pairwise distinct, none the user's own, in discovery order, with `basedOn` the first three titles the terms came from, and no message |
| YouTubeApi.GetPlayerStateName | src/lib/youtube/youtube-api.utils.ts:212-222 | every answer other than UNKNOWN is one of the six state names |
| YouTubeApi.PlayerStateNames | src/types/youtube/iframe.types.ts:90-97 | every `PlayerState` code maps to the enum member's name, and exactly the codes outside the enum give UNKNOWN |
| YouTubeApi.GetPlayerErrorMessage | src/lib/youtube/youtube-api.utils.ts:227-241 | 2 gives "Invalid parameter value", 5 "HTML5 player error", 100 "Video not found or has been removed", 101 and 150 "Video owner does not allow embedding"; any other code is embedded in "Unknown error (code: …)", which the ensures states |
| YouTubeApi.EmbeddingRefusalsShareMessage | src/lib/youtube/youtube-api.utils.ts:235-237 | codes 101 and 150, and only they, give the "not embeddable" message |
| YouTubeApi.Rejections | src/lib/youtube/youtube-api.utils.ts:141 | one rejection with the message per waiting request, in order |
| YouTubeApi.ReadyOutcomes | src/lib/youtube/youtube-api.utils.ts:44-51 | one outcome per waiting request, in order: resolved when the player exists, rejected with the "YT.Player not available" error otherwise |
| YouTubeApi.SettleQueue | src/lib/youtube/youtube-api.utils.ts:141-143 | settling a queue of distinct, unsettled requests leaves every promise settled at most once |
| YouTubeApi.Loader.constructor | src/lib/youtube/youtube-api.utils.ts:20-26 | not loading, not loaded, no retries, empty queues |
| YouTubeApi.Loader.IsYouTubeAPILoaded | src/lib/youtube/youtube-api.utils.ts:205-207 | true exactly when the player is available and the API has been marked loaded |
| YouTubeApi.Loader.RejectWaiting | src/lib/youtube/youtube-api.utils.ts:141 | every waiting error callback is called once, in order, with the message |
| YouTubeApi.Loader.RunLoadCallbacks | src/lib/youtube/youtube-api.utils.ts:189-195 | every waiting load callback runs once, in order, resolving when the player exists and rejecting otherwise |
| YouTubeApi.Loader.GiveUpWaiting | src/lib/youtube/youtube-api.utils.ts:141-143 | every waiting promise is rejected once and both queues are emptied |
| YouTubeApi.Loader.NewRequest | src/lib/youtube/youtube-api.utils.ts:33 | `new Promise`: a fresh request id, with nothing else changed |
| YouTubeApi.Loader.ResolveNewest | src/lib/youtube/youtube-api.utils.ts:35-40 | the newest request is resolved at once, and the queues are untouched |
| YouTubeApi.Loader.EnqueueNewest | src/lib/youtube/youtube-api.utils.ts:43-53 | the newest request joins both queues, at the end |
| YouTubeApi.Loader.AttemptLoad | src/lib/youtube/youtube-api.utils.ts:73-176 | one more attempt; when injecting the script throws, every waiting promise is rejected with the injection message, both queues are emptied and loading stops |
| YouTubeApi.Loader.LoadYouTubeAPI | src/lib/youtube/youtube-api.utils.ts:32-68 | when already loaded, the new promise resolves and the queues are untouched; while loading, it is only queued and no attempt starts; otherwise it is queued, loading starts, and one attempt is made |
| YouTubeApi.Loader.OnScriptError | src/lib/youtube/youtube-api.utils.ts:104-146 | loading stops; below three retries, the count rises by exactly one and a retry is scheduled; at three, every waiting promise is rejected with the give-up message, the queues are emptied and the count returns to 0 |
| YouTubeApi.Loader.OnRetryTimer | src/lib/youtube/youtube-api.utils.ts:123-127 | a pending retry sets loading again and makes one more attempt. If the script injection succeeds, both queues and the settled promises are unchanged. If it throws, every waiting promise is rejected once with the injection message and both queues are emptied. Without a pending retry nothing changes |
| YouTubeApi.Loader.HandleAPIReady | src/lib/youtube/youtube-api.utils.ts:181-200 | loaded, not loading, retry count 0, every waiting load callback run once, both queues empty |
| YouTubeApi.Loader.OnReadyTimeout | src/lib/youtube/youtube-api.utils.ts:83-91 | if the player turned up without the callback, the ready handler runs; otherwise nothing changes |
| YouTubeApi.EachPromiseSettlesOnce | src/lib/youtube/youtube-api.utils.ts:32-200 | in any state the loader reaches, no two settlements concern the same promise, and only promises already handed out are settled |
| YouTubeDebug.Appended | src/lib/youtube/youtube-debug.utils.ts:71-76 | the new entry is last and the older entries keep their order; the oldest is dropped only at the cap; a log within 100 entries stays within 100 |
| YouTubeDebug.Deliveries | src/lib/youtube/youtube-debug.utils.ts:206-215 | one delivery of the same state per listener, in listener order |
| YouTubeDebug.IndexOf | src/lib/youtube/youtube-debug.utils.ts:55 | `indexOf`: -1 exactly when absent, otherwise the position of the first occurrence |
| YouTubeDebug.RemoveFirst | src/lib/youtube/youtube-debug.utils.ts:53-58 | removes the first occurrence of the listener, and is a no-op when it is absent |
| YouTubeDebug.RemoveFirstRemovesOne | src/lib/youtube/youtube-debug.utils.ts:53-58 | exactly one occurrence is removed when there is one |
| YouTubeDebug.DebugLog.constructor | src/lib/youtube/youtube-debug.utils.ts:27-43 | the initial debug state with no listeners |
| YouTubeDebug.DebugLog.GetDebugInfo | src/lib/youtube/youtube-debug.utils.ts:177-179 | the snapshot never holds more than 100 log entries |
| YouTubeDebug.DebugLog.NotifyListeners | src/lib/youtube/youtube-debug.utils.ts:206-215 | every listener receives the current state once, in order |
| YouTubeDebug.DebugLog.Subscribe | src/lib/youtube/youtube-debug.utils.ts:48-52 | appends one listener and immediately sends it the current state |
| YouTubeDebug.DebugLog.Unsubscribe | src/lib/youtube/youtube-debug.utils.ts:53-58 | removes one occurrence of the listener, and is a no-op if none remains |
| YouTubeDebug.DebugLog.LogDebug | src/lib/youtube/youtube-debug.utils.ts:64-92 | appends the entry under the 100-entry cap, keeps the state otherwise, and notifies every listener |
| YouTubeDebug.DebugLog.UpdateDebugStatus | src/lib/youtube/youtube-debug.utils.ts:99-108 | sets the status; `lastError` changes only for a non-empty error string; listeners are notified |
| YouTubeDebug.DebugLog.UpdateAttempts | src/lib/youtube/youtube-debug.utils.ts:113-116 | sets the attempt count only, and notifies |
| YouTubeDebug.DebugLog.ResetDebugInfo | src/lib/youtube/youtube-debug.utils.ts:184-201 | restores the initial state (idle, 0 of 3 attempts, no error, no logs, initial checks), keeps the listeners, and notifies them |
| YouTubeDebug.Last | src/lib/youtube/youtube-debug.utils.ts:237 | `slice(-n)`: the last `min(n, length)` elements |
| YouTubeDebug.Recommendations | src/lib/youtube/youtube-debug.utils.ts:245-257 | each hint appears exactly when its condition holds (blocked; in DOM but not loaded; not in DOM; loaded without `window.YT`), and none twice |
| YouTubeDebug.HintText | src/lib/youtube/youtube-debug.utils.ts:247-256 | the text of each of the four hints: blocked network, script in the DOM but not loaded, script not in the DOM, and script loaded without `window.YT` |
| YouTubeDebug.HeaderLines | src/lib/youtube/youtube-debug.utils.ts:222-234 | the header has twelve lines, the first being the report title |
| YouTubeDebug.LogLines | src/lib/youtube/youtube-debug.utils.ts:236-240 | one formatted line per entry, in order |
| YouTubeDebug.HintLines | src/lib/youtube/youtube-debug.utils.ts:253-257 | one line per hint, in order |
| YouTubeDebug.DiagnosticLines | src/lib/youtube/youtube-debug.utils.ts:220-260 | the twelve header lines, the section title, the log lines of the ten most recent entries, then the recommendation title and hints |
| YouTubeDebug.ReportShowsTenNewest | src/lib/youtube/youtube-debug.utils.ts:237 | with ten or more entries, the report's log section is exactly the ten newest entries |
| YouTubeDebug.GenerateDiagnosticReport | src/lib/youtube/youtube-debug.utils.ts:220-260 | the report opens with its title line |
| YouTubeDebug.InitialReportHint | src/lib/youtube/youtube-debug.utils.ts:33-40 | with the initial checks, the only hint is the script-injection one |

## Left out

- The playback driver loop, follower drift correction and the skip-vote quorum are not in the source files modelled. `src/constants/rooms/sync.constants.ts` holds only their tuning constants, so no behaviour is modelled for them.
- React hooks, effects and refs, Ably's realtime connection, `fetch`, `setTimeout` and the 50 ms pause between probes are left out. The probe results, connection events and the outcome of the 2-second channel wait are inputs.
- Text.ToLower, Text.ToUpper: case mapping covers the ASCII letters only. Unicode mapping is not modelled, such as "É" to "é", or "ß" to "SS", which changes the length. The same-length claim holds for this mapping only.
- StringUtils.Capitalize, StringUtils.CapitalizeIdempotent: they inherit the ASCII-only mapping. Capitalizing "ßa" or "ÉCOLE" differs from JavaScript, and idempotence is proved for the ASCII mapping only.
- Recommendations.TermWords: words are lower-cased on the ASCII letters only, so a title such as "ÉCOLE" keeps its accented capital.
- String lengths count Unicode code points, while JavaScript's `length` and `substring` count UTF-16 code units. Outside the Basic Multilingual Plane the two differ. This affects RoomSchemas.ParseCreateRoom's 100- and 500-character limits, StringUtils.Truncate's `maxLength`, Recommendations.TermWords' longer-than-three test and the 30-character fallback in Recommendations.TermFor.
- `performance.now()` and `Date.now()` precision is left out. Times are exact reals in the clock model and integer milliseconds in the rate limiter.
- ClockSync.SyncClockToServer: the `catch` around the whole estimate, which falls back to offset 0, is not modelled. Nothing inside the modelled computation can throw.
- ClockSync.SortAscending and StreamsService.SortByUpvotesDesc: both are proved sorted and a permutation. Neither is proved to be the stable order that JavaScript's `sort` gives to equal keys.
- StringUtils.Truncate: requires `|suffix| <= maxLength` whenever the string is cut. With a longer suffix, JavaScript's `slice` with a negative end applies, and that is not modelled.
- RateLimit.RateLimiter.Check: the 1-in-1000 random draw that triggers the clean-up is the boolean input `runCleanup`.
- RequestValidation.ValidateHeaders and RateLimit.GetClientIP: header lookup is by exact, already lower-cased name. The case-insensitive matching of the `Headers` object is not modelled.
- RequestValidation.GetQueryParam: the query string is a list of decoded pairs. URL parsing and percent-decoding are not modelled.
- RoomSchemas.ParseAddStream: `z.string().url()` is the predicate parameter `isUrl`. Zod's other internals, `sanitizeUrl`, `getNumberQueryParam`, `parseRequestBody` and `validateRequest` are not modelled.
- StreamsService.StreamStore.CreateStream: `CreateStreamSchema.parse` is not modelled. Its inputs are taken as already validated, and the id extractor is a function parameter.
- Recommendations.GetRecommendations: the database query (`take: 10`) and the search library are inputs. A search result's thumbnail is the URL of its last thumbnail, or "" when there is none. Error responses go through `HandleApiError`, which is modelled separately.
- YouTubeApi.Loader.AttemptLoad: the DOM lookup for an already-present script is not modelled. Both that branch and a successful injection end with the loader waiting for the ready callback, the ready timeout or a script error.
- YouTubeApi.Loader: the loader's calls into the debug log are not modelled (`logDebug`, `updateDebugStatus`, `updateAttempts`). The two modules are modelled separately, and `attempts` counts the attempts started.
- `runDiagnostics` and `testYouTubeConnectivity` are not modelled. They probe the browser and network, and the report takes their checks as an input.
- YouTubeDebug.DebugLog.GetDebugInfo: `{ ...debugInfo }` is a shallow copy that shares the logs array with later updates. Here a snapshot is a value.
- YouTubeDebug.DebugLog.NotifyListeners, YouTubeDebug.DebugLog.Subscribe and YouTubeDebug.Deliveries: listeners receive the same kind of shallow copy, whose logs array later `logDebug` calls go on changing. Here each delivery holds the snapshot as it was when sent.
- Time formatting (`toLocaleTimeString`) is the function parameter `formatTime`.
- `console` output is not modelled.
- Sanitize.SanitizeRoomName is not idempotent in general. Removing an angle bracket can bring two spaces together, as in "a <> b". Only clean names are proved to come back unchanged.

## Findings

| source | as written | input that shows it | evidently intended | confidence | as-written member | corrected member |
|---|---|---|---|---|---|---|
| src/hooks/useRoomAbly.ts:45-60, 277 | `t0` and `t3` are `performance.now()` readings, counted from the page's time origin, while `t1` is the server's `Date.now()` (app/api/time/route.ts:10), counted from the epoch. The estimate therefore carries the origin, and `Date.now() + offset` at line 277 runs ahead of the server clock by that amount. Receivers stamp updates with the channel's receipt time (line 196), which masks it. | synchronised clocks (`skew` 0), delays of 10 ms each way, and a page loaded at epoch time 1,000,000: the estimate is 1,000,000 ms, not 0 | both client readings on the epoch clock (`performance.timeOrigin + performance.now()`, or `Date.now()`), so the estimate is the skew | high (derived by hand, not executed) | ClockSync.MixedClocksOffset | ClockSync.EpochProbe, with ClockSync.EpochClocksOffset; RoomAbly.RoomConnection.OnClockSynced measures from ClockSync.EpochProbes |
