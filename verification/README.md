# Dataprovider.com PHP SDK — the authenticated request pipeline, in Dafny

This project models the core of the Dataprovider.com PHP SDK client and proves
properties of that model. The core is:

- `ApiClient::doRequest`: it checks the path, assembles the URL, attaches the
  bearer header, calls the transport, and handles a 401.
- `ApiClient::authenticate`: it tries the refresh-token grant and falls back
  to the password grant.
- The two grant helpers.
- The `get`/`post`/`put` wrappers.
- The parts of `CurlClient` that shape a request and classify a reply:
  `setRequestHeaders`, `setBody`, `send` and `throwForStatus`.

The client's mutable fields `accessToken` and `refreshToken` become an
immutable `ApiClient.State`. Every operation is a pure function from a state to
a `Step`, which holds a `Result` (a value, or a PHP exception as
`Php.Error`) and the next state. The curl transport becomes a script: a
sequence of `CurlClient.Reply` values with a cursor. Each transport call
consumes one reply, and the request handed to the transport is appended to
`State.log`, the same way the unit tests' mock serves consecutive replies and
records what was sent. A script that runs out is a RuntimeException-class
error.

`doRequest`, `authenticate`, the grant helpers and `post` recurse into one
another. They are one group of functions that terminates by a lexicographic
measure:

1. The replies still to come.
2. A rank by function: the header step and doRequest on the auth path rank
   below the grants, the grants below authenticate, and authenticate below
   the header step and doRequest on any other path.
3. Whether a refresh token is cached, which covers authenticate's fallback
   re-entry.

The functions carry only the small contracts that the measure needs. What
each one guarantees is proved in `ApiClientContracts`, by one lemma per
function, all sharing that measure. The exception is `Post`, whose contract
is `ApiClientProperties.VerbWrappers`.

Modules:

- `Wrappers`: `Option`, `Result`.
- `Text`: PHP's `ltrim`/`rtrim` of one character, `implode`/`explode`, and
  decimal rendering.
- `Php`: array values, PHP's `empty`, and the two exception classes used.
- `ApiResponse`: the (body, status) record.
- `CurlClient`: header lines, the body payload, `send`'s contract, and
  `throwForStatus`.
- `ApiClient`: the pipeline.
- `ApiClientContracts`: the per-function contracts.
- `ApiClientProperties`: properties that span several steps.
- `ApiClientScenarios`: the unit tests, as exact traces.

Four behaviours of the code worth knowing:

- **No retry cap on a 401.** A 401 that arrives while an access token is
  cached restarts `doRequest` every time, not at most once. The bound comes
  only from the replies available. `ApiClientScenarios.RepeatedRetryTrace`
  shows a call that is restarted twice.
- **The Authorization header is sent only when `authenticate` ran in the same
  invocation.** A request made while a token is already cached carries
  Content-Type alone.
- **The auth-path test uses the untrimmed path.**
- **`"0"` counts as an empty path.**

## Model

| member | source | states |
|---|---|---|
| Text.TrimLeftSpec | src/Client/ApiClient.php:98 | `ltrim($path, '/')` returns a suffix of the path that does not start with '/'. Everything it removed was '/'. |
| Text.TrimRightSpec | src/Client/ApiClient.php:100 | `rtrim(..., '?')` returns a prefix that does not end with '?'. Everything it removed was '?'. |
| Text.SplitJoin | src/Client/CurlClient.php:39 | Splitting on ';' undoes `implode(';', ...)` on a non-empty list whose items contain no ';'. |
| Text.DecimalRoundTrip | src/Client/CurlClient.php:82-84 | The decimal rendering of a status code, as interpolated into the message, reads back as the same number. |
| Text.NatToString | src/Client/CurlClient.php:82-84 | PHP's interpolation of a non-negative integer: non-empty, all digits, and with no leading zero for numbers of two or more digits. Only statuses 400-599 and positive curl error numbers are rendered, so the '-' of a negative number never arises. |
| Text.ThreeDigits | src/Client/CurlClient.php:82-84 | A number from 100 to 999 renders as exactly its hundreds, tens and units digits. |
| CurlClient.SetRequestHeaders | src/Client/CurlClient.php:34-44 | It returns one line per header entry, the same count, in input order. Line i is "name: value", with the entry's values joined by ';'. |
| CurlClient.ScalarHeaderLine | src/Client/CurlClient.php:39-40 | A scalar header value reaches the line unchanged, as "name: value". |
| CurlClient.HeaderLineRoundTrip | src/Client/CurlClient.php:38-41 | A header line parses back to its name (the text before the first ':') and exactly the list of values that were joined. |
| CurlClient.SetBody | src/Client/CurlClient.php:46-53 | No payload is set exactly when the body is null or empty. Otherwise the payload is the JSON encoding of that very body. |
| CurlClient.Receive | src/Client/CurlClient.php:62-78 | A curl failure raises a RuntimeException with code 0, "Curl error: ..." as its message, and no response. Otherwise the reply's body comes back with the reported HTTP code, or 0 when curl reported none. |
| CurlClient.ThrowForStatus | src/Client/CurlClient.php:80-86 | It raises exactly for 400 <= status < 600. What it raises is a RuntimeException whose code is the status. |
| CurlClient.StatusClassAgreement | src/Client/CurlClient.php:80-86 | It raises exactly when the hundreds digit is 4 or 5. The message names a client error exactly for the 4 class. |
| CurlClient.StatusMessageRoundTrip | src/Client/CurlClient.php:81-84 | The message reads back. The text before its first blank is the status in canonical decimal: non-empty digits, no leading zero, and the value of the status. The rest is "Client Error: " below 500 and "Server Error: " otherwise, followed by the body verbatim. |
| CurlClient.StatusMessageDigits | src/Client/CurlClient.php:81-84 | Every status that raises has three digits, and the message spells out the hundreds, tens and units digits, then " Client Error: " (below 500) or " Server Error: ", then the body. |
| ApiClient.PlainPathValid | src/Client/ApiClient.php:92-96 | A non-empty path other than "0" that does not begin with 'h' passes both path checks. |
| ApiClient.DoRequest | src/Client/ApiClient.php:90-124 | It never rewinds the transport. On the auth path with no token cached it leaves both tokens as they were. |
| ApiClient.Transmit | src/Client/ApiClient.php:108-123 | It never rewinds the transport. With no access token cached, it leaves both tokens as they were, because no 401 retry can start. |
| ApiClient.AttachAuth | src/Client/ApiClient.php:101-106 | It never rewinds the transport. |
| ApiClient.Authenticate | src/Client/ApiClient.php:126-148 | It is called only with no access token cached, and it never rewinds the transport. |
| ApiClient.GetAccessTokenByCredentials | src/Client/ApiClient.php:150-157 | The password-grant POST never rewinds the transport. With no access token cached, it changes no token. |
| ApiClient.GetAccessTokenByRefreshToken | src/Client/ApiClient.php:159-165 | The refresh-grant POST never rewinds the transport. With no access token cached, it changes no token. |
| ApiClient.Post | src/Client/ApiClient.php:68-71 | It never rewinds the transport. On the auth path with no token cached it changes no token. |
| ApiClientContracts.SendFacts | tests/ApiClientTest.php:20-39 | One transport call appends exactly its request to the log and leaves the tokens alone. It succeeds only by consuming the next scripted reply, which it returns. Its only failure is a RuntimeException. |
| ApiClientContracts.DoRequestContract | src/Client/ApiClient.php:90-124 | A bad path fails with InvalidArgument and the source's message, and leaves the state untouched. A good path sends at least one request and is never rejected as an argument. On the auth path with no token, exactly one request goes out, with Content-Type alone. A success is the last reply consumed, has a status outside 400-599, and the last request logged is the one for this URL, method and body. |
| ApiClientContracts.TransmitContract | src/Client/ApiClient.php:108-123 | The first request logged is this URL, method, body and headers. With no access token cached, nothing else is sent. A success is the last reply consumed and has a status outside 400-599. |
| ApiClientContracts.AttachAuthContract | src/Client/ApiClient.php:101-106 | With a token cached, or on the auth path, the headers are Content-Type alone and nothing else happens. Otherwise the first request is the grant authenticate picks. A success appends `Authorization: Bearer <t>`, where t is the access token decoded from the exchange's reply. A failure is a RuntimeException and leaves no token. |
| ApiClientContracts.AuthenticateContract | src/Client/ApiClient.php:126-148 | The first request is the refresh grant iff a refresh token is cached; otherwise it is the password grant. At most one more request follows, only after a refresh, and it is the password grant. A success stores exactly the decoded access_token and refresh_token of the reply it consumed. A failure is a RuntimeException and leaves both tokens absent. |
| ApiClientContracts.CredentialsContract | src/Client/ApiClient.php:150-157 | With no access token, exactly one request goes out: the password grant (grant_type, username, password), POSTed to the auth path without Authorization. It is never an argument error. |
| ApiClientContracts.RefreshContract | src/Client/ApiClient.php:159-165 | With no access token, exactly one request goes out: the refresh grant carrying the cached refresh token, POSTed to the auth path without Authorization. It is never an argument error. |
| ApiClientProperties.UrlShape | src/Client/ApiClient.php:98-100 | The trimmed path never starts with '/'. With a non-empty query not ending in '?', the URL is HOST, "/", the path without its leading slashes, "?" and the query. With an empty query, it is HOST + "/" + the trimmed path with every trailing '?' stripped, including any the path itself ends with, and exactly HOST + "/" + the trimmed path when that does not end in '?'. |
| ApiClientProperties.TrailingQuestionMarkDropped | src/Client/ApiClient.php:100 | `rtrim` also strips the path's own trailing '?': path "a?" with no query gives HOST + "/a". |
| ApiClientProperties.NoQueryNoQuestionMark | src/Client/ApiClient.php:98-100 | With an empty query, a path without '?' gives a URL without '?', namely HOST + "/" + the trimmed path. |
| ApiClientProperties.NoParamsNoQuestionMark | src/Client/ApiClient.php:99-100 | Null or empty params, given only that http_build_query maps [] to "", put no '?' into the URL. |
| ApiClientProperties.BearerHeaderRule | src/Client/ApiClient.php:101-114 | If authentication fails, the target is never sent and the error propagates. Otherwise the next request is the target, with Content-Type plus `Authorization: Bearer <t>` exactly when no access token was cached at entry and the path is not the auth path. t is the freshly decoded access token. |
| ApiClientProperties.CallAfterHeaders | src/Client/ApiClient.php:101-114 | On a good path, doRequest is the transport step. It runs with the state and bearer header that authenticate left when authentication was needed and succeeded, and otherwise with the unchanged state and Content-Type. |
| ApiClientProperties.Retry401 | src/Client/ApiClient.php:116-119 | A 401 while an access token is cached logs the request and restarts doRequest with the same path, method, params and body. Only the access token is dropped. |
| ApiClientProperties.Retry401FromCache | src/Client/ApiClient.php:101-119 | With a token already cached, the request goes out with Content-Type only, and a 401 restarts the call with the access token dropped. |
| ApiClientProperties.TransmitWithoutToken | src/Client/ApiClient.php:108-121 | With no access token cached, exactly one request goes out whatever comes back. An exhausted script is a RuntimeException. Any reply is settled at once: a curl failure comes back as is, and a response goes through throwForStatus, so a 401 becomes "401 Client Error: <body>" with code 401. |
| ApiClientProperties.Unauthorized | src/Client/CurlClient.php:81-82 | throwForStatus on a 401 raises "401 Client Error: <body>" with code 401. |
| ApiClientProperties.TransmitWithToken | src/Client/ApiClient.php:108-123 | With a token cached: an exhausted script is a RuntimeException after one request. A 401 answer drops only the access token and restarts doRequest. Every other reply (a curl failure, an answer without a code, any other status) is settled at once, after exactly one request, with the tokens untouched. |
| ApiClientProperties.TransportErrorStops | src/Client/ApiClient.php:108-121 | Whatever tokens are cached, a curl failure ends the call: its RuntimeException (code 0) comes back unchanged, exactly one request is logged, and nothing more is sent. |
| ApiClientProperties.RefreshFailureFallsBackOnce | src/Client/ApiClient.php:128-141 | Any failure of the refresh exchange drops the refresh token and is followed by exactly one password exchange, two requests in all. If that exchange fails, its error is what authenticate raises, unchanged, and both tokens are absent. |
| ApiClientProperties.VerbWrappers | src/Client/ApiClient.php:54-85 | get/post/put are rejected as arguments exactly on a bad path. The last request of a success carries the wrapper's method and the caller's URL and body. |
| ApiClientScenarios.ValidGetStep | tests/ApiClientTest.php:65-95 | A fresh client's `get('test/get')` makes two requests: the password grant, then GET with `Bearer abc`, no body and no query. |
| ApiClientScenarios.ValidResponsesTrace | tests/ApiClientTest.php:65-112 | In get, then post, then put, each result is the scripted body. The GET URL has no '?'. The POST URL ends in "?test=test" and carries body {id: 1}. The PUT URL has no '?'. No new exchange happens because a token is cached, so the POST and PUT go out with Content-Type only, without Authorization; four replies are consumed. |
| ApiClientScenarios.TokenRefreshTrace | tests/ApiClientTest.php:114-161 | Four requests: password grant, target with `Bearer abc` (401), refresh grant with "def", target with `Bearer ghi`. They use the exact URLs, bodies and headers of the test. The result is the last reply, and tokens ghi/jkl stay cached. |
| ApiClientScenarios.RefreshFallbackTrace | tests/ApiClientTest.php:164-218 | Five requests: password grant, target (401), refresh grant (401), password grant, target with `Bearer ghi`. The result is the last reply. |
| ApiClientScenarios.RefreshFallbackFailTrace | tests/ApiClientTest.php:221-276 | Four requests: password grant, target (401), refresh grant (401), password grant (401). The call fails with "401 Client Error: <body>" and code 401, and no token is left. |
| ApiClientScenarios.RepeatedRetryTrace | src/Client/ApiClient.php:116-119 | A second 401 after a refresh restarts the call again. The call refreshes with "jkl" and succeeds on its third sending, after six requests. |
| ApiClientScenarios.RejectedPathTrace | tests/ApiClientTest.php:279-293 | The paths "" and "0" fail with "Path cannot be empty.". A full URL fails with "Path cannot contain a full url, please remove the host.". In both cases nothing is sent and the state is unchanged. |
| ApiClientScenarios.ClientErrorTrace | tests/ApiClientTest.php:295-303 | A fresh client's GET whose password grant gets a 400 fails with "400 Client Error: Bad Request" and code 400. Only the grant was sent. The trace follows the real throwForStatus, which the test replaces with a mock throwing the same message with code 0. |

## Left out

- The curl handle is foreign I/O and is not modelled: `curl_init`, `setOption`, `curl_exec`, `curl_close`, the user agent and the 60-second timeout (src/Client/CurlClient.php:9-22, 55-60). `setUrl` and `setRequestMethod` appear only as the fields of a logged `Request`.
- `json_encode`, `json_decode` and `http_build_query` are library encodings. The body payload stays symbolic as `JsonEncoded(data)`. Decoding the token fields and building the query are unconstrained functions in `ApiClient.Env`. Only `NoParamsNoQuestionMark` assumes anything of them: that an empty array encodes as "".
- The accessors of src/Response/ApiResponse.php (`getJsonBody` and the rest) are left out. The response is the two-field `ApiResponse.Response`.
- The `getCurlClient` factory is replaced by the scripted transport in `State`.
- The text of `curl_error` is a parameter of a failed reply (`Failure.detail`).
- The message for a script that runs out, "transport script exhausted", belongs to the model, not to the client.
- PHP's TypeError is not modelled. The client runs in PHP's coercive typing mode, so the typed `?string` token properties raise it only when a decoded token field is an array or an object. A scalar field is coerced to a string, which `Tokens` represents as `Some(...)`. The model reads a missing field as null.
- PHP strings are byte strings; the model uses `seq<char>`. Nothing in the core depends on the difference: the characters it inspects ('/', '?', ':', ';', ' ', digits, "http") are all ASCII.
- Concurrency is left out; the client is synchronous.
- The examples are left out; they only print.
- ApiClient.DoRequest: its own ensures are only what termination needs. Its behaviour is stated in `ApiClientContracts.DoRequestContract`, `ApiClientProperties.BearerHeaderRule` and the Retry401 lemmas.
- ApiClient.Transmit: its own ensures are only what termination needs. Its behaviour is stated in `ApiClientContracts.TransmitContract` and `ApiClientProperties.TransmitWithoutToken`/`TransmitWithToken`/`TransportErrorStops`/`Retry401`, which together cover every reply and an exhausted script.
- ApiClient.AttachAuth: its own ensures are only what termination needs. Its behaviour is stated in `ApiClientContracts.AttachAuthContract`.
- ApiClient.Authenticate: its own ensures are only what termination needs. Its behaviour is stated in `ApiClientContracts.AuthenticateContract` and `ApiClientProperties.RefreshFailureFallsBackOnce`.
- ApiClient.GetAccessTokenByCredentials: its own ensures are only what termination needs. Its behaviour is stated in `ApiClientContracts.CredentialsContract`.
- ApiClient.GetAccessTokenByRefreshToken: its own ensures are only what termination needs. Its behaviour is stated in `ApiClientContracts.RefreshContract`.
- ApiClient.Post: its own ensures are only what termination needs. Its behaviour is stated in `ApiClientProperties.VerbWrappers`.
- CurlClient.ThrowForStatus: its own ensures give only when it raises and what code it uses. The exact message is stated by `CurlClient.StatusMessageRoundTrip`, `CurlClient.StatusMessageDigits`, `ApiClientProperties.Unauthorized` and the scenario traces.
