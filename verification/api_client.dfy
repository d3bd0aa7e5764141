/** The authenticated request pipeline of ApiClient, as pure functions over
    an immutable client state. The state holds the two cached tokens, the
    replies the transport will still give (a scripted transport, one reply
    consumed per call) and the log of every request handed to it.
    Calls into json_decode and http_build_query go through `Env`, whose
    functions are left unconstrained. */
module ApiClient {
  import opened Wrappers
  import opened Text
  import opened Php
  import opened ApiResponse
  import opened CurlClient

  const Host: string := "https://api.dataprovider.com/v2"
  const AuthPath: string := "/auth/oauth2/token"

  const EmptyPathMessage: string := "Path cannot be empty."
  const FullUrlMessage: string := "Path cannot contain a full url, please remove the host."
  /** Raised when the transport is asked for more replies than it has. */
  const ExhaustedMessage: string := "transport script exhausted"

  datatype Method = GET | POST | PUT

  /** The `access_token` and `refresh_token` fields of a decoded body; a
      missing field reads as null. */
  datatype Tokens = Tokens(accessToken: Option<string>, refreshToken: Option<string>)

  /** What the client is constructed with, plus the library encoders. */
  datatype Env = Env(
    username: string,
    password: string,
    buildQuery: Assoc -> string,      // http_build_query
    decodeTokens: string -> Tokens)   // json_decode($body)[token fields]

  /** One transport call as the curl wrapper sees it: URL, method, the body
      given to setBody and the headers given to setRequestHeaders. */
  datatype Request = Request(url: string, verb: Method, body: Option<Assoc>, headers: Headers)

  /** The client's token cache, the transport's scripted replies with the
      number already consumed, and the requests handed to the transport. */
  datatype State = State(
    accessToken: Option<string>,
    refreshToken: Option<string>,
    script: seq<Reply>,
    cursor: nat,
    log: seq<Request>)

  /** How many scripted replies are still to come. */
  function Remaining(st: State): nat {
    if st.cursor <= |st.script| then |st.script| - st.cursor else 0
  }

  /** The result of an operation together with the state it leaves. */
  datatype Step<T> = Step(result: Result<T, Error>, state: State)

  /** The path check of doRequest: not `empty` and not starting with "http". */
  predicate ValidPath(path: string) {
    !EmptyString(path) && !StartsWith(path, "http")
  }

  /** Host, '/', the path without leading slashes, '?' and the query; then
      every trailing '?' removed. */
  function BuildUrl(path: string, query: string): string {
    TrimRight(Host + "/" + TrimLeft(path, '/') + "?" + query, '?')
  }

  function QueryOf(env: Env, params: Option<Assoc>): string {
    env.buildQuery(OrEmpty(params))
  }

  const ContentType: (string, HeaderValue) := ("Content-Type", Scalar("application/json"))
  const BaseHeaders: Headers := [ContentType]

  /** The Authorization entry; a null token interpolates as "". */
  function Bearer(token: Option<string>): (string, HeaderValue) {
    ("Authorization", Scalar("Bearer " + token.GetOr("")))
  }

  /** doRequest authenticates first exactly when no access token is cached
      and the path is not, character for character, the auth path. */
  predicate NeedsAuth(st: State, path: string) {
    st.accessToken.None? && path != AuthPath
  }

  /** The password grant. */
  function CredentialsGrant(env: Env): Assoc {
    [("grant_type", Str("password")), ("username", Str(env.username)), ("password", Str(env.password))]
  }

  /** The refresh-token grant; a null token would be sent as null. */
  function RefreshGrant(token: Option<string>): Assoc {
    [("grant_type", Str("refresh_token")), ("refresh_token", if token.Some? then Str(token.value) else Null)]
  }

  /** The grant authenticate sends first: refresh if a refresh token is cached. */
  function GrantFor(env: Env, refreshToken: Option<string>): Assoc {
    if refreshToken.None? then CredentialsGrant(env) else RefreshGrant(refreshToken)
  }

  /** A token exchange as it reaches the transport. */
  function GrantRequest(env: Env, grant: Assoc): Request {
    Request(BuildUrl(AuthPath, env.buildQuery([])), POST, Some(grant), BaseHeaders)
  }

  /** Time only moves forward: replies are consumed in script order and
      requests are appended to the log. */
  predicate Progress(s: State, t: State) {
    && Consumes(s, t)
    && |s.log| <= |t.log|
    && t.log[..|s.log|] == s.log
  }

  /** `r` is what the last reply consumed between `s` and `t` turned into,
      and its status is not one throwForStatus objects to. */
  predicate Delivered(s: State, t: State, r: Response) {
    && s.cursor < t.cursor <= |t.script|
    && Yields(t.script[t.cursor - 1], r)
    && !(400 <= r.statusCode < 600)
  }

  /** The script is fixed and replies are only ever consumed, never returned. */
  predicate Consumes(s: State, t: State) {
    t.script == s.script && s.cursor <= t.cursor
  }

  predicate SameTokens(s: State, t: State) {
    t.accessToken == s.accessToken && t.refreshToken == s.refreshToken
  }

  /** One transport call: log the request, consume one reply. */
  function Send(st: State, req: Request): Step<Response> {
    var logged := st.(log := st.log + [req]);
    if st.cursor >= |st.script| then Step(Err(Runtime(ExhaustedMessage, 0)), logged)
    else Step(Receive(st.script[st.cursor]), logged.(cursor := st.cursor + 1))
  }

  /** A non-empty path other than "0" that does not begin with 'h' passes
      the path check. */
  lemma PlainPathValid(path: string)
    requires |path| > 0 && path != "0" && path[0] != 'h'
    ensures ValidPath(path)
  {
    if |path| >= 4 {
      assert path[..4][0] == path[0];
    }
  }

  /** The auth path passes doRequest's own path check. */
  lemma AuthPathValid()
    ensures ValidPath(AuthPath)
  {
    PlainPathValid(AuthPath);
  }

  /** doRequest: reject a bad path before anything else happens, build the
      URL and headers (authenticating first when needed), then transmit. */
  function DoRequest(env: Env, st: State, path: string, verb: Method, params: Option<Assoc>, body: Option<Assoc>): (out: Step<Response>)
    decreases Remaining(st), if path == AuthPath then 1 else 6, 0
    ensures Consumes(st, out.state)
    ensures path == AuthPath && st.accessToken.None? ==> SameTokens(st, out.state)
  {
    if EmptyString(path) then Step(Err(InvalidArgument(EmptyPathMessage)), st)
    else if StartsWith(path, "http") then Step(Err(InvalidArgument(FullUrlMessage)), st)
    else
      var prepared := AttachAuth(env, st, path);
      match prepared.result
      case Err(e) => Step(Err(e), prepared.state)
      case Ok(headers) => Transmit(env, prepared.state, path, verb, params, body, headers)
  }

  /** Lines 108-123 of doRequest: one transport call; a 401 while an access
      token is cached drops that token and starts doRequest over; any other
      reply goes through throwForStatus. */
  function Transmit(env: Env, st: State, path: string, verb: Method, params: Option<Assoc>, body: Option<Assoc>, headers: Headers): (out: Step<Response>)
    decreases Remaining(st), 0, 0
    ensures Consumes(st, out.state)
    ensures st.accessToken.None? ==> SameTokens(st, out.state)
  {
    var sent := Send(st, Request(BuildUrl(path, QueryOf(env, params)), verb, body, headers));
    match sent.result
    case Err(_) => sent
    case Ok(response) =>
      if response.statusCode == 401 && sent.state.accessToken.Some? then
        DoRequest(env, sent.state.(accessToken := None), path, verb, params, body)
      else
        match ThrowForStatus(response)
        case Some(e) => Step(Err(e), sent.state)
        case None => sent
  }

  /** Lines 101-106 of doRequest: the headers, authenticating first when
      needed. */
  function AttachAuth(env: Env, st: State, path: string): (out: Step<Headers>)
    decreases Remaining(st), if path == AuthPath then 0 else 5, 0
    ensures Consumes(st, out.state)
  {
    if NeedsAuth(st, path) then
      var auth := Authenticate(env, st);
      match auth.result
      case Err(e) => Step(Err(e), auth.state)
      case Ok(_) => Step(Ok(BaseHeaders + [Bearer(auth.state.accessToken)]), auth.state)
    else
      Step(Ok(BaseHeaders), st)
  }

  /** authenticate: refresh grant if a refresh token is cached, else the
      password grant; a failed refresh clears the refresh token and tries
      once more, which is then the password grant. Its one call site only
      calls it when no access token is cached. */
  function Authenticate(env: Env, st: State): (out: Step<Response>)
    requires st.accessToken.None?
    decreases Remaining(st), 4, if st.refreshToken.Some? then 1 else 0
    ensures Consumes(st, out.state)
  {
    var exchange :=
      if st.refreshToken.None? then GetAccessTokenByCredentials(env, st)
      else GetAccessTokenByRefreshToken(env, st);
    match exchange.result
    case Err(e) =>
      if e.Runtime? && exchange.state.refreshToken.Some? then
        Authenticate(env, exchange.state.(refreshToken := None))
      else
        Step(Err(e), exchange.state)
    case Ok(response) =>
      var tokens := env.decodeTokens(response.body);
      Step(Ok(response), exchange.state.(accessToken := tokens.accessToken, refreshToken := tokens.refreshToken))
  }

  /** getAccessTokenByCredentials: one POST of the password grant. */
  function GetAccessTokenByCredentials(env: Env, st: State): (out: Step<Response>)
    decreases Remaining(st), 3, 0
    ensures Consumes(st, out.state)
    ensures st.accessToken.None? ==> SameTokens(st, out.state)
  {
    Post(env, st, AuthPath, None, Some(CredentialsGrant(env)))
  }

  /** getAccessTokenByRefreshToken: one POST of the refresh-token grant. */
  function GetAccessTokenByRefreshToken(env: Env, st: State): (out: Step<Response>)
    decreases Remaining(st), 3, 0
    ensures Consumes(st, out.state)
    ensures st.accessToken.None? ==> SameTokens(st, out.state)
  {
    Post(env, st, AuthPath, None, Some(RefreshGrant(st.refreshToken)))
  }

  /** post(): doRequest with method POST. */
  function Post(env: Env, st: State, path: string, params: Option<Assoc>, body: Option<Assoc>): (out: Step<Response>)
    decreases Remaining(st), if path == AuthPath then 2 else 7, 0
    ensures Consumes(st, out.state)
    ensures path == AuthPath && st.accessToken.None? ==> SameTokens(st, out.state)
  {
    DoRequest(env, st, path, POST, params, body)
  }

  /** get(): doRequest with method GET. */
  function Get(env: Env, st: State, path: string, params: Option<Assoc>, body: Option<Assoc>): Step<Response> {
    DoRequest(env, st, path, GET, params, body)
  }

  /** put(): doRequest with method PUT. */
  function Put(env: Env, st: State, path: string, params: Option<Assoc>, body: Option<Assoc>): Step<Response> {
    DoRequest(env, st, path, PUT, params, body)
  }
}
