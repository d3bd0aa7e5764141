/** The client's unit tests as traces of the model: a scripted transport,
    a json_decode that knows the token bodies the tests send, and the exact
    requests (URL, method, body, headers) each test expects, in order. */
module ApiClientScenarios {
  import opened Wrappers
  import opened Text
  import opened Php
  import opened ApiResponse
  import opened CurlClient
  import opened ApiClient
  import opened ApiClientProperties

  const AbcDef := "{\"access_token\":\"abc\",\"refresh_token\":\"def\"}"
  const AbcXyz := "{\"access_token\":\"abc\",\"refresh_token\":\"xyz\"}"
  const GhiJkl := "{\"access_token\":\"ghi\",\"refresh_token\":\"jkl\"}"
  const MnoPqr := "{\"access_token\":\"mno\",\"refresh_token\":\"pqr\"}"
  const Forbidden := "{\"error\":{\"message\":\"Forbidden: Invalid credentials or token.\",\"request_id\":\"1234-5678\"}}"
  const StatusOk := "{\"status\":\"ok\"}"

  const TokenUrl := "https://api.dataprovider.com/v2/auth/oauth2/token"
  const TestUrl := "https://api.dataprovider.com/v2/test"

  /** json_decode restricted to the bodies the tests hand to authenticate. */
  function DecodeTestTokens(b: string): Tokens {
    if b == AbcDef then Tokens(Some("abc"), Some("def"))
    else if b == AbcXyz then Tokens(Some("abc"), Some("xyz"))
    else if b == GhiJkl then Tokens(Some("ghi"), Some("jkl"))
    else if b == MnoPqr then Tokens(Some("mno"), Some("pqr"))
    else Tokens(None, None)
  }

  /** http_build_query on the only parameter arrays the tests use. */
  function BuildTestQuery(a: Assoc): string {
    if a == [("test", Str("test"))] then "test=test" else ""
  }

  const TestEnv := Env("test", "test", BuildTestQuery, DecodeTestTokens)

  function Fresh(script: seq<Reply>): State {
    State(None, None, script, 0, [])
  }

  function Ok200(b: string): Reply {
    Answer(Some(200), b)
  }

  function WithBearer(token: string): Headers {
    BaseHeaders + [Bearer(Some(token))]
  }

  lemma TestUrls()
    ensures BuildUrl(AuthPath, "") == TokenUrl
    ensures BuildUrl("test", "") == TestUrl
  {
    NoQueryNoQuestionMark(AuthPath);
    NoQueryNoQuestionMark("test");
    assert TrimLeft(AuthPath, '/') == AuthPath[1..];
    assert TrimLeft("test", '/') == "test";
  }

  /** One token exchange with no token cached: the grant goes out on the
      auth path, without Authorization, and its reply is classified. */
  lemma Exchange(env: Env, st: State, grant: Assoc, code: int, b: string)
    requires st.accessToken.None?
    requires st.cursor < |st.script| && st.script[st.cursor] == Answer(Some(code), b)
    ensures Post(env, st, AuthPath, None, Some(grant)) ==
      Step(match ThrowForStatus(Response(b, code)) case Some(e) => Err(e) case None => Ok(Response(b, code)),
           st.(cursor := st.cursor + 1, log := st.log + [GrantRequest(env, grant)]))
  {
    AuthPathValid();
    assert AttachAuth(env, st, AuthPath) == Step(Ok(BaseHeaders), st);
    TransmitWithoutToken(env, st, AuthPath, POST, None, Some(grant), BaseHeaders);
  }

  /** The request doRequest logs for this call with these headers. */
  function Sent(path: string, verb: Method, params: Option<Assoc>, body: Option<Assoc>, headers: Headers): Request {
    Request(BuildUrl(path, QueryOf(TestEnv, params)), verb, body, headers)
  }

  /** The target request of the token tests, `post('test')`. */
  function PostTest(headers: Headers): Request {
    Sent("test", POST, None, None, headers)
  }

  /** doRequest for the token tests' target. */
  function Target(st: State): Step<Response> {
    DoRequest(TestEnv, st, "test", POST, None, None)
  }

  /** A call with no access token cached: authenticate with the grant the
      cached refresh token picks, receive a token body, and send the call
      with the new access token. */
  lemma AuthenticateThenSend(st: State, path: string, verb: Method, params: Option<Assoc>, body: Option<Assoc>, b: string, access: string, refresh: string)
    requires ValidPath(path) && path != AuthPath
    requires st.accessToken.None?
    requires st.cursor < |st.script| && st.script[st.cursor] == Ok200(b)
    requires DecodeTestTokens(b) == Tokens(Some(access), Some(refresh))
    ensures DoRequest(TestEnv, st, path, verb, params, body) ==
      Transmit(TestEnv,
        State(Some(access), Some(refresh), st.script, st.cursor + 1,
              st.log + [GrantRequest(TestEnv, GrantFor(TestEnv, st.refreshToken))]),
        path, verb, params, body, WithBearer(access))
  {
    var env := TestEnv;
    Exchange(env, st, GrantFor(env, st.refreshToken), 200, b);
    var next := State(Some(access), Some(refresh), st.script, st.cursor + 1,
                      st.log + [GrantRequest(env, GrantFor(env, st.refreshToken))]);
    assert Authenticate(env, st) == Step(Ok(Response(b, 200)), next);
    CallAfterHeaders(env, st, path, verb, params, body);
  }

  /** A call sent with a token draws a 401 and restarts. */
  lemma SendThenRetry(st: State, path: string, verb: Method, params: Option<Assoc>, body: Option<Assoc>, headers: Headers)
    requires st.accessToken.Some?
    requires st.cursor < |st.script| && st.script[st.cursor] == Answer(Some(401), Forbidden)
    ensures Transmit(TestEnv, st, path, verb, params, body, headers) ==
      DoRequest(TestEnv, State(None, st.refreshToken, st.script, st.cursor + 1, st.log + [Sent(path, verb, params, body, headers)]),
        path, verb, params, body)
  {
    Retry401(TestEnv, st, path, verb, params, body, headers, Forbidden);
  }

  /** A call sent with a token is answered with 200. */
  lemma SendThenSucceed(st: State, path: string, verb: Method, params: Option<Assoc>, body: Option<Assoc>, headers: Headers, b: string)
    requires st.accessToken.Some?
    requires st.cursor < |st.script| && st.script[st.cursor] == Ok200(b)
    ensures Transmit(TestEnv, st, path, verb, params, body, headers) ==
      Step(Ok(Response(b, 200)), st.(cursor := st.cursor + 1, log := st.log + [Sent(path, verb, params, body, headers)]))
  {
    TransmitWithToken(TestEnv, st, path, verb, params, body, headers);
  }

  /** A call while a token is cached: no authentication, Content-Type only,
      and a 200 is the result. */
  lemma CachedSend(st: State, path: string, verb: Method, params: Option<Assoc>, body: Option<Assoc>, b: string)
    requires ValidPath(path)
    requires st.accessToken.Some?
    requires st.cursor < |st.script| && st.script[st.cursor] == Ok200(b)
    ensures DoRequest(TestEnv, st, path, verb, params, body) ==
      Step(Ok(Response(b, 200)), st.(cursor := st.cursor + 1, log := st.log + [Sent(path, verb, params, body, BaseHeaders)]))
  {
    CallAfterHeaders(TestEnv, st, path, verb, params, body);
    SendThenSucceed(st, path, verb, params, body, BaseHeaders, b);
  }

  /** With no access token, a refresh grant answered with 401 drops the
      refresh token and the same call starts authenticating from scratch. */
  lemma RefreshRejected(st: State)
    requires st.accessToken.None? && st.refreshToken.Some?
    requires st.cursor < |st.script| && st.script[st.cursor] == Answer(Some(401), Forbidden)
    ensures Target(st) ==
      Target(State(None, None, st.script, st.cursor + 1, st.log + [GrantRequest(TestEnv, RefreshGrant(st.refreshToken))]))
  {
    var env := TestEnv;
    PlainPathValid("test");
    Exchange(env, st, RefreshGrant(st.refreshToken), 401, Forbidden);
    var cleared := State(None, None, st.script, st.cursor + 1, st.log + [GrantRequest(env, RefreshGrant(st.refreshToken))]);
    assert Authenticate(env, st) == Authenticate(env, cleared);
    assert AttachAuth(env, st, "test") == AttachAuth(env, cleared, "test");
  }

  /** With no token at all, a password grant answered with an error status
      is the call's error, and the call itself is never sent. */
  lemma LogInRejected(st: State, path: string, verb: Method, params: Option<Assoc>, body: Option<Assoc>, code: int, b: string)
    requires ValidPath(path) && path != AuthPath
    requires st.accessToken.None? && st.refreshToken.None?
    requires st.cursor < |st.script| && st.script[st.cursor] == Answer(Some(code), b)
    requires 400 <= code < 600
    ensures DoRequest(TestEnv, st, path, verb, params, body) ==
      Step(Err(ThrowForStatus(Response(b, code)).value),
           st.(cursor := st.cursor + 1, log := st.log + [GrantRequest(TestEnv, CredentialsGrant(TestEnv))]))
  {
    var env := TestEnv;
    Exchange(env, st, CredentialsGrant(env), code, b);
    var e := ThrowForStatus(Response(b, code)).value;
    var next := st.(cursor := st.cursor + 1, log := st.log + [GrantRequest(env, CredentialsGrant(env))]);
    assert Authenticate(env, st) == Step(Err(e), next);
    assert AttachAuth(env, st, path) == Step(Err(e), next);
  }

  /** Every token test opens the same way: a fresh client logs in with the
      password grant, sends the target with "abc", draws a 401, and restarts
      holding only the refresh token "def". */
  lemma LogInThen401(script: seq<Reply>)
    requires |script| >= 2 && script[0] == Ok200(AbcDef) && script[1] == Answer(Some(401), Forbidden)
    ensures Post(TestEnv, Fresh(script), "test", None, None) ==
      Target(State(None, Some("def"), script, 2,
                   [GrantRequest(TestEnv, CredentialsGrant(TestEnv)), PostTest(WithBearer("abc"))]))
  {
    var st0 := Fresh(script);
    PlainPathValid("test");
    assert Post(TestEnv, st0, "test", None, None) == Target(st0);
    AuthenticateThenSend(st0, "test", POST, None, None, AbcDef, "abc", "def");
    assert GrantFor(TestEnv, None) == CredentialsGrant(TestEnv);
    var st1 := State(Some("abc"), Some("def"), script, 1, [GrantRequest(TestEnv, CredentialsGrant(TestEnv))]);
    assert st0.log + [GrantRequest(TestEnv, CredentialsGrant(TestEnv))] == st1.log;
    SendThenRetry(st1, "test", POST, None, None, WithBearer("abc"));
    assert st1.log + [PostTest(WithBearer("abc"))] == [GrantRequest(TestEnv, CredentialsGrant(TestEnv)), PostTest(WithBearer("abc"))];
  }

  /** After a restart with a refresh token cached, the refresh grant gets
      new tokens and the target succeeds with the new access token. */
  lemma RefreshThenSucceed(st: State, b: string, access: string, refresh: string)
    requires st.accessToken.None? && st.refreshToken.Some?
    requires st.cursor + 1 < |st.script| && st.script[st.cursor] == Ok200(b) && st.script[st.cursor + 1] == Ok200(StatusOk)
    requires DecodeTestTokens(b) == Tokens(Some(access), Some(refresh))
    ensures Target(st) ==
      Step(Ok(Response(StatusOk, 200)),
        State(Some(access), Some(refresh), st.script, st.cursor + 2,
              st.log + [GrantRequest(TestEnv, RefreshGrant(st.refreshToken)), PostTest(WithBearer(access))]))
  {
    PlainPathValid("test");
    AuthenticateThenSend(st, "test", POST, None, None, b, access, refresh);
    var next := State(Some(access), Some(refresh), st.script, st.cursor + 1,
                      st.log + [GrantRequest(TestEnv, RefreshGrant(st.refreshToken))]);
    SendThenSucceed(next, "test", POST, None, None, WithBearer(access), StatusOk);
  }

  /** The two request shapes of the token tests, with their URLs spelled
      out. */
  lemma TestRequests(grant: Assoc, headers: Headers)
    ensures GrantRequest(TestEnv, grant) == Request(TokenUrl, POST, Some(grant), BaseHeaders)
    ensures PostTest(headers) == Request(TestUrl, POST, None, headers)
  {
    TestUrls();
  }

  const RefreshScript := [Ok200(AbcDef), Answer(Some(401), Forbidden), Ok200(GhiJkl), Ok200(StatusOk)]

  /** testTokenRefresh: four requests in this order, the last reply is the
      result, and the refreshed tokens stay cached. */
  lemma TokenRefreshTrace()
    ensures var out := Post(TestEnv, Fresh(RefreshScript), "test", None, None);
      && out.result == Ok(Response(StatusOk, 200))
      && out.state.cursor == |RefreshScript|
      && out.state.log == [
           Request(TokenUrl, POST, Some(CredentialsGrant(TestEnv)), BaseHeaders),
           Request(TestUrl, POST, None, WithBearer("abc")),
           Request(TokenUrl, POST, Some(RefreshGrant(Some("def"))), BaseHeaders),
           Request(TestUrl, POST, None, WithBearer("ghi"))]
      && out.state.accessToken == Some("ghi") && out.state.refreshToken == Some("jkl")
  {
    var script := RefreshScript;
    LogInThen401(script);
    var st2 := State(None, Some("def"), script, 2,
                     [GrantRequest(TestEnv, CredentialsGrant(TestEnv)), PostTest(WithBearer("abc"))]);
    RefreshThenSucceed(st2, GhiJkl, "ghi", "jkl");
    TestRequests(CredentialsGrant(TestEnv), WithBearer("abc"));
    TestRequests(RefreshGrant(Some("def")), WithBearer("ghi"));
  }

  const FallbackScript := [Ok200(AbcDef), Answer(Some(401), Forbidden), Answer(Some(401), Forbidden), Ok200(GhiJkl), Ok200(StatusOk)]

  /** testAuthRefreshFailureFallsBackToCredentials: the rejected refresh
      grant is followed by one password grant, and the target then
      succeeds with the token it returned. */
  lemma RefreshFallbackTrace()
    ensures var out := Post(TestEnv, Fresh(FallbackScript), "test", None, None);
      && out.result == Ok(Response(StatusOk, 200))
      && out.state.cursor == |FallbackScript|
      && out.state.log == [
           Request(TokenUrl, POST, Some(CredentialsGrant(TestEnv)), BaseHeaders),
           Request(TestUrl, POST, None, WithBearer("abc")),
           Request(TokenUrl, POST, Some(RefreshGrant(Some("def"))), BaseHeaders),
           Request(TokenUrl, POST, Some(CredentialsGrant(TestEnv)), BaseHeaders),
           Request(TestUrl, POST, None, WithBearer("ghi"))]
  {
    var script := FallbackScript;
    LogInThen401(script);
    var log2 := [GrantRequest(TestEnv, CredentialsGrant(TestEnv)), PostTest(WithBearer("abc"))];
    var st2 := State(None, Some("def"), script, 2, log2);
    RefreshRejected(st2);
    var st3 := State(None, None, script, 3, log2 + [GrantRequest(TestEnv, RefreshGrant(Some("def")))]);
    PlainPathValid("test");
    AuthenticateThenSend(st3, "test", POST, None, None, GhiJkl, "ghi", "jkl");
    var st4 := State(Some("ghi"), Some("jkl"), script, 4, st3.log + [GrantRequest(TestEnv, CredentialsGrant(TestEnv))]);
    SendThenSucceed(st4, "test", POST, None, None, WithBearer("ghi"), StatusOk);
    TestRequests(CredentialsGrant(TestEnv), WithBearer("abc"));
    TestRequests(RefreshGrant(Some("def")), WithBearer("ghi"));
  }

  const FallbackFailScript := [Ok200(AbcDef), Answer(Some(401), Forbidden), Answer(Some(401), Forbidden), Answer(Some(401), Forbidden)]

  /** testAuthRefreshFailureFallsBackToCredentialsFail: when the password
      grant is rejected too, the call fails with that grant's 401 client
      error, after exactly four requests, and no token is left. */
  lemma RefreshFallbackFailTrace()
    ensures var out := Post(TestEnv, Fresh(FallbackFailScript), "test", None, None);
      && out.result == Err(Runtime("401 Client Error: " + Forbidden, 401))
      && out.state.cursor == |FallbackFailScript|
      && out.state.log == [
           Request(TokenUrl, POST, Some(CredentialsGrant(TestEnv)), BaseHeaders),
           Request(TestUrl, POST, None, WithBearer("abc")),
           Request(TokenUrl, POST, Some(RefreshGrant(Some("def"))), BaseHeaders),
           Request(TokenUrl, POST, Some(CredentialsGrant(TestEnv)), BaseHeaders)]
      && out.state.accessToken.None? && out.state.refreshToken.None?
  {
    var script := FallbackFailScript;
    LogInThen401(script);
    var log2 := [GrantRequest(TestEnv, CredentialsGrant(TestEnv)), PostTest(WithBearer("abc"))];
    var st2 := State(None, Some("def"), script, 2, log2);
    RefreshRejected(st2);
    var st3 := State(None, None, script, 3, log2 + [GrantRequest(TestEnv, RefreshGrant(Some("def")))]);
    PlainPathValid("test");
    LogInRejected(st3, "test", POST, None, None, 401, Forbidden);
    Unauthorized(Forbidden);
    TestRequests(CredentialsGrant(TestEnv), WithBearer("abc"));
    TestRequests(RefreshGrant(Some("def")), WithBearer("ghi"));
  }

  const NoCapScript := [Ok200(AbcDef), Answer(Some(401), Forbidden), Ok200(GhiJkl), Answer(Some(401), Forbidden), Ok200(MnoPqr), Ok200(StatusOk)]

  /** The 401 retry has no cap: a second 401, after the refresh, restarts
      the call again, which refreshes again and succeeds on its third
      sending. */
  lemma RepeatedRetryTrace()
    ensures var out := Post(TestEnv, Fresh(NoCapScript), "test", None, None);
      && out.result == Ok(Response(StatusOk, 200))
      && out.state.cursor == |NoCapScript|
      && out.state.log == [
           Request(TokenUrl, POST, Some(CredentialsGrant(TestEnv)), BaseHeaders),
           Request(TestUrl, POST, None, WithBearer("abc")),
           Request(TokenUrl, POST, Some(RefreshGrant(Some("def"))), BaseHeaders),
           Request(TestUrl, POST, None, WithBearer("ghi")),
           Request(TokenUrl, POST, Some(RefreshGrant(Some("jkl"))), BaseHeaders),
           Request(TestUrl, POST, None, WithBearer("mno"))]
  {
    var script := NoCapScript;
    LogInThen401(script);
    var log2 := [GrantRequest(TestEnv, CredentialsGrant(TestEnv)), PostTest(WithBearer("abc"))];
    var st2 := State(None, Some("def"), script, 2, log2);
    PlainPathValid("test");
    AuthenticateThenSend(st2, "test", POST, None, None, GhiJkl, "ghi", "jkl");
    var st3 := State(Some("ghi"), Some("jkl"), script, 3, log2 + [GrantRequest(TestEnv, RefreshGrant(Some("def")))]);
    SendThenRetry(st3, "test", POST, None, None, WithBearer("ghi"));
    var st4 := State(None, Some("jkl"), script, 4, st3.log + [PostTest(WithBearer("ghi"))]);
    RefreshThenSucceed(st4, MnoPqr, "mno", "pqr");
    TestRequests(CredentialsGrant(TestEnv), WithBearer("abc"));
    TestRequests(RefreshGrant(Some("def")), WithBearer("ghi"));
    TestRequests(RefreshGrant(Some("jkl")), WithBearer("mno"));
  }

  const GetBody := "{\"type\":\"get\"}"
  const PostBody := "{\"type\":\"post\"}"
  const PutBody := "{\"type\":\"put\"}"
  const TestQuery: Assoc := [("test", Str("test"))]
  const IdBody: Assoc := [("id", Int(1))]
  const ValidScript := [Ok200(AbcXyz), Ok200(GetBody), Ok200(PostBody), Ok200(PutBody)]

  lemma GetUrl()
    ensures Sent("test/get", GET, None, None, WithBearer("abc")).url == "https://api.dataprovider.com/v2/test/get"
  {
    assert QueryOf(TestEnv, None) == "";
    assert TrimLeft("test/get", '/') == "test/get";
    UrlShape("test/get", "");
  }

  lemma PostUrl()
    ensures Sent("test/post", POST, Some(TestQuery), Some(IdBody), BaseHeaders).url == "https://api.dataprovider.com/v2/test/post?test=test"
  {
    assert QueryOf(TestEnv, Some(TestQuery)) == "test=test";
    assert TrimLeft("test/post", '/') == "test/post";
    UrlShape("test/post", "test=test");
  }

  lemma PutUrl()
    ensures Sent("test/put", PUT, None, Some(IdBody), BaseHeaders).url == "https://api.dataprovider.com/v2/test/put"
  {
    assert QueryOf(TestEnv, None) == "";
    assert TrimLeft("test/put", '/') == "test/put";
    UrlShape("test/put", "");
  }

  /** testRequestsReturnValidResponse, first call: `get('test/get')` logs
      in, then sends GET with the bearer token, no body and no query. */
  lemma ValidGetStep()
    ensures Get(TestEnv, Fresh(ValidScript), "test/get", None, None) ==
      Step(Ok(Response(GetBody, 200)),
        State(Some("abc"), Some("xyz"), ValidScript, 2,
              [GrantRequest(TestEnv, CredentialsGrant(TestEnv)), Sent("test/get", GET, None, None, WithBearer("abc"))]))
  {
    var st0 := Fresh(ValidScript);
    PlainPathValid("test/get");
    PlainPathValid("test/post");
    PlainPathValid("test/put");
    assert Get(TestEnv, st0, "test/get", None, None) == DoRequest(TestEnv, st0, "test/get", GET, None, None);
    AuthenticateThenSend(st0, "test/get", GET, None, None, AbcXyz, "abc", "xyz");
    assert GrantFor(TestEnv, None) == CredentialsGrant(TestEnv);
    var st1 := State(Some("abc"), Some("xyz"), ValidScript, 1, [GrantRequest(TestEnv, CredentialsGrant(TestEnv))]);
    assert st0.log + [GrantRequest(TestEnv, CredentialsGrant(TestEnv))] == st1.log;
    SendThenSucceed(st1, "test/get", GET, None, None, WithBearer("abc"), GetBody);
  }

  /** testRequestsReturnValidResponse: the token from the first call stays
      cached, so the POST and the PUT need no exchange and go out with
      Content-Type only, without Authorization; four replies are consumed
      in all. */
  lemma ValidResponsesTrace()
    ensures var g := Get(TestEnv, Fresh(ValidScript), "test/get", None, None);
      var p := Post(TestEnv, g.state, "test/post", Some(TestQuery), Some(IdBody));
      var u := Put(TestEnv, p.state, "test/put", None, Some(IdBody));
      && g.result == Ok(Response(GetBody, 200))
      && |g.state.log| == 2 && g.state.log[1] == Request("https://api.dataprovider.com/v2/test/get", GET, None, WithBearer("abc"))
      && p.result == Ok(Response(PostBody, 200))
      && |p.state.log| == 3 && p.state.log[2] == Request("https://api.dataprovider.com/v2/test/post?test=test", POST, Some(IdBody), BaseHeaders)
      && u.result == Ok(Response(PutBody, 200))
      && |u.state.log| == 4 && u.state.log[3] == Request("https://api.dataprovider.com/v2/test/put", PUT, Some(IdBody), BaseHeaders)
      && u.state.cursor == |ValidScript|
  {
    ValidGetStep();
    PlainPathValid("test/get");
    PlainPathValid("test/post");
    PlainPathValid("test/put");
    GetUrl();
    PostUrl();
    PutUrl();
    var st2 := State(Some("abc"), Some("xyz"), ValidScript, 2,
                     [GrantRequest(TestEnv, CredentialsGrant(TestEnv)), Sent("test/get", GET, None, None, WithBearer("abc"))]);
    assert Post(TestEnv, st2, "test/post", Some(TestQuery), Some(IdBody)) == DoRequest(TestEnv, st2, "test/post", POST, Some(TestQuery), Some(IdBody));
    CachedSend(st2, "test/post", POST, Some(TestQuery), Some(IdBody), PostBody);
    var st3 := st2.(cursor := 3, log := st2.log + [Sent("test/post", POST, Some(TestQuery), Some(IdBody), BaseHeaders)]);
    assert Put(TestEnv, st3, "test/put", None, Some(IdBody)) == DoRequest(TestEnv, st3, "test/put", PUT, None, Some(IdBody));
    CachedSend(st3, "test/put", PUT, None, Some(IdBody), PutBody);
  }

  /** testClientThrowsOnEmptyPath and testClientThrowsOnFullUrl, for any
      client state: the path checks come first, so nothing is sent and the
      state is untouched. */
  lemma RejectedPathTrace(env: Env, st: State)
    ensures Post(env, st, "", None, None) == Step(Err(InvalidArgument("Path cannot be empty.")), st)
    ensures Post(env, st, "0", None, None) == Step(Err(InvalidArgument("Path cannot be empty.")), st)
    ensures Get(env, st, "https://api.dataprovider.com/v2/test", None, None) ==
      Step(Err(InvalidArgument("Path cannot contain a full url, please remove the host.")), st)
  {
    var url := "https://api.dataprovider.com/v2/test";
    assert url[..4] == "http";
    assert !EmptyString(url);
  }

  /** testThrowForClientErrorStatus: a fresh client's `get('test/error')`
      first exchanges the password grant; a 400 there is the call's error
      "400 Client Error: Bad Request", and the GET is never sent. The trace
      runs the real throwForStatus, which gives code 400; the test mocks it
      with a RuntimeException carrying the same message and code 0. */
  lemma ClientErrorTrace()
    ensures var out := Get(TestEnv, Fresh([Answer(Some(400), "Bad Request")]), "test/error", None, None);
      && out.result == Err(Runtime("400 Client Error: " + "Bad Request", 400))
      && out.state.log == [Request(TokenUrl, POST, Some(CredentialsGrant(TestEnv)), BaseHeaders)]
  {
    var st0 := Fresh([Answer(Some(400), "Bad Request")]);
    PlainPathValid("test/error");
    assert Get(TestEnv, st0, "test/error", None, None) == DoRequest(TestEnv, st0, "test/error", GET, None, None);
    LogInRejected(st0, "test/error", GET, None, None, 400, "Bad Request");
    StatusMessageDigits(Response("Bad Request", 400));
    assert [DigitChar(4), DigitChar(0), DigitChar(0)] + " Client Error: " == "400 Client Error: ";
    TestRequests(CredentialsGrant(TestEnv), BaseHeaders);
  }
}
