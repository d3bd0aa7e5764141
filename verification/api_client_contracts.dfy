/** What the request pipeline guarantees, proved by induction over the same
    measure that makes its functions terminate: one lemma per function of
    the mutually recursive group, each unfolding its function once and
    appealing to the lemmas of the functions it calls. */
module ApiClientContracts {
  import opened Wrappers
  import opened Text
  import opened Php
  import opened ApiResponse
  import opened CurlClient
  import opened ApiClient

  predicate IsInvalidArgument<T>(r: Result<T, Error>) {
    r.Err? && r.error.InvalidArgument?
  }

  /** The log ends with a request for `url` with this method and body. */
  predicate LastRequestIs(log: seq<Request>, url: string, verb: Method, body: Option<Assoc>) {
    |log| > 0 && log[|log| - 1].url == url && log[|log| - 1].verb == verb && log[|log| - 1].body == body
  }

  /** Exactly one request, `req`, was logged between `s` and `t`. */
  predicate LoggedOnce(s: State, t: State, req: Request) {
    |t.log| == |s.log| + 1 && t.log[|s.log|] == req
  }

  lemma ProgressTransitive(a: State, b: State, c: State)
    requires Progress(a, b) && Progress(b, c)
    ensures Progress(a, c)
  {
    assert c.log[..|a.log|] == c.log[..|b.log|][..|a.log|];
  }

  /** Dropping or replacing tokens is not a step in time. */
  lemma ProgressTokens(a: State, b: State, c: State)
    requires Progress(a, b)
    requires c.script == b.script && c.cursor == b.cursor && c.log == b.log
    ensures Progress(a, c)
  {
  }

  lemma SendFacts(st: State, req: Request)
    ensures var out := Send(st, req);
      && Progress(st, out.state)
      && out.state.log == st.log + [req]
      && SameTokens(st, out.state)
      && (out.result.Ok? ==>
            && st.cursor < |st.script|
            && out.state.cursor == st.cursor + 1
            && Yields(st.script[st.cursor], out.result.value))
      && (out.result.Err? ==> out.result.error.Runtime?)
  {
    var out := Send(st, req);
    assert out.state.log[..|st.log|] == st.log;
  }

  /** doRequest's contract. A bad path is rejected with the source's message
      and nothing else happens; a good path reaches the transport at least
      once and is never rejected as an argument. On the auth path with no
      cached token exactly one request goes out, without Authorization. A
      success is the last reply consumed, its status is not an error
      status, and the last request logged is the one for this call. */
  lemma {:induction false} DoRequestContract(env: Env, st: State, path: string, verb: Method, params: Option<Assoc>, body: Option<Assoc>)
    decreases Remaining(st), if path == AuthPath then 1 else 6, 0
    ensures var out := DoRequest(env, st, path, verb, params, body);
      && Progress(st, out.state)
      && (!ValidPath(path) ==>
            out == Step(Err(InvalidArgument(if EmptyString(path) then EmptyPathMessage else FullUrlMessage)), st))
      && (ValidPath(path) ==> |out.state.log| > |st.log| && !IsInvalidArgument(out.result))
      && (path == AuthPath && st.accessToken.None? ==>
            LoggedOnce(st, out.state, Request(BuildUrl(path, QueryOf(env, params)), verb, body, BaseHeaders)))
      && (out.result.Ok? ==>
            && Delivered(st, out.state, out.result.value)
            && LastRequestIs(out.state.log, BuildUrl(path, QueryOf(env, params)), verb, body))
  {
    var out := DoRequest(env, st, path, verb, params, body);
    if EmptyString(path) {
      assert out == Step(Err(InvalidArgument(EmptyPathMessage)), st);
    } else if StartsWith(path, "http") {
      assert out == Step(Err(InvalidArgument(FullUrlMessage)), st);
    } else {
      var prepared := AttachAuth(env, st, path);
      AttachAuthContract(env, st, path);
      if prepared.result.Err? {
        assert out == Step(Err(prepared.result.error), prepared.state);
      } else {
        var headers := prepared.result.value;
        assert out == Transmit(env, prepared.state, path, verb, params, body, headers);
        TransmitContract(env, prepared.state, path, verb, params, body, headers);
        ProgressTransitive(st, prepared.state, out.state);
        if path == AuthPath && st.accessToken.None? {
          assert prepared == Step(Ok(BaseHeaders), st);
        }
      }
    }
  }

  /** The transport step's contract: the first request it logs is the one
      it was given; with no cached token it sends exactly once. */
  lemma {:induction false} TransmitContract(env: Env, st: State, path: string, verb: Method, params: Option<Assoc>, body: Option<Assoc>, headers: Headers)
    requires ValidPath(path)
    decreases Remaining(st), 0, 0
    ensures var out := Transmit(env, st, path, verb, params, body, headers);
      && Progress(st, out.state)
      && |out.state.log| > |st.log|
      && !IsInvalidArgument(out.result)
      && out.state.log[|st.log|] == Request(BuildUrl(path, QueryOf(env, params)), verb, body, headers)
      && (st.accessToken.None? ==> |out.state.log| == |st.log| + 1)
      && (out.result.Ok? ==>
            && Delivered(st, out.state, out.result.value)
            && LastRequestIs(out.state.log, BuildUrl(path, QueryOf(env, params)), verb, body))
  {
    var req := Request(BuildUrl(path, QueryOf(env, params)), verb, body, headers);
    var sent := Send(st, req);
    SendFacts(st, req);
    var out := Transmit(env, st, path, verb, params, body, headers);
    if sent.result.Ok? {
      var response := sent.result.value;
      if response.statusCode == 401 && sent.state.accessToken.Some? {
        var retry := sent.state.(accessToken := None);
        ProgressTokens(st, sent.state, retry);
        DoRequestContract(env, retry, path, verb, params, body);
        ProgressTransitive(st, retry, out.state);
        assert out.state.log[|st.log|] == out.state.log[..|retry.log|][|st.log|];
      } else if ThrowForStatus(response).None? {
        assert out == sent;
      }
    }
  }

  /** The header step's contract: without a need to authenticate it is the
      bare Content-Type header and nothing else happens; otherwise the first
      request is the grant authenticate picks, and on success the
      Authorization header carries the access token just decoded from the
      exchange's reply; on failure both tokens are gone. */
  lemma {:induction false} AttachAuthContract(env: Env, st: State, path: string)
    decreases Remaining(st), if path == AuthPath then 0 else 5, 0
    ensures var out := AttachAuth(env, st, path);
      && Progress(st, out.state)
      && (!NeedsAuth(st, path) ==> out == Step(Ok(BaseHeaders), st))
      && (NeedsAuth(st, path) ==>
            && |out.state.log| > |st.log|
            && out.state.log[|st.log|] == GrantRequest(env, GrantFor(env, st.refreshToken))
            && out.state == Authenticate(env, st).state
            && (out.result.Ok? <==> Authenticate(env, st).result.Ok?))
      && (out.result.Ok? && NeedsAuth(st, path) ==>
            out.result.value == BaseHeaders + [Bearer(env.decodeTokens(Authenticate(env, st).result.value.body).accessToken)])
      && (out.result.Err? ==>
            out.result.error.Runtime? && out.state.accessToken.None? && out.state.refreshToken.None?)
  {
    if NeedsAuth(st, path) {
      AuthenticateContract(env, st);
    }
  }

  /** authenticate's contract. The first request is the refresh grant when
      a refresh token is cached and the password grant otherwise; at most
      one more request follows, only after a refresh, and it is the
      password grant. Success stores exactly the decoded token fields of
      the reply it consumed; failure leaves no token at all. */
  lemma {:induction false} AuthenticateContract(env: Env, st: State)
    requires st.accessToken.None?
    decreases Remaining(st), 4, if st.refreshToken.Some? then 1 else 0
    ensures var out := Authenticate(env, st);
      && Progress(st, out.state)
      && |st.log| < |out.state.log| <= |st.log| + (if st.refreshToken.Some? then 2 else 1)
      && out.state.log[|st.log|] == GrantRequest(env, GrantFor(env, st.refreshToken))
      && (|out.state.log| == |st.log| + 2 ==> out.state.log[|st.log| + 1] == GrantRequest(env, CredentialsGrant(env)))
      && (out.result.Ok? ==>
            && Delivered(st, out.state, out.result.value)
            && Tokens(out.state.accessToken, out.state.refreshToken) == env.decodeTokens(out.result.value.body))
      && (out.result.Err? ==>
            out.result.error.Runtime? && out.state.accessToken.None? && out.state.refreshToken.None?)
  {
    var out := Authenticate(env, st);
    if st.refreshToken.None? {
      var exchange := GetAccessTokenByCredentials(env, st);
      CredentialsContract(env, st);
      AuthenticateStep(env, st, exchange);
    } else {
      var exchange := GetAccessTokenByRefreshToken(env, st);
      RefreshContract(env, st);
      AuthenticateStep(env, st, exchange);
      if exchange.result.Err? {
        var cleared := exchange.state.(refreshToken := None);
        ProgressTokens(st, exchange.state, cleared);
        AuthenticateContract(env, cleared);
        assert out == Authenticate(env, cleared);
        ProgressTransitive(st, cleared, out.state);
        assert out.state.log[|st.log|] == out.state.log[..|cleared.log|][|st.log|];
      }
    }
  }

  /** What authenticate does with the outcome of its first exchange, when
      that is the end of it: a failure with no refresh token left to drop,
      or a success. */
  lemma AuthenticateStep(env: Env, st: State, exchange: Step<Response>)
    requires st.accessToken.None?
    requires exchange == (if st.refreshToken.None? then GetAccessTokenByCredentials(env, st) else GetAccessTokenByRefreshToken(env, st))
    requires Progress(st, exchange.state) && SameTokens(st, exchange.state)
    requires LoggedOnce(st, exchange.state, GrantRequest(env, GrantFor(env, st.refreshToken)))
    requires exchange.result.Ok? ==> Delivered(st, exchange.state, exchange.result.value)
    requires !IsInvalidArgument(exchange.result)
    ensures exchange.result.Ok? || st.refreshToken.None? ==>
      var out := Authenticate(env, st);
      && Progress(st, out.state)
      && out.state.log == exchange.state.log
      && (out.result.Ok? ==>
            && Delivered(st, out.state, out.result.value)
            && Tokens(out.state.accessToken, out.state.refreshToken) == env.decodeTokens(out.result.value.body))
      && (out.result.Err? ==>
            out.result.error.Runtime? && out.state.accessToken.None? && out.state.refreshToken.None?)
  {
    if exchange.result.Ok? {
      var tokens := env.decodeTokens(exchange.result.value.body);
      ProgressTokens(st, exchange.state, exchange.state.(accessToken := tokens.accessToken, refreshToken := tokens.refreshToken));
    }
  }

  /** getAccessTokenByCredentials sends exactly the password grant, once. */
  lemma {:induction false} CredentialsContract(env: Env, st: State)
    decreases Remaining(st), 3, 0
    ensures var out := GetAccessTokenByCredentials(env, st);
      && Progress(st, out.state)
      && !IsInvalidArgument(out.result)
      && (st.accessToken.None? ==> LoggedOnce(st, out.state, GrantRequest(env, CredentialsGrant(env))))
      && (out.result.Ok? ==> Delivered(st, out.state, out.result.value))
  {
    AuthPathValid();
    DoRequestContract(env, st, AuthPath, POST, None, Some(CredentialsGrant(env)));
  }

  /** getAccessTokenByRefreshToken sends exactly the refresh grant, once. */
  lemma {:induction false} RefreshContract(env: Env, st: State)
    decreases Remaining(st), 3, 0
    ensures var out := GetAccessTokenByRefreshToken(env, st);
      && Progress(st, out.state)
      && !IsInvalidArgument(out.result)
      && (st.accessToken.None? ==> LoggedOnce(st, out.state, GrantRequest(env, RefreshGrant(st.refreshToken))))
      && (out.result.Ok? ==> Delivered(st, out.state, out.result.value))
  {
    AuthPathValid();
    DoRequestContract(env, st, AuthPath, POST, None, Some(RefreshGrant(st.refreshToken)));
  }
}
