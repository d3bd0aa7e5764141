/** Properties of the request pipeline that relate several steps: the URL
    it builds, when the Authorization header appears, what a 401 does, and
    how a failed refresh falls back to the password grant. */
module ApiClientProperties {
  import opened Wrappers
  import opened Text
  import opened Php
  import opened ApiResponse
  import opened CurlClient
  import opened ApiClient
  import opened ApiClientContracts

  /** The URL is the host, one '/', the path with all its leading slashes
      removed, and then '?' and the query when the query is non-empty (the
      output of http_build_query never ends in '?', which it encodes). With
      an empty query the trailing '?'s are stripped, and they include any
      the path itself ends with; a path not ending in '?' is kept whole. */
  lemma UrlShape(path: string, query: string)
    ensures var t := TrimLeft(path, '/');
      && (t == [] || t[0] != '/')
      && (query != [] && query[|query| - 1] != '?' ==>
            BuildUrl(path, query) == Host + "/" + t + "?" + query)
      && BuildUrl(path, "") == TrimRight(Host + "/" + t, '?')
      && ((t == [] || t[|t| - 1] != '?') ==> BuildUrl(path, "") == Host + "/" + t)
  {
    var t := TrimLeft(path, '/');
    TrimLeftSpec(path, '/');
    var base := Host + "/" + t;
    assert base[|base| - 1] == if t == [] then '/' else t[|t| - 1];
    assert base + "?" + "" == base + ['?'];
    assert (base + ['?'])[..|base|] == base;
    assert TrimRight(base + ['?'], '?') == TrimRight(base, '?');
    if query != [] && query[|query| - 1] != '?' {
      var whole := base + "?" + query;
      assert whole[|whole| - 1] == query[|query| - 1];
    }
  }

  /** The path's own trailing '?' does not survive when there is no query. */
  lemma TrailingQuestionMarkDropped()
    ensures BuildUrl("a?", "") == Host + "/a"
  {
    UrlShape("a?", "");
    assert TrimLeft("a?", '/') == "a?";
    var base := Host + "/a";
    assert Host + "/" + "a?" == base + ['?'];
    assert (base + ['?'])[..|base|] == base;
  }

  /** With no query (null or empty params, whose encoding is ""), a path
      without '?' yields a URL without '?'. */
  lemma NoQueryNoQuestionMark(path: string)
    requires '?' !in path
    ensures '?' !in BuildUrl(path, "")
    ensures BuildUrl(path, "") == Host + "/" + TrimLeft(path, '/')
  {
    TrimLeftSpec(path, '/');
    var t := TrimLeft(path, '/');
    assert forall i :: 0 <= i < |t| ==> t[i] == path[|path| - |t| + i];
    assert '?' !in t;
    UrlShape(path, "");
    assert '?' !in Host;
    assert Host + "/" + t + "" == Host + "/" + t;
  }

  /** With null or empty params, and http_build_query mapping an empty
      array to "" (the only thing assumed of it), the URL has no '?'. */
  lemma NoParamsNoQuestionMark(env: Env, path: string, params: Option<Assoc>)
    requires env.buildQuery([]) == ""
    requires EmptyArray(params)
    requires '?' !in path
    ensures '?' !in BuildUrl(path, QueryOf(env, params))
  {
    assert OrEmpty(params) == [];
    NoQueryNoQuestionMark(path);
  }

  /** What doRequest sends to its own path. If authentication is needed and
      fails, the target is never sent and the failure propagates. Otherwise
      the first request after the header step is the target, carrying
      Content-Type always and `Authorization: Bearer <t>` exactly when no
      access token was cached and the path is not the auth path, where `t`
      is the access token decoded from the exchange just made. */
  lemma BearerHeaderRule(env: Env, st: State, path: string, verb: Method, params: Option<Assoc>, body: Option<Assoc>)
    requires ValidPath(path)
    ensures var prepared := AttachAuth(env, st, path);
      var out := DoRequest(env, st, path, verb, params, body);
      && (prepared.result.Err? ==> out == Step(Err(prepared.result.error), prepared.state))
      && (!NeedsAuth(st, path) ==> prepared.state == st)
      && (prepared.result.Ok? ==>
            && |out.state.log| > |prepared.state.log|
            && out.state.log[|prepared.state.log|] ==
                 Request(BuildUrl(path, QueryOf(env, params)), verb, body,
                   if NeedsAuth(st, path)
                   then BaseHeaders + [Bearer(env.decodeTokens(Authenticate(env, st).result.value.body).accessToken)]
                   else BaseHeaders))
  {
    var prepared := AttachAuth(env, st, path);
    AttachAuthContract(env, st, path);
    if prepared.result.Ok? {
      TransmitContract(env, prepared.state, path, verb, params, body, prepared.result.value);
    }
  }

  /** doRequest on a good path is the transport step with the headers the
      header step chose: after a successful authenticate, Content-Type plus
      the bearer token it stored; with nothing to authenticate, Content-Type
      alone on the unchanged state. */
  lemma CallAfterHeaders(env: Env, st: State, path: string, verb: Method, params: Option<Assoc>, body: Option<Assoc>)
    requires ValidPath(path)
    requires NeedsAuth(st, path) ==> Authenticate(env, st).result.Ok?
    ensures NeedsAuth(st, path) ==>
      var auth := Authenticate(env, st);
      DoRequest(env, st, path, verb, params, body) ==
        Transmit(env, auth.state, path, verb, params, body, BaseHeaders + [Bearer(auth.state.accessToken)])
    ensures !NeedsAuth(st, path) ==>
      DoRequest(env, st, path, verb, params, body) == Transmit(env, st, path, verb, params, body, BaseHeaders)
  {
  }

  /** A 401 while an access token is cached: the request that drew it is
      logged as sent, and doRequest then starts over for the same path,
      method, params and body with only the access token dropped; the
      refresh token stays. There is no cap: the restarted call does the same
      on its next 401 once it holds a token again. */
  lemma Retry401(env: Env, st: State, path: string, verb: Method, params: Option<Assoc>, body: Option<Assoc>, headers: Headers, b: string)
    requires st.accessToken.Some?
    requires st.cursor < |st.script| && st.script[st.cursor] == Answer(Some(401), b)
    ensures Transmit(env, st, path, verb, params, body, headers) ==
      DoRequest(env,
        State(None, st.refreshToken, st.script, st.cursor + 1,
              st.log + [Request(BuildUrl(path, QueryOf(env, params)), verb, body, headers)]),
        path, verb, params, body)
  {
  }

  /** Seen from doRequest: with a token cached, no authentication runs, the
      request goes out with Content-Type only, and a 401 restarts the call. */
  lemma Retry401FromCache(env: Env, st: State, path: string, verb: Method, params: Option<Assoc>, body: Option<Assoc>, b: string)
    requires ValidPath(path)
    requires st.accessToken.Some?
    requires st.cursor < |st.script| && st.script[st.cursor] == Answer(Some(401), b)
    ensures DoRequest(env, st, path, verb, params, body) ==
      DoRequest(env,
        State(None, st.refreshToken, st.script, st.cursor + 1,
              st.log + [Request(BuildUrl(path, QueryOf(env, params)), verb, body, BaseHeaders)]),
        path, verb, params, body)
  {
    assert AttachAuth(env, st, path) == Step(Ok(BaseHeaders), st);
    Retry401(env, st, path, verb, params, body, BaseHeaders, b);
  }

  /** A reply that makes the transport step start over while an access
      token is cached: an answer whose reported code is 401. */
  predicate IsUnauthorized(reply: Reply) {
    reply.Answer? && reply.httpCode == Some(401)
  }

  /** How a transport call ends when it does not start over: a transport
      error comes back as it is, and a response goes through
      throwForStatus. */
  function Settle(received: Result<Response, Error>, next: State): Step<Response> {
    match received
    case Err(e) => Step(Err(e), next)
    case Ok(response) =>
      match ThrowForStatus(response)
      case Some(e) => Step(Err(e), next)
      case None => Step(Ok(response), next)
  }

  /** The transport step when no access token is cached: exactly one request
      goes out, whatever comes back. An exhausted script is a
      RuntimeException; otherwise the reply is settled at once, so a curl
      failure propagates and a 401 is the client error
      "401 Client Error: <body>" with code 401. */
  lemma TransmitWithoutToken(env: Env, st: State, path: string, verb: Method, params: Option<Assoc>, body: Option<Assoc>, headers: Headers)
    requires st.accessToken.None?
    ensures var logged := st.(log := st.log + [Request(BuildUrl(path, QueryOf(env, params)), verb, body, headers)]);
      if st.cursor < |st.script| then
        Transmit(env, st, path, verb, params, body, headers) == Settle(Receive(st.script[st.cursor]), logged.(cursor := st.cursor + 1))
      else
        Transmit(env, st, path, verb, params, body, headers) == Step(Err(Runtime(ExhaustedMessage, 0)), logged)
    ensures st.cursor < |st.script| && IsUnauthorized(st.script[st.cursor]) ==>
      Transmit(env, st, path, verb, params, body, headers).result == Err(Runtime("401 Client Error: " + st.script[st.cursor].body, 401))
  {
    if st.cursor < |st.script| && IsUnauthorized(st.script[st.cursor]) {
      Unauthorized(st.script[st.cursor].body);
    }
  }

  /** throwForStatus on a 401 reply. */
  lemma Unauthorized(b: string)
    ensures ThrowForStatus(Response(b, 401)) == Some(Runtime("401 Client Error: " + b, 401))
  {
    StatusMessageDigits(Response(b, 401));
    assert [DigitChar(4), DigitChar(0), DigitChar(1)] + " Client Error: " == "401 Client Error: ";
  }

  /** The transport step when an access token is cached. An exhausted script
      is a RuntimeException after one request. A 401 answer drops the access
      token and restarts doRequest; every other reply (a curl failure, an
      answer without a code, any other status) is settled at once, after
      exactly one request, with the tokens untouched. */
  lemma TransmitWithToken(env: Env, st: State, path: string, verb: Method, params: Option<Assoc>, body: Option<Assoc>, headers: Headers)
    requires st.accessToken.Some?
    ensures var logged := st.(log := st.log + [Request(BuildUrl(path, QueryOf(env, params)), verb, body, headers)]);
      if st.cursor >= |st.script| then
        Transmit(env, st, path, verb, params, body, headers) == Step(Err(Runtime(ExhaustedMessage, 0)), logged)
      else if IsUnauthorized(st.script[st.cursor]) then
        Transmit(env, st, path, verb, params, body, headers) ==
          DoRequest(env, logged.(cursor := st.cursor + 1, accessToken := None), path, verb, params, body)
      else
        Transmit(env, st, path, verb, params, body, headers) == Settle(Receive(st.script[st.cursor]), logged.(cursor := st.cursor + 1))
  {
  }

  /** A curl failure ends the call whatever tokens are cached: its
      RuntimeException comes back unchanged, exactly one request is logged,
      and no retry follows. */
  lemma TransportErrorStops(env: Env, st: State, path: string, verb: Method, params: Option<Assoc>, body: Option<Assoc>, headers: Headers)
    requires st.cursor < |st.script| && st.script[st.cursor].Failure?
    ensures var out := Transmit(env, st, path, verb, params, body, headers);
      && out.result == Receive(st.script[st.cursor])
      && out.result.Err? && out.result.error.Runtime? && out.result.error.code == 0
      && out.state == st.(cursor := st.cursor + 1, log := st.log + [Request(BuildUrl(path, QueryOf(env, params)), verb, body, headers)])
  {
    if st.accessToken.Some? {
      TransmitWithToken(env, st, path, verb, params, body, headers);
    } else {
      TransmitWithoutToken(env, st, path, verb, params, body, headers);
    }
  }

  /** A refresh exchange that fails in any way (a status error or a
      transport error alike) drops the refresh token and leads to exactly
      one password exchange, two requests in all. If that one fails too,
      its error is what authenticate throws, unchanged, and no token is
      left. */
  lemma RefreshFailureFallsBackOnce(env: Env, st: State)
    requires st.accessToken.None? && st.refreshToken.Some?
    requires GetAccessTokenByRefreshToken(env, st).result.Err?
    ensures var cleared := GetAccessTokenByRefreshToken(env, st).state.(refreshToken := None);
      var fallback := GetAccessTokenByCredentials(env, cleared);
      && Authenticate(env, st) == Authenticate(env, cleared)
      && |Authenticate(env, st).state.log| == |st.log| + 2
      && Authenticate(env, st).state.log[|st.log| + 1] == GrantRequest(env, CredentialsGrant(env))
      && (fallback.result.Err? ==>
            && Authenticate(env, st) == Step(Err(fallback.result.error), fallback.state)
            && fallback.state.accessToken.None? && fallback.state.refreshToken.None?)
  {
    var exchange := GetAccessTokenByRefreshToken(env, st);
    RefreshContract(env, st);
    var cleared := exchange.state.(refreshToken := None);
    assert exchange.result.error.Runtime?;
    assert Authenticate(env, st) == Authenticate(env, cleared);
    CredentialsContract(env, cleared);
    AuthenticateContract(env, cleared);
  }

  /** The three verbs are doRequest with their method: a good path is never
      rejected, and a success's last request carries the verb. */
  lemma VerbWrappers(env: Env, st: State, path: string, params: Option<Assoc>, body: Option<Assoc>)
    ensures ValidPath(path) <==> !IsInvalidArgument(Get(env, st, path, params, body).result)
    ensures ValidPath(path) <==> !IsInvalidArgument(Post(env, st, path, params, body).result)
    ensures ValidPath(path) <==> !IsInvalidArgument(Put(env, st, path, params, body).result)
    ensures Get(env, st, path, params, body).result.Ok? ==>
      LastRequestIs(Get(env, st, path, params, body).state.log, BuildUrl(path, QueryOf(env, params)), GET, body)
    ensures Post(env, st, path, params, body).result.Ok? ==>
      LastRequestIs(Post(env, st, path, params, body).state.log, BuildUrl(path, QueryOf(env, params)), POST, body)
    ensures Put(env, st, path, params, body).result.Ok? ==>
      LastRequestIs(Put(env, st, path, params, body).state.log, BuildUrl(path, QueryOf(env, params)), PUT, body)
  {
    DoRequestContract(env, st, path, GET, params, body);
    DoRequestContract(env, st, path, POST, params, body);
    DoRequestContract(env, st, path, PUT, params, body);
  }
}
