/**
 * The client object: its configuration, tokens, refresh counter and handler registry,
 * with the methods that change them. Every method is proved to do exactly what the
 * matching function of `ClientSpec` describes.
 */
module Api {
  import opened Wrappers
  import opened Json
  import opened GoStrings
  import opened Http
  import opened Errors
  import opened Events
  import opened ClientSpec
  import Scopes
  import UrlValues

  /** TwitchApiConfig: what a caller hands to CreateTwitchApi. */
  datatype TwitchApiConfig = TwitchApiConfig(
    clientID: string,
    clientSecret: string,
    accessToken: Option<string>,
    refreshToken: Option<string>,
    scopes: seq<Scopes.Scope>,
    redirectURI: Option<string>,
    throwRatelimitErrors: Option<bool>)

  const HelixBaseUrl: string := "https://api.twitch.tv/helix"
  const IngestBaseUrl: string := "https://ingest.twitch.tv"

  /**
   * CreateTwitchApi: a new client for `config`, talking through `transport` and reading
   * `clock`. A wait handle for the background user lookup exists exactly when an access
   * token was supplied; the lookup itself is not modelled.
   */
  method CreateTwitchApi(config: TwitchApiConfig, transport: Transport, clock: Clock)
    returns (client: Client, hasWaitGroup: bool)
    ensures fresh(client)
    ensures client.Settings() == ClientSpec.Settings(config.clientID, config.clientSecret, config.scopes,
      config.redirectURI, config.throwRatelimitErrors == Some(true), HelixBaseUrl, IngestBaseUrl)
    ensures client.transport == transport && client.clock == clock
    ensures client.accessToken == config.accessToken && client.refreshToken == config.refreshToken
    ensures client.refreshAttempts == 0 && client.eventHandlers == map[] && client.calls == []
    ensures !client.ready && !client.verbose
    ensures hasWaitGroup <==> config.accessToken.Some?
  {
    client := new Client(config, transport, clock);
    hasWaitGroup := client.accessToken.Some?;
  }

  class Client {
    const clientID: string
    const clientSecret: string
    const scopes: seq<Scopes.Scope>
    const redirectURI: Option<string>
    const throwRateLimitErrors: bool
    const baseURL: string
    const ingestBaseURL: string
    const transport: Transport
    const clock: Clock

    var accessToken: Option<string>
    var refreshToken: Option<string>
    var refreshAttempts: int
    var ready: bool
    var verbose: bool
    var eventHandlers: Handlers
    /** The handler calls made so far, oldest first. */
    var calls: seq<Invocation>

    constructor(config: TwitchApiConfig, transport: Transport, clock: Clock)
      ensures Settings() == ClientSpec.Settings(config.clientID, config.clientSecret, config.scopes,
        config.redirectURI, config.throwRatelimitErrors == Some(true), HelixBaseUrl, IngestBaseUrl)
      ensures this.transport == transport && this.clock == clock
      ensures accessToken == config.accessToken && refreshToken == config.refreshToken
      ensures refreshAttempts == 0 && eventHandlers == map[] && calls == []
      ensures !ready && !verbose
    {
      clientID := config.clientID;
      clientSecret := config.clientSecret;
      scopes := config.scopes;
      redirectURI := config.redirectURI;
      throwRateLimitErrors := config.throwRatelimitErrors == Some(true);
      baseURL := HelixBaseUrl;
      ingestBaseURL := IngestBaseUrl;
      this.transport := transport;
      this.clock := clock;
      accessToken := config.accessToken;
      refreshToken := config.refreshToken;
      refreshAttempts := 0;
      ready := false;
      verbose := false;
      eventHandlers := map[];
      calls := [];
    }

    /** The configuration, which no method changes. */
    function Settings(): ClientSpec.Settings
    {
      ClientSpec.Settings(clientID, clientSecret, scopes, redirectURI, throwRateLimitErrors,
        baseURL, ingestBaseURL)
    }

    /** Everything the methods may change, as one value. */
    function Snapshot(): Session
      reads this, transport, clock
    {
      Session(accessToken, refreshToken, refreshAttempts, eventHandlers, calls,
        transport.script, transport.sent, clock.nanos, clock.sleeps)
    }

    // -------------------------------------------------------------------------
    // The event registry.
    // -------------------------------------------------------------------------

    method AddEventHandler(event: string, handler: nat)
      modifies this
      ensures Snapshot() == old(Snapshot()).(handlers := AddHandler(old(eventHandlers), event, handler))
      ensures ready == old(ready) && verbose == old(verbose)
    {
      eventHandlers := eventHandlers[event := HandlersOf(eventHandlers, event) + [handler]];
    }

    method RemoveEventHandler(event: string)
      modifies this
      ensures Snapshot() == old(Snapshot()).(handlers := RemoveHandlers(old(eventHandlers), event))
      ensures ready == old(ready) && verbose == old(verbose)
    {
      eventHandlers := eventHandlers - {event};
    }

    /** emit: calls the handlers of `event` one after the other. */
    method Emit(event: string, data: Payload)
      modifies this
      ensures Snapshot() == ClientSpec.Emit(old(Snapshot()), event, data)
      ensures ready == old(ready) && verbose == old(verbose)
    {
      if event in eventHandlers {
        var handlers := eventHandlers[event];
        for i := 0 to |handlers|
          invariant Snapshot() == old(Snapshot()).(calls := old(calls) + CallsOf(handlers[..i], event, data))
          invariant ready == old(ready) && verbose == old(verbose)
        {
          calls := calls + [Invocation(handlers[i], event, data)];
          assert CallsOf(handlers[..i + 1], event, data)
            == CallsOf(handlers[..i], event, data) + [Invocation(handlers[i], event, data)];
        }
        assert handlers[..|handlers|] == handlers;
      }
    }

    /** handleRateLimit: reports the rate limit of every response. */
    method HandleRateLimit(header: Header)
      modifies this
      ensures Snapshot() == ClientSpec.HandleRateLimit(old(Snapshot()), header)
      ensures ready == old(ready) && verbose == old(verbose)
    {
      var rateLimit := ExtractRateLimit(header);
      Emit("ratelimitpoll", RateLimit(rateLimit));
    }

    /** hasScope: whether the client was configured with `scope`. */
    method HasScope(scope: Scopes.Scope) returns (found: bool)
      ensures found <==> scope in scopes
    {
      found := Scopes.HasScope(scopes, scope);
    }

    /** GenerateAuthURL: the authorization URL, its query built up one parameter at a time. */
    method GenerateAuthURL() returns (url: string)
      ensures url == AuthUrl(Settings())
    {
      var params: UrlValues.Values := map[];
      params := UrlValues.Add(params, "client_id", clientID);
      params := UrlValues.Add(params, "response_type", "code");
      if redirectURI.Some? {
        params := UrlValues.Add(params, "redirect_uri", redirectURI.value);
      }
      if |scopes| > 0 {
        var scopeStrings := Scopes.ScopesToStrings(scopes);
        params := UrlValues.Add(params, "scope", Join(scopeStrings, " "));
      }
      url := AuthorizeUrl + "?" + UrlValues.Encode(params);
    }

    // -------------------------------------------------------------------------
    // Tokens.
    // -------------------------------------------------------------------------

    /** validate: whether the access token is still accepted. */
    method Validate() returns (valid: Result<bool, Failure>)
      modifies transport
      ensures Snapshot() == ClientSpec.Validate(old(Snapshot())).session
      ensures valid == ClientSpec.Validate(old(Snapshot())).result
    {
      if accessToken.None? {
        return Success(false);
      }
      var reply := transport.Do(ValidateRequest(accessToken.value));
      if reply.Failure? {
        return Failure(TransportError(reply.error));
      }
      valid := ValidateVerdict(reply.value);
    }

    /** refresh: obtains new tokens when the access token is no longer valid. */
    method Refresh() returns (err: Option<Failure>)
      modifies this, transport
      ensures Snapshot() == ClientSpec.Refresh(Settings(), old(Snapshot())).session
      ensures err == ClientSpec.Refresh(Settings(), old(Snapshot())).result
      ensures ready == old(ready) && verbose == old(verbose)
    {
      var valid := Validate();
      if valid.Failure? {
        return Some(valid.error);
      }
      if valid.value {
        return None;
      }
      if refreshToken.None? {
        return Some(ClientError(RefreshTokenNotSet));
      }
      var reply := transport.Do(RefreshRequest(Settings(), refreshToken.value));
      if reply.Failure? {
        return Some(TransportError(reply.error));
      }
      var result := DecodeBodyAuth(reply.value.body);
      if result.None? {
        return Some(DecodeError);
      }
      var e := result.value;
      StoreTokens(e);
      Emit("refresh", Auth(e));
      if e.accessToken == "" {
        refreshAttempts := refreshAttempts + 1;
      }
      err := None;
    }

    /** Keeps each token of `e` that is not empty. */
    method StoreTokens(e: AuthEvent)
      modifies this
      ensures Snapshot() == ClientSpec.StoreTokens(old(Snapshot()), e)
      ensures ready == old(ready) && verbose == old(verbose)
    {
      if e.accessToken != "" {
        accessToken := Some(e.accessToken);
      }
      if e.refreshToken != "" {
        refreshToken := Some(e.refreshToken);
      }
    }

    /** getAppAccessToken: an app access token from the client-credentials grant. */
    method GetAppAccessToken() returns (token: Result<string, Failure>)
      modifies transport
      ensures Snapshot() == AppToken(Settings(), old(Snapshot())).session
      ensures token == AppToken(Settings(), old(Snapshot())).result
    {
      var reply := transport.Do(AppTokenRequest(Settings()));
      if reply.Failure? {
        return Failure(TransportError(reply.error));
      }
      token := AppTokenVerdict(reply.value);
    }

    /** GetUserAccess: tokens for the user who granted `code`. */
    method GetUserAccess(code: string) returns (err: Option<Failure>)
      modifies this, transport
      ensures Snapshot() == UserAccess(Settings(), old(Snapshot()), code).session
      ensures err == UserAccess(Settings(), old(Snapshot()), code).result
      ensures ready == old(ready) && verbose == old(verbose)
    {
      var reply := transport.Do(UserAccessRequest(Settings(), code));
      if reply.Failure? {
        return Some(TransportError(reply.error));
      }
      var result := DecodeBodyAuth(reply.value.body);
      if result.None? {
        return Some(DecodeError);
      }
      var e := result.value;
      StoreTokens(e);
      Emit("user_auth", Auth(e));
      err := None;
    }

    // -------------------------------------------------------------------------
    // Requests.
    // -------------------------------------------------------------------------

    /** The rate-limit wait of a 429 reply: the clock sleeps when it is positive. */
    method WaitForReset(rateLimit: TwitchApiRateLimit)
      modifies clock
      ensures var d := Wait(rateLimit, old(Snapshot()));
        Snapshot() == if d > 0 then ClientSpec.Sleep(old(Snapshot()), d) else old(Snapshot())
    {
      var sleepTime := SleepTime(rateLimit.reset, UnixSeconds(clock.nanos));
      if sleepTime > 0 {
        clock.Sleep(sleepTime);
      }
    }

    /** get: a GET of `endpoint` on the API `apiType` names, with every retry. */
    method Get(endpoint: string, apiType: string) returns (r: Result<string, Failure>)
      modifies this, transport, clock
      ensures Snapshot() == Perform(Settings(), old(Snapshot()), GetCall(endpoint, apiType)).session
      ensures r == Perform(Settings(), old(Snapshot()), GetCall(endpoint, apiType)).result
      ensures ready == old(ready) && verbose == old(verbose)
      decreases |transport.script|, 1
    {
      if accessToken.None? {
        var token := GetAppAccessToken();
        if token.Failure? {
          return Failure(token.error);
        }
        accessToken := Some(token.value);
      }
      r := Attempt(GetCall(endpoint, apiType));
    }

    /** update: a request with a body, sent with `verb`, with every retry. */
    method Update(endpoint: string, data: Option<Json>, verb: string) returns (r: Result<string, Failure>)
      modifies this, transport, clock
      ensures Snapshot() == Perform(Settings(), old(Snapshot()), UpdateCall(endpoint, data, verb)).session
      ensures r == Perform(Settings(), old(Snapshot()), UpdateCall(endpoint, data, verb)).result
      ensures ready == old(ready) && verbose == old(verbose)
      decreases |transport.script|, 1
    {
      if !HasPrefix(endpoint, "/") {
        return Failure(ClientError(EndpointSlash));
      }
      if accessToken.None? {
        return Failure(NilTokenPanic);
      }
      r := Attempt(UpdateCall(endpoint, data, verb));
    }

    /**
     * One attempt of `get` or `update` once the token is there; the two share this code
     * line for line. It sends the request, reports the rate limit, and on 401 refreshes
     * and on 429 waits (or fails) before the call is made again from the start.
     */
    method Attempt(call: ApiCall) returns (r: Result<string, Failure>)
      requires accessToken.Some?
      modifies this, transport, clock
      ensures Snapshot() == Issue(Settings(), old(Snapshot()), call).session
      ensures r == Issue(Settings(), old(Snapshot()), call).result
      ensures ready == old(ready) && verbose == old(verbose)
      decreases |transport.script|, 0
    {
      ghost var s0 := Snapshot();
      ghost var out := Issue(Settings(), s0, call);
      ghost var x := Exchange(s0, ApiRequest(Settings(), accessToken.value, call));
      var reply := transport.Do(ApiRequest(Settings(), accessToken.value, call));
      assert Snapshot() == x.session && reply == x.result;
      if reply.Failure? {
        assert out == Outcome(x.session, Failure(TransportError(reply.error)));
        return Failure(TransportError(reply.error));
      }
      var resp := reply.value;
      HandleRateLimit(resp.header);
      ghost var polled := ClientSpec.HandleRateLimit(x.session, resp.header);
      if resp.status == 401 {
        r := Unauthorized(call);
        return;
      }
      if resp.status == 429 {
        r := TooManyRequests(call, resp.header);
        return;
      }
      assert out == Outcome(polled, Success(resp.body.text));
      r := Success(resp.body.text);
    }

    /** The 401 branch of an attempt: refresh, and make the call again when that worked. */
    method Unauthorized(call: ApiCall) returns (r: Result<string, Failure>)
      modifies this, transport, clock
      ensures var y := ClientSpec.Refresh(Settings(), old(Snapshot()));
        var out := if y.result.Some? then Outcome(y.session, Failure(y.result.value))
          else Perform(Settings(), y.session, call);
        Snapshot() == out.session && r == out.result
      ensures ready == old(ready) && verbose == old(verbose)
      decreases |transport.script|, 3
    {
      var err := Refresh();
      if err.Some? {
        return Failure(err.value);
      }
      r := Retry(call);
    }

    /** The 429 branch of an attempt: report the limit, then fail or wait and call again. */
    method TooManyRequests(call: ApiCall, header: Header) returns (r: Result<string, Failure>)
      modifies this, transport, clock
      ensures var limited := Limited(old(Snapshot()), header);
        var rl := ExtractRateLimit(header);
        var d := Wait(rl, limited);
        var out := if throwRateLimitErrors then Outcome(limited, Failure(RateLimited(TwitchApiRateLimitError(rl))))
          else Perform(Settings(), if d > 0 then ClientSpec.Sleep(limited, d) else limited, call);
        Snapshot() == out.session && r == out.result
      ensures ready == old(ready) && verbose == old(verbose)
      decreases |transport.script|, 3
    {
      var rateLimit := ExtractRateLimit(header);
      Emit("ratelimit", RateLimit(rateLimit));
      if throwRateLimitErrors {
        return Failure(RateLimited(TwitchApiRateLimitError(rateLimit)));
      }
      WaitForReset(rateLimit);
      r := Retry(call);
    }

    /** The call made again: `get` calls itself, `update` calls itself. */
    method Retry(call: ApiCall) returns (r: Result<string, Failure>)
      modifies this, transport, clock
      ensures Snapshot() == Perform(Settings(), old(Snapshot()), call).session
      ensures r == Perform(Settings(), old(Snapshot()), call).result
      ensures ready == old(ready) && verbose == old(verbose)
      decreases |transport.script|, 2
    {
      match call
      case GetCall(endpoint, apiType) =>
        r := Get(endpoint, apiType);
      case UpdateCall(endpoint, data, verb) =>
        r := Update(endpoint, data, verb);
    }

    method Post(endpoint: string, data: Option<Json>) returns (r: Result<string, Failure>)
      modifies this, transport, clock
      ensures Snapshot() == Perform(Settings(), old(Snapshot()), UpdateCall(endpoint, data, "post")).session
      ensures r == Perform(Settings(), old(Snapshot()), UpdateCall(endpoint, data, "post")).result
      ensures ready == old(ready) && verbose == old(verbose)
    {
      r := Update(endpoint, data, "post");
    }

    method Put(endpoint: string, data: Option<Json>) returns (r: Result<string, Failure>)
      modifies this, transport, clock
      ensures Snapshot() == Perform(Settings(), old(Snapshot()), UpdateCall(endpoint, data, "put")).session
      ensures r == Perform(Settings(), old(Snapshot()), UpdateCall(endpoint, data, "put")).result
      ensures ready == old(ready) && verbose == old(verbose)
    {
      r := Update(endpoint, data, "put");
    }

    method Patch(endpoint: string, data: Option<Json>) returns (r: Result<string, Failure>)
      modifies this, transport, clock
      ensures Snapshot() == Perform(Settings(), old(Snapshot()), UpdateCall(endpoint, data, "patch")).session
      ensures r == Perform(Settings(), old(Snapshot()), UpdateCall(endpoint, data, "patch")).result
      ensures ready == old(ready) && verbose == old(verbose)
    {
      r := Update(endpoint, data, "patch");
    }

    method Delete(endpoint: string, data: Option<Json>) returns (r: Result<string, Failure>)
      modifies this, transport, clock
      ensures Snapshot() == Perform(Settings(), old(Snapshot()), UpdateCall(endpoint, data, "delete")).session
      ensures r == Perform(Settings(), old(Snapshot()), UpdateCall(endpoint, data, "delete")).result
      ensures ready == old(ready) && verbose == old(verbose)
    {
      r := Update(endpoint, data, "delete");
    }
  }
}
