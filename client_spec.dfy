/**
 * What the client does to its own state and to the network, as functions over a
 * snapshot of that state. The methods of `Api.Client` are proved to agree with these
 * functions, and the properties of the client are proved about them.
 */
module ClientSpec {
  import opened Wrappers
  import opened Json
  import opened Strconv
  import opened GoStrings
  import opened Http
  import opened Errors
  import opened Events
  import Scopes
  import UrlValues

  // ---------------------------------------------------------------------------
  // State.
  // ---------------------------------------------------------------------------

  /** What `emit` hands to the handlers of an event. */
  datatype Payload =
    | NoData
    | Text(text: string)
    | RateLimit(snapshot: TwitchApiRateLimit)
    | Auth(event: AuthEvent)

  /**
   * One call of a handler. Handlers are Go closures; here each is known by the number it
   * was given when registered, and a call is recorded instead of run.
   */
  datatype Invocation = Invocation(handler: nat, event: string, data: Payload)

  /** The registry: every event name with its handlers in registration order. */
  type Handlers = map<string, seq<nat>>

  /** The errors the client returns. */
  datatype Failure =
    | ClientError(message: string)            // built by the client from a fixed text
    | TransportError(message: string)         // returned by http.Client.Do
    | DecodeError                             // returned by encoding/json
    | RateLimited(error: TwitchApiRateLimitError)
    | NilTokenPanic                           // `update` dereferences a nil access token

  /** The configuration a client keeps unchanged for its whole life. */
  datatype Settings = Settings(
    clientID: string,
    clientSecret: string,
    scopes: seq<Scopes.Scope>,
    redirectURI: Option<string>,
    throwRateLimitErrors: bool,
    baseURL: string,
    ingestBaseURL: string)

  /**
   * Everything a call can change: the tokens and the refresh counter, the handler
   * registry and the handler calls made so far, the network (replies still to come and
   * requests sent) and the clock (nanoseconds and sleeps taken).
   */
  datatype Session = Session(
    accessToken: Option<string>,
    refreshToken: Option<string>,
    refreshAttempts: int,
    handlers: Handlers,
    calls: seq<Invocation>,
    script: seq<Reply>,
    sent: seq<Request>,
    nanos: int,
    sleeps: seq<int>)

  /** The session after a call, and what the call returned. */
  datatype Outcome<T> = Outcome(session: Session, result: T)

  // ---------------------------------------------------------------------------
  // The event registry.
  // ---------------------------------------------------------------------------

  /** The handlers of `event`; an event never registered has none. */
  function HandlersOf(handlers: Handlers, event: string): seq<nat>
  {
    if event in handlers then handlers[event] else []
  }

  /** AddEventHandler: appends `h` to the list of `event`. */
  function AddHandler(handlers: Handlers, event: string, h: nat): Handlers
  {
    handlers[event := HandlersOf(handlers, event) + [h]]
  }

  /** RemoveEventHandler: forgets the list of `event`. */
  function RemoveHandlers(handlers: Handlers, event: string): Handlers
  {
    handlers - {event}
  }

  /** One call of each of `hs`, in order, all with the same event and payload. */
  function CallsOf(hs: seq<nat>, event: string, data: Payload): (r: seq<Invocation>)
    ensures |r| == |hs|
  {
    seq(|hs|, i requires 0 <= i < |hs| => Invocation(hs[i], event, data))
  }

  /** emit: calls every handler of `event` with `data`. */
  function Emit(s: Session, event: string, data: Payload): Session
  {
    s.(calls := s.calls + CallsOf(HandlersOf(s.handlers, event), event, data))
  }

  // ---------------------------------------------------------------------------
  // The network and the clock.
  // ---------------------------------------------------------------------------

  /** One round trip: the request is recorded and the next scripted reply consumed. */
  function Exchange(s: Session, req: Request): (r: Outcome<Reply>)
    ensures |r.session.script| <= |s.script|
    ensures r.result.Success? ==> |r.session.script| < |s.script|
  {
    var s1 := s.(sent := s.sent + [req]);
    if s.script == [] then Outcome(s1, Failure(NoResponse))
    else Outcome(s1.(script := s.script[1..]), s.script[0])
  }

  /** time.Sleep for a positive duration `d`. */
  function Sleep(s: Session, d: int): Session
  {
    s.(nanos := s.nanos + d, sleeps := s.sleeps + [d])
  }

  // ---------------------------------------------------------------------------
  // Rate limits.
  // ---------------------------------------------------------------------------

  const LimitHeader: string := "Ratelimit-Limit"
  const RemainingHeader: string := "Ratelimit-Remaining"
  const ResetHeader: string := "Ratelimit-Reset"

  /** extractRateLimit: Atoi of each header, its error ignored. */
  function ExtractRateLimit(h: Header): TwitchApiRateLimit
  {
    TwitchApiRateLimit(
      Atoi(HeaderGet(h, LimitHeader)).value,
      Atoi(HeaderGet(h, RemainingHeader)).value,
      Atoi(HeaderGet(h, ResetHeader)).value)
  }

  /** handleRateLimit: emits `ratelimitpoll` with the snapshot of the headers. */
  function HandleRateLimit(s: Session, h: Header): Session
  {
    Emit(s, "ratelimitpoll", RateLimit(ExtractRateLimit(h)))
  }

  // ---------------------------------------------------------------------------
  // validate, refresh, getAppAccessToken and GetUserAccess.
  // ---------------------------------------------------------------------------

  const ValidateUrl: string := "https://id.twitch.tv/oauth2/validate"
  const TokenUrl: string := "https://id.twitch.tv/oauth2/token"
  const AuthorizeUrl: string := "https://id.twitch.tv/oauth2/authorize"

  const MissingAuthorization: string := "missing authorization token"
  const RefreshTokenNotSet: string := "refresh token is not set"
  const NotJsonPrefix: string := "error getting app access token. Expected JSON but got: "
  const NoAccessToken: string := "no access_token in response"
  const EndpointSlash: string := "endpoint must start with a '/' (forward slash)"

  /** A JSON object of strings, as json.Marshal writes a `map[string]string`. */
  function StringObject(m: map<string, string>): Json
  {
    Object(map k | k in m :: Str(m[k]))
  }

  const JsonContent: map<string, string> := map["Content-Type" := "application/json"]

  /** Decoding a body into a `map[string]any`. */
  function DecodeBodyMap(b: Body): Option<map<string, Json>>
  {
    if b.json.Some? then DecodeMap(b.json.value) else None
  }

  /** Decoding a body into an AuthEvent. */
  function DecodeBodyAuth(b: Body): Option<AuthEvent>
  {
    if b.json.Some? then DecodeAuthEvent(b.json.value) else None
  }

  function ValidateRequest(token: string): Request
  {
    Request("GET", ValidateUrl, map["Authorization" := "OAuth " + token], None)
  }

  /** What `validate` makes of a reply. */
  function ValidateVerdict(resp: Response): Result<bool, Failure>
  {
    var m := DecodeBodyMap(resp.body);
    if m.None? then Failure(DecodeError)
    else if StringMember(m.value, "message") == Some(MissingAuthorization) then
      Failure(ClientError(MissingAuthorization))
    else Success(resp.status == 200)
  }

  /** validate: asks the validation endpoint whether the access token is still good. */
  function Validate(s: Session): (r: Outcome<Result<bool, Failure>>)
    ensures |r.session.script| <= |s.script|
  {
    if s.accessToken.None? then Outcome(s, Success(false))
    else
      var x := Exchange(s, ValidateRequest(s.accessToken.value));
      if x.result.Failure? then Outcome(x.session, Failure(TransportError(x.result.error)))
      else Outcome(x.session, ValidateVerdict(x.result.value))
  }

  function RefreshRequest(c: Settings, refreshToken: string): Request
  {
    Request("POST", TokenUrl, JsonContent, Some(StringObject(map[
      "client_id" := c.clientID,
      "client_secret" := c.clientSecret,
      "grant_type" := "refresh_token",
      "refresh_token" := UrlValues.QueryEscape(refreshToken)])))
  }

  /** Each token of `e` replaces the stored one, unless it is empty. */
  function StoreTokens(s: Session, e: AuthEvent): Session
  {
    s.(accessToken := if e.accessToken != "" then Some(e.accessToken) else s.accessToken,
       refreshToken := if e.refreshToken != "" then Some(e.refreshToken) else s.refreshToken)
  }

  /** What `refresh` does with a decoded token reply. */
  function Refreshed(s: Session, e: AuthEvent): Session
  {
    var s1 := Emit(StoreTokens(s, e), "refresh", Auth(e));
    if e.accessToken == "" then s1.(refreshAttempts := s1.refreshAttempts + 1) else s1
  }

  /** refresh: validates the token and, when it is not valid, trades the refresh token. */
  function Refresh(c: Settings, s: Session): (r: Outcome<Option<Failure>>)
    ensures |r.session.script| <= |s.script|
  {
    var v := Validate(s);
    if v.result.Failure? then Outcome(v.session, Some(v.result.error))
    else if v.result.value then Outcome(v.session, None)
    else if v.session.refreshToken.None? then Outcome(v.session, Some(ClientError(RefreshTokenNotSet)))
    else
      var x := Exchange(v.session, RefreshRequest(c, v.session.refreshToken.value));
      if x.result.Failure? then Outcome(x.session, Some(TransportError(x.result.error)))
      else
        var e := DecodeBodyAuth(x.result.value.body);
        if e.None? then Outcome(x.session, Some(DecodeError))
        else Outcome(Refreshed(x.session, e.value), None)
  }

  /** The JSON fields of the client-credentials grant: a `scope` only when there are scopes. */
  function AppTokenFields(c: Settings): map<string, string>
  {
    var base := map[
      "client_id" := c.clientID,
      "client_secret" := c.clientSecret,
      "grant_type" := "client_credentials"];
    if |c.scopes| > 0 then base["scope" := Join(Scopes.Strings(c.scopes), " ")] else base
  }

  function AppTokenRequest(c: Settings): Request
  {
    Request("POST", TokenUrl, JsonContent, Some(StringObject(AppTokenFields(c))))
  }

  /** What `getAppAccessToken` makes of a reply. */
  function AppTokenVerdict(resp: Response): Result<string, Failure>
  {
    var m := DecodeBodyMap(resp.body);
    if m.None? then Failure(ClientError(NotJsonPrefix + resp.body.text))
    else
      var t := StringMember(m.value, "access_token");
      if t.Some? then Success(t.value) else Failure(ClientError(NoAccessToken))
  }

  /** getAppAccessToken: the client-credentials grant. The session's tokens are untouched. */
  function AppToken(c: Settings, s: Session): (r: Outcome<Result<string, Failure>>)
    ensures |r.session.script| <= |s.script|
    ensures r.result.Success? ==> |r.session.script| < |s.script|
  {
    var x := Exchange(s, AppTokenRequest(c));
    if x.result.Failure? then Outcome(x.session, Failure(TransportError(x.result.error)))
    else Outcome(x.session, AppTokenVerdict(x.result.value))
  }

  /** The query of the authorization-code grant. */
  function UserAccessParams(c: Settings, code: string): UrlValues.Values
  {
    var p := UrlValues.Add(UrlValues.Add(UrlValues.Add(UrlValues.Add(map[],
      "client_id", c.clientID), "client_secret", c.clientSecret), "code", code),
      "grant_type", "authorization_code");
    if c.redirectURI.Some? then UrlValues.Add(p, "redirect_uri", c.redirectURI.value) else p
  }

  function UserAccessRequest(c: Settings, code: string): Request
  {
    Request("POST", TokenUrl + "?" + UrlValues.Encode(UserAccessParams(c, code)), map[], None)
  }

  /** GetUserAccess: trades an authorization code for tokens. */
  function UserAccess(c: Settings, s: Session, code: string): Outcome<Option<Failure>>
  {
    var x := Exchange(s, UserAccessRequest(c, code));
    if x.result.Failure? then Outcome(x.session, Some(TransportError(x.result.error)))
    else
      var e := DecodeBodyAuth(x.result.value.body);
      if e.None? then Outcome(x.session, Some(DecodeError))
      else Outcome(Emit(StoreTokens(x.session, e.value), "user_auth", Auth(e.value)), None)
  }

  /** The query of the authorization URL. */
  function AuthParams(c: Settings): UrlValues.Values
  {
    var p := UrlValues.Add(UrlValues.Add(map[], "client_id", c.clientID), "response_type", "code");
    var q := if c.redirectURI.Some? then UrlValues.Add(p, "redirect_uri", c.redirectURI.value) else p;
    if |c.scopes| > 0 then UrlValues.Add(q, "scope", Join(Scopes.Strings(c.scopes), " ")) else q
  }

  /** GenerateAuthURL. */
  function AuthUrl(c: Settings): string
  {
    AuthorizeUrl + "?" + UrlValues.Encode(AuthParams(c))
  }

  // ---------------------------------------------------------------------------
  // get and update.
  // ---------------------------------------------------------------------------

  /** A call of `get` or of `update`, with its arguments. */
  datatype ApiCall =
    | GetCall(endpoint: string, apiType: string)
    | UpdateCall(endpoint: string, data: Option<Json>, verb: string)

  /** The base URL `get` picks: the ingest one for "ingest", the Helix one otherwise. */
  function BaseUrl(c: Settings, apiType: string): string
  {
    if apiType == "ingest" then c.ingestBaseURL else c.baseURL
  }

  /** The request of one attempt of `call`, made with `token`. */
  function ApiRequest(c: Settings, token: string, call: ApiCall): Request
  {
    match call
    case GetCall(endpoint, apiType) =>
      Request("GET", BaseUrl(c, apiType) + endpoint,
        map["Client-ID" := c.clientID, "Authorization" := "Bearer " + token], None)
    case UpdateCall(endpoint, data, verb) =>
      var content := if data.Some? then JsonContent else map[];
      Request(ToUpper(verb), c.baseURL + endpoint,
        content["Authorization" := "Bearer " + token]["Client-ID" := c.clientID], data)
  }

  /**
   * One call of `get` or `update`, retries included. `get` first fetches an app access
   * token when it has none; `update` first checks the endpoint and then needs a token.
   */
  function Perform(c: Settings, s: Session, call: ApiCall): (r: Outcome<Result<string, Failure>>)
    ensures |r.session.script| <= |s.script|
    decreases |s.script|, 1
  {
    match call
    case GetCall(_, _) =>
      if s.accessToken.Some? then Issue(c, s, call)
      else
        var t := AppToken(c, s);
        if t.result.Failure? then Outcome(t.session, Failure(t.result.error))
        else Issue(c, t.session.(accessToken := Some(t.result.value)), call)
    case UpdateCall(endpoint, _, _) =>
      if !HasPrefix(endpoint, "/") then Outcome(s, Failure(ClientError(EndpointSlash)))
      else if s.accessToken.None? then Outcome(s, Failure(NilTokenPanic))
      else Issue(c, s, call)
  }

  /** The rate-limit wait, in nanoseconds, before the retry of a call answered with 429. */
  function Wait(rl: TwitchApiRateLimit, s: Session): int
  {
    SleepTime(rl.reset, UnixSeconds(s.nanos))
  }

  /** Rate-limit handling of a 429 reply, the retry excluded. */
  function Limited(s: Session, h: Header): Session
  {
    Emit(s, "ratelimit", RateLimit(ExtractRateLimit(h)))
  }

  /**
   * One attempt, with the access token present: send, report the rate limit, then
   * refresh and retry on 401, wait (or fail) and retry on 429, and return the body
   * otherwise.
   */
  function Issue(c: Settings, s: Session, call: ApiCall): (r: Outcome<Result<string, Failure>>)
    requires s.accessToken.Some?
    ensures |r.session.script| <= |s.script|
    decreases |s.script|, 0
  {
    var x := Exchange(s, ApiRequest(c, s.accessToken.value, call));
    if x.result.Failure? then Outcome(x.session, Failure(TransportError(x.result.error)))
    else
      var resp := x.result.value;
      var polled := HandleRateLimit(x.session, resp.header);
      if resp.status == 401 then
        var y := Refresh(c, polled);
        if y.result.Some? then Outcome(y.session, Failure(y.result.value))
        else Perform(c, y.session, call)
      else if resp.status == 429 then
        var limited := Limited(polled, resp.header);
        if c.throwRateLimitErrors then
          Outcome(limited, Failure(RateLimited(TwitchApiRateLimitError(ExtractRateLimit(resp.header)))))
        else
          var d := Wait(ExtractRateLimit(resp.header), limited);
          Perform(c, if d > 0 then Sleep(limited, d) else limited, call)
      else Outcome(polled, Success(resp.body.text))
  }
}
