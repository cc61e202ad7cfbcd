/**
 * Properties of the client: the rate-limit snapshot, the handler registry, token
 * validation and refresh, the token grants and the retrying request pipeline.
 */
module ClientProperties {
  import opened Wrappers
  import opened Json
  import opened Strconv
  import opened GoStrings
  import opened Http
  import opened Errors
  import opened Events
  import opened ClientSpec
  import Scopes
  import UrlValues

  // ---------------------------------------------------------------------------
  // extractRateLimit and handleRateLimit.
  // ---------------------------------------------------------------------------

  /** Header values written in decimal are read back exactly. */
  lemma ExtractRateLimitDecimal(h: Header, limit: int, remaining: int, reset: int)
    requires MinInt64 <= limit <= MaxInt64
    requires MinInt64 <= remaining <= MaxInt64
    requires MinInt64 <= reset <= MaxInt64
    requires HeaderGet(h, LimitHeader) == Itoa(limit)
    requires HeaderGet(h, RemainingHeader) == Itoa(remaining)
    requires HeaderGet(h, ResetHeader) == Itoa(reset)
    ensures ExtractRateLimit(h) == TwitchApiRateLimit(limit, remaining, reset)
  {
    AtoiItoa(limit);
    AtoiItoa(remaining);
    AtoiItoa(reset);
  }

  /** A header value that is missing, or not decimal and no longer than 20 characters. */
  predicate Unparsable(h: Header, key: string)
  {
    !IsDecimal(HeaderGet(h, key)) && |HeaderGet(h, key)| <= 20
  }

  /** Missing or unparsable headers count as 0. */
  lemma ExtractRateLimitUnparsable(h: Header)
    requires Unparsable(h, LimitHeader) && Unparsable(h, RemainingHeader) && Unparsable(h, ResetHeader)
    ensures ExtractRateLimit(h) == TwitchApiRateLimit(0, 0, 0)
  {
    AtoiSyntaxError(HeaderGet(h, LimitHeader));
    AtoiSyntaxError(HeaderGet(h, RemainingHeader));
    AtoiSyntaxError(HeaderGet(h, ResetHeader));
  }

  lemma DecimalTexts()
    ensures Itoa(800) == "800" && Itoa(799) == "799"
  {
  }

  /** One more decimal digit on the right. */
  lemma DigitsStep(n: nat, q: nat, d: nat)
    requires n == 10 * q + d && d < 10 && q > 0
    ensures NatDigits(n) == NatDigits(q) + ['0' + d as char]
  {
  }

  lemma ResetText(n: nat)
    requires n == 1234567890
    ensures Itoa(n) == "1234567890"
  {
    var n1, n2, n3, n4, n5 := 1, 12, 123, 1234, 12345;
    var n6, n7, n8, n9 := 123456, 1234567, 12345678, 123456789;
    DigitsStep(n2, n1, 2);
    DigitsStep(n3, n2, 3);
    DigitsStep(n4, n3, 4);
    DigitsStep(n5, n4, 5);
    DigitsStep(n6, n5, 6);
    DigitsStep(n7, n6, 7);
    DigitsStep(n8, n7, 8);
    DigitsStep(n9, n8, 9);
    DigitsStep(n, n9, 0);
  }

  /** The headers of the rate-limit unit test. */
  lemma ExtractRateLimitExample(h: Header)
    requires h == map[LimitHeader := ["800"], RemainingHeader := ["799"], ResetHeader := ["1234567890"]]
    ensures ExtractRateLimit(h) == TwitchApiRateLimit(800, 799, 1234567890)
  {
    DecimalTexts();
    ResetText(1234567890);
    ExtractRateLimitDecimal(h, 800, 799, 1234567890);
  }

  lemma NotDecimalTexts()
    ensures !IsDecimal("invalid") && !IsDecimal("also_invalid") && !IsDecimal("not_a_number")
  {
    assert !IsDigit("invalid"[0]) && !IsDigit("also_invalid"[0]) && !IsDigit("not_a_number"[0]);
  }

  /** The headers of the invalid-header unit test. */
  lemma ExtractRateLimitInvalidExample(h: Header)
    requires h == map[LimitHeader := ["invalid"], RemainingHeader := ["also_invalid"], ResetHeader := ["not_a_number"]]
    ensures ExtractRateLimit(h) == TwitchApiRateLimit(0, 0, 0)
  {
    NotDecimalTexts();
    ExtractRateLimitUnparsable(h);
  }

  /** A header that is absent reads as "" and therefore as 0. */
  lemma ExtractRateLimitMissing(h: Header)
    requires LimitHeader !in h && RemainingHeader !in h && ResetHeader !in h
    ensures ExtractRateLimit(h) == TwitchApiRateLimit(0, 0, 0)
  {
    ExtractRateLimitUnparsable(h);
  }

  // ---------------------------------------------------------------------------
  // The event registry.
  // ---------------------------------------------------------------------------

  /**
   * emit appends one call per handler of the event, in registration order, each with
   * the same payload, and changes nothing else.
   */
  lemma EmitCallsInOrder(s: Session, event: string, data: Payload)
    ensures var t := Emit(s, event, data); var hs := HandlersOf(s.handlers, event);
      |t.calls| == |s.calls| + |hs| && t.calls[..|s.calls|] == s.calls
      && (forall i :: 0 <= i < |hs| ==> t.calls[|s.calls| + i] == Invocation(hs[i], event, data))
      && t.(calls := s.calls) == s
  {
  }

  /** emit of an event nobody registered for changes nothing. */
  lemma EmitUnknownEvent(s: Session, event: string, data: Payload)
    requires event !in s.handlers
    ensures Emit(s, event, data) == s
  {
    assert CallsOf([], event, data) == [];
    assert s.calls + [] == s.calls;
  }

  /** AddEventHandler appends to the event's list and leaves every other list alone. */
  lemma AddAppends(handlers: Handlers, event: string, h: nat)
    ensures HandlersOf(AddHandler(handlers, event, h), event) == HandlersOf(handlers, event) + [h]
    ensures forall other :: other != event ==>
      HandlersOf(AddHandler(handlers, event, h), other) == HandlersOf(handlers, other)
  {
  }

  /** Adding the same handler twice registers it twice. */
  lemma AddNoDedup(handlers: Handlers, event: string, h: nat)
    ensures HandlersOf(AddHandler(AddHandler(handlers, event, h), event, h), event)
      == HandlersOf(handlers, event) + [h, h]
  {
    AddAppends(handlers, event, h);
    AddAppends(AddHandler(handlers, event, h), event, h);
  }

  /** RemoveEventHandler drops the event's list and only that one. */
  lemma RemoveOnlyThatEvent(handlers: Handlers, event: string)
    ensures event !in RemoveHandlers(handlers, event)
    ensures HandlersOf(RemoveHandlers(handlers, event), event) == []
    ensures forall other :: other != event ==>
      (other in RemoveHandlers(handlers, event) <==> other in handlers)
      && HandlersOf(RemoveHandlers(handlers, event), other) == HandlersOf(handlers, other)
  {
  }

  /** The add-handler unit test: two handlers of one event are both called, in order. */
  lemma TwoHandlersExample(s: Session, h1: nat, h2: nat)
    requires s.handlers == AddHandler(AddHandler(map[], "test_event", h1), "test_event", h2)
    ensures Emit(s, "test_event", Text("test_data")).calls
      == s.calls + [Invocation(h1, "test_event", Text("test_data")), Invocation(h2, "test_event", Text("test_data"))]
  {
    assert HandlersOf(s.handlers, "test_event") == [h1, h2];
    assert CallsOf([h1, h2], "test_event", Text("test_data"))
      == [Invocation(h1, "test_event", Text("test_data")), Invocation(h2, "test_event", Text("test_data"))];
  }

  /** The remove-handler unit test: the removed event is silent, the other still fires. */
  lemma RemoveHandlerExample(s: Session, h1: nat, h2: nat)
    requires s.handlers == RemoveHandlers(AddHandler(AddHandler(map[], "test_event", h1), "other_event", h2), "test_event")
    ensures s.handlers.Keys == {"other_event"}
    ensures Emit(s, "test_event", NoData) == s
    ensures Emit(s, "other_event", NoData).calls == s.calls + [Invocation(h2, "other_event", NoData)]
  {
    assert "test_event" !in s.handlers;
    EmitUnknownEvent(s, "test_event", NoData);
    assert HandlersOf(s.handlers, "other_event") == [h2];
    assert CallsOf([h2], "other_event", NoData) == [Invocation(h2, "other_event", NoData)];
  }

  // ---------------------------------------------------------------------------
  // What a call may change.
  // ---------------------------------------------------------------------------

  /**
   * `t` is a later state than `s` of the same client: the registry is the same, handler
   * calls, requests and sleeps were only appended, the replies left are a suffix of
   * those before, the counter and the clock did not go back, and a token once present
   * is still present.
   */
  predicate Extends(s: Session, t: Session)
  {
    t.handlers == s.handlers
    && s.calls <= t.calls && s.sent <= t.sent && s.sleeps <= t.sleeps
    && |t.script| <= |s.script| && t.script == s.script[|s.script| - |t.script|..]
    && s.refreshAttempts <= t.refreshAttempts && s.nanos <= t.nanos
    && (s.accessToken.Some? ==> t.accessToken.Some?)
    && (s.refreshToken.Some? ==> t.refreshToken.Some?)
  }

  lemma ExtendsTransitive(s: Session, t: Session, u: Session)
    requires Extends(s, t) && Extends(t, u)
    ensures Extends(s, u)
  {
    var n, m, k := |s.script|, |t.script|, |u.script|;
    assert u.script == s.script[n - m..][m - k..];
    assert s.script[n - m..][m - k..] == s.script[n - k..];
  }

  lemma EmitExtends(s: Session, event: string, data: Payload)
    ensures Extends(s, Emit(s, event, data))
  {
    assert s.script[0..] == s.script;
  }

  lemma ExchangeExtends(s: Session, req: Request)
    ensures Extends(s, Exchange(s, req).session)
  {
    assert s.script[0..] == s.script;
  }

  lemma ValidateExtends(s: Session)
    ensures Extends(s, Validate(s).session)
  {
    ExchangeExtends(s, ValidateRequest(if s.accessToken.Some? then s.accessToken.value else ""));
    assert s.script[0..] == s.script;
  }

  lemma RefreshedExtends(s: Session, e: AuthEvent)
    ensures Extends(s, Refreshed(s, e))
  {
    EmitExtends(StoreTokens(s, e), "refresh", Auth(e));
  }

  lemma RefreshExtends(c: Settings, s: Session)
    ensures Extends(s, Refresh(c, s).session)
  {
    ValidateExtends(s);
    var v := Validate(s);
    if v.result.Success? && !v.result.value && v.session.refreshToken.Some? {
      var x := Exchange(v.session, RefreshRequest(c, v.session.refreshToken.value));
      ExchangeExtends(v.session, RefreshRequest(c, v.session.refreshToken.value));
      ExtendsTransitive(s, v.session, x.session);
      if x.result.Success? {
        var e := DecodeBodyAuth(x.result.value.body);
        if e.Some? {
          RefreshedExtends(x.session, e.value);
          ExtendsTransitive(s, x.session, Refreshed(x.session, e.value));
        }
      }
    }
  }

  lemma AppTokenExtends(c: Settings, s: Session)
    ensures Extends(s, AppToken(c, s).session)
  {
    ExchangeExtends(s, AppTokenRequest(c));
  }

  /** The state a 429 reply leads to before the retry. */
  lemma LimitedExtends(c: Settings, s: Session, h: Header)
    ensures var l := Limited(s, h); var d := Wait(ExtractRateLimit(h), l);
      Extends(s, if d > 0 then ClientSpec.Sleep(l, d) else l)
  {
    var l := Limited(s, h);
    EmitExtends(s, "ratelimit", RateLimit(ExtractRateLimit(h)));
    assert l.script[0..] == l.script;
  }

  /** Every call of `get` or `update` leads to a later state of the same client. */
  lemma {:induction false} PerformExtends(c: Settings, s: Session, call: ApiCall)
    ensures Extends(s, Perform(c, s, call).session)
    decreases |s.script|, 5
  {
    assert s.script[0..] == s.script;
    if call.GetCall? && s.accessToken.None? {
      FetchThenIssueExtends(c, s, call);
    } else if s.accessToken.Some? && (call.GetCall? || HasPrefix(call.endpoint, "/")) {
      IssueExtends(c, s, call);
    }
  }

  /** A `get` without a token extends the state through the token grant and the attempt. */
  lemma {:induction false} FetchThenIssueExtends(c: Settings, s: Session, call: ApiCall)
    requires call.GetCall? && s.accessToken.None?
    ensures Extends(s, Perform(c, s, call).session)
    decreases |s.script|, 4
  {
    var t := AppToken(c, s);
    AppTokenExtends(c, s);
    if t.result.Success? {
      var s1 := t.session.(accessToken := Some(t.result.value));
      IssueExtends(c, s1, call);
      ExtendsTransitive(s, s1, Issue(c, s1, call).session);
    } else {
      assert t.session.script[0..] == t.session.script;
    }
  }

  /** A retry from a state `next` later than `from` that has fewer replies left than `s`. */
  lemma {:induction false} RetryExtends(c: Settings, s: Session, from: Session, next: Session, call: ApiCall)
    requires Extends(from, next) && |next.script| < |s.script|
    ensures Extends(from, Perform(c, next, call).session)
    decreases |s.script|, 0
  {
    PerformExtends(c, next, call);
    ExtendsTransitive(from, next, Perform(c, next, call).session);
  }

  /** The reply to the first request of `Issue(c, s, call)`, when there is one. */
  predicate Answered(s: Session, status: int)
  {
    s.script != [] && s.script[0].Success? && s.script[0].value.status == status
  }

  /** The state after the first reply of `Issue(c, s, call)` was reported. */
  function Polled(c: Settings, s: Session, call: ApiCall): Session
    requires s.accessToken.Some? && s.script != [] && s.script[0].Success?
  {
    HandleRateLimit(Exchange(s, ApiRequest(c, s.accessToken.value, call)).session, s.script[0].value.header)
  }

  /**
   * An attempt extends the state after its request was sent and, when the request was
   * answered, the state after the rate limit was reported.
   */
  lemma {:induction false} IssueExtends(c: Settings, s: Session, call: ApiCall)
    requires s.accessToken.Some?
    ensures Extends(s, Issue(c, s, call).session)
    ensures Extends(Exchange(s, ApiRequest(c, s.accessToken.value, call)).session, Issue(c, s, call).session)
    ensures s.script != [] && s.script[0].Success? ==> Extends(Polled(c, s, call), Issue(c, s, call).session)
    decreases |s.script|, 3
  {
    var x := Exchange(s, ApiRequest(c, s.accessToken.value, call));
    var t := Issue(c, s, call).session;
    ExchangeExtends(s, ApiRequest(c, s.accessToken.value, call));
    if x.result.Success? {
      var polled := Polled(c, s, call);
      EmitExtends(x.session, "ratelimitpoll", RateLimit(ExtractRateLimit(x.result.value.header)));
      AnsweredExtends(c, s, call);
      ExtendsTransitive(x.session, polled, t);
    } else {
      assert x.session.script[0..] == x.session.script;
    }
    ExtendsTransitive(s, x.session, t);
  }

  /** An answered attempt extends the state after the rate limit was reported. */
  lemma {:induction false} AnsweredExtends(c: Settings, s: Session, call: ApiCall)
    requires s.accessToken.Some? && s.script != [] && s.script[0].Success?
    ensures Extends(Polled(c, s, call), Issue(c, s, call).session)
    decreases |s.script|, 2
  {
    var polled := Polled(c, s, call);
    var status := s.script[0].value.status;
    if status == 401 {
      UnauthorizedExtends(c, s, call, polled);
    } else if status == 429 {
      LimitedRetryExtends(c, s, call, polled, s.script[0].value.header);
    } else {
      assert polled.script[0..] == polled.script;
    }
  }

  lemma {:induction false} UnauthorizedExtends(c: Settings, s: Session, call: ApiCall, polled: Session)
    requires s.accessToken.Some? && Answered(s, 401) && polled == Polled(c, s, call)
    ensures Extends(polled, Issue(c, s, call).session)
    decreases |s.script|, 1
  {
    var y := Refresh(c, polled);
    RefreshExtends(c, polled);
    if y.result.None? {
      RetryExtends(c, s, polled, y.session, call);
    }
  }

  lemma {:induction false} LimitedRetryExtends(c: Settings, s: Session, call: ApiCall, polled: Session, h: Header)
    requires s.accessToken.Some? && Answered(s, 429) && polled == Polled(c, s, call)
    requires h == s.script[0].value.header
    ensures Extends(polled, Issue(c, s, call).session)
    decreases |s.script|, 1
  {
    var limited := Limited(polled, h);
    if c.throwRateLimitErrors {
      EmitExtends(polled, "ratelimit", RateLimit(ExtractRateLimit(h)));
    } else {
      var d := Wait(ExtractRateLimit(h), limited);
      var next := if d > 0 then ClientSpec.Sleep(limited, d) else limited;
      LimitedExtends(c, polled, h);
      RetryExtends(c, s, polled, next, call);
    }
  }

  // ---------------------------------------------------------------------------
  // get and update.
  // ---------------------------------------------------------------------------

  /** A call that goes to the network at once: a token is present, and an update's endpoint is absolute. */
  predicate Admitted(s: Session, call: ApiCall)
  {
    s.accessToken.Some? && (call.UpdateCall? ==> HasPrefix(call.endpoint, "/"))
  }

  lemma AdmittedIssues(c: Settings, s: Session, call: ApiCall)
    requires Admitted(s, call)
    ensures Perform(c, s, call) == Issue(c, s, call)
  {
  }

  /**
   * The request of an attempt: `get` uses the ingest base URL for "ingest" and the Helix
   * one for anything else, `update` always the Helix one with the upper-cased method and
   * a JSON content type exactly when it has data; both send the client id and the token.
   */
  lemma RequestShape(c: Settings, token: string, call: ApiCall)
    ensures var r := ApiRequest(c, token, call);
      r.header["Authorization"] == "Bearer " + token && r.header["Client-ID"] == c.clientID
      && (call.GetCall? ==>
            r.verb == "GET" && r.body == None && "Content-Type" !in r.header
            && r.url == (if call.apiType == "ingest" then c.ingestBaseURL else c.baseURL) + call.endpoint)
      && (call.UpdateCall? ==>
            r.verb == ToUpper(call.verb) && r.body == call.data && r.url == c.baseURL + call.endpoint
            && ("Content-Type" in r.header <==> call.data.Some?))
  {
  }

  /** With a token, the first request of a call is its own, made with that token. */
  lemma FirstRequestIsTheCall(c: Settings, s: Session, call: ApiCall)
    requires Admitted(s, call)
    ensures var t := Perform(c, s, call).session;
      |t.sent| > |s.sent| && t.sent[|s.sent|] == ApiRequest(c, s.accessToken.value, call)
  {
    AdmittedIssues(c, s, call);
    IssueSendsFirst(c, s, call);
  }

  lemma IssueSendsFirst(c: Settings, s: Session, call: ApiCall)
    requires s.accessToken.Some?
    ensures var t := Issue(c, s, call).session;
      |t.sent| > |s.sent| && t.sent[|s.sent|] == ApiRequest(c, s.accessToken.value, call)
  {
    var req := ApiRequest(c, s.accessToken.value, call);
    var x := Exchange(s, req).session;
    IssueExtends(c, s, call);
    assert x.sent == s.sent + [req];
    assert x.sent[|s.sent|] == req;
  }

  /** Without a token, `get` fails with its error when the token grant fails, sending nothing else. */
  lemma GetTokenFetchFails(c: Settings, s: Session, endpoint: string, apiType: string)
    requires s.accessToken.None? && AppToken(c, s).result.Failure?
    ensures Perform(c, s, GetCall(endpoint, apiType))
      == Outcome(AppToken(c, s).session, Failure(AppToken(c, s).result.error))
    ensures Perform(c, s, GetCall(endpoint, apiType)).session.sent == s.sent + [AppTokenRequest(c)]
  {
  }

  /** Without a token, `get` first asks for one and then makes its call with it. */
  lemma GetFetchesToken(c: Settings, s: Session, endpoint: string, apiType: string)
    requires s.accessToken.None? && AppToken(c, s).result.Success?
    ensures var a := AppToken(c, s); var s1 := a.session.(accessToken := Some(a.result.value));
      var t := Perform(c, s, GetCall(endpoint, apiType)).session;
      Perform(c, s, GetCall(endpoint, apiType)) == Issue(c, s1, GetCall(endpoint, apiType))
      && |t.sent| > |s.sent| + 1 && t.sent[|s.sent|] == AppTokenRequest(c)
      && t.sent[|s.sent| + 1] == ApiRequest(c, a.result.value, GetCall(endpoint, apiType))
  {
    var a := AppToken(c, s);
    var s1 := a.session.(accessToken := Some(a.result.value));
    IssueExtends(c, s1, GetCall(endpoint, apiType));
  }

  /** Every reply is reported to the `ratelimitpoll` handlers before anything else happens. */
  lemma PollPrecedesStatus(c: Settings, s: Session, call: ApiCall)
    requires Admitted(s, call) && s.script != [] && s.script[0].Success?
    ensures var polled := Polled(c, s, call);
      polled.calls == s.calls + CallsOf(HandlersOf(s.handlers, "ratelimitpoll"), "ratelimitpoll",
                                        RateLimit(ExtractRateLimit(s.script[0].value.header)))
      && polled.calls <= Perform(c, s, call).session.calls
  {
    IssueExtends(c, s, call);
  }

  /** On 401 a failed refresh ends the call with the refresh's error. */
  lemma UnauthorizedRefreshFails(c: Settings, s: Session, call: ApiCall)
    requires Admitted(s, call) && Answered(s, 401)
    requires Refresh(c, Polled(c, s, call)).result.Some?
    ensures var y := Refresh(c, Polled(c, s, call));
      Perform(c, s, call) == Outcome(y.session, Failure(y.result.value))
  {
  }

  /** On 401 a successful refresh issues the whole call again. */
  lemma UnauthorizedRetries(c: Settings, s: Session, call: ApiCall)
    requires Admitted(s, call) && Answered(s, 401)
    requires Refresh(c, Polled(c, s, call)).result.None?
    ensures Perform(c, s, call) == Perform(c, Refresh(c, Polled(c, s, call)).session, call)
  {
  }

  /**
   * On 429, with rate-limit errors switched on, the call fails with an error carrying
   * the snapshot of that reply's headers, after the `ratelimit` handlers saw the same
   * snapshot.
   */
  lemma RateLimitedThrows(c: Settings, s: Session, call: ApiCall)
    requires Admitted(s, call) && Answered(s, 429) && c.throwRateLimitErrors
    ensures var h := s.script[0].value.header;
      Perform(c, s, call) == Outcome(Limited(Polled(c, s, call), h),
                                     Failure(RateLimited(TwitchApiRateLimitError(ExtractRateLimit(h)))))
  {
  }

  /**
   * On 429, with rate-limit errors switched off, the client sleeps until the reset time
   * when that lies ahead, and then issues the whole call again.
   */
  lemma RateLimitedWaits(c: Settings, s: Session, call: ApiCall)
    requires Admitted(s, call) && Answered(s, 429) && !c.throwRateLimitErrors
    requires 0 <= ExtractRateLimit(s.script[0].value.header).reset <= Horizon
    requires 0 <= s.nanos <= Horizon * Second
    ensures var h := s.script[0].value.header; var limited := Limited(Polled(c, s, call), h);
      var wait := ExtractRateLimit(h).reset - UnixSeconds(s.nanos);
      Perform(c, s, call) == Perform(c, if wait > 0 then ClientSpec.Sleep(limited, wait * Second) else limited, call)
  {
    var h := s.script[0].value.header;
    var now := UnixSeconds(s.nanos);
    assert 0 <= now <= Horizon;
    PolledKeeps(c, s, call);
    assert Limited(Polled(c, s, call), h).nanos == s.nanos;
    SleepTimeExact(ExtractRateLimit(h).reset, now);
  }

  /** Any other status ends the call with the body, after the rate limit was reported. */
  lemma OtherStatusReturnsBody(c: Settings, s: Session, call: ApiCall)
    requires Admitted(s, call) && s.script != [] && s.script[0].Success?
    requires s.script[0].value.status != 401 && s.script[0].value.status != 429
    ensures Perform(c, s, call) == Outcome(Polled(c, s, call), Success(s.script[0].value.body.text))
  {
  }

  /** A failed round trip ends the call with the transport's error. */
  lemma TransportFailureEnds(c: Settings, s: Session, call: ApiCall)
    requires Admitted(s, call) && (s.script == [] || s.script[0].Failure?)
    ensures Perform(c, s, call).result.Failure? && Perform(c, s, call).result.error.TransportError?
    ensures Perform(c, s, call).session.sent == s.sent + [ApiRequest(c, s.accessToken.value, call)]
  {
  }

  /** `update` refuses a relative endpoint before it changes or sends anything. */
  lemma UpdateRejectsRelativeEndpoint(c: Settings, s: Session, endpoint: string, data: Option<Json>, verb: string)
    requires !HasPrefix(endpoint, "/")
    ensures Perform(c, s, UpdateCall(endpoint, data, verb)) == Outcome(s, Failure(ClientError(EndpointSlash)))
  {
  }

  /** `update` without a token dereferences nil before sending anything. */
  lemma UpdateWithoutTokenPanics(c: Settings, s: Session, endpoint: string, data: Option<Json>, verb: string)
    requires HasPrefix(endpoint, "/") && s.accessToken.None?
    ensures Perform(c, s, UpdateCall(endpoint, data, verb)) == Outcome(s, Failure(NilTokenPanic))
  {
  }

  /**
   * A 401 whose refresh yields no new access token still counts as a successful refresh:
   * the call is issued again with the same token and only the counter records the
   * attempt, so nothing bounds the number of rounds but the replies.
   */
  lemma UnauthorizedWithoutNewToken(c: Settings, s: Session, call: ApiCall, e: AuthEvent)
    requires Admitted(s, call) && Answered(s, 401) && s.refreshToken.Some?
    requires |s.script| >= 3 && s.script[1].Success? && s.script[2].Success?
    requires ValidateVerdict(s.script[1].value) == Success(false)
    requires DecodeBodyAuth(s.script[2].value.body) == Some(e) && e.accessToken == ""
    ensures var t := Refresh(c, Polled(c, s, call)).session;
      Perform(c, s, call) == Perform(c, t, call)
      && t.accessToken == s.accessToken && t.refreshAttempts == s.refreshAttempts + 1
      && t.script == s.script[3..]
  {
    var polled := Polled(c, s, call);
    PolledKeeps(c, s, call);
    assert polled.script[0] == s.script[1];
    assert Validate(polled).result == Success(false);
    assert Validate(polled).session.script == s.script[2..];
    RefreshDecoded(c, polled, e);
    UnauthorizedRetries(c, s, call);
  }

  // ---------------------------------------------------------------------------
  // The refresh the design intends.
  // ---------------------------------------------------------------------------

  /**
   * refresh as the design intends it: a token reply without an access token is a failed
   * exchange, reported with the error getAppAccessToken gives for such a reply. The
   * tokens, the `refresh` handlers and the counter are treated as in `Refresh`.
   */
  function IntendedRefresh(c: Settings, s: Session): Outcome<Option<Failure>>
  {
    var v := Validate(s);
    if v.result.Failure? || v.result.value || v.session.refreshToken.None? then Refresh(c, s)
    else
      var x := Exchange(v.session, RefreshRequest(c, v.session.refreshToken.value));
      var e := if x.result.Success? then DecodeBodyAuth(x.result.value.body) else None;
      if e.Some? && e.value.accessToken == "" then
        Outcome(Refreshed(x.session, e.value), Some(ClientError(NoAccessToken)))
      else Refresh(c, s)
  }

  /**
   * The intended refresh changes the state as `Refresh` does and differs only in its
   * verdict: it fails wherever `Refresh` fails, and where it succeeds it agrees.
   */
  lemma IntendedRefreshAgrees(c: Settings, s: Session)
    ensures IntendedRefresh(c, s).session == Refresh(c, s).session
    ensures Refresh(c, s).result.Some? ==> IntendedRefresh(c, s) == Refresh(c, s)
    ensures IntendedRefresh(c, s).result.None? ==> IntendedRefresh(c, s) == Refresh(c, s)
  {
  }

  /**
   * A successful intended refresh leaves a usable token: either validation accepted the
   * stored one, or the token reply carried a new, non-empty one that is now stored.
   */
  lemma IntendedRefreshLeavesToken(c: Settings, s: Session)
    requires IntendedRefresh(c, s).result.None?
    ensures IntendedRefresh(c, s).session.accessToken.Some?
    ensures Validate(s).result == Success(true) ==> IntendedRefresh(c, s).session.accessToken == s.accessToken
    ensures Validate(s).result != Success(true) ==> IntendedRefresh(c, s).session.accessToken.value != ""
  {
    var v := Validate(s);
    if v.result.Success? && v.result.value {
      assert s.accessToken.Some?;
    }
  }

  /** The 401 step of an attempt, with the intended refresh in place of `refresh`. */
  function IntendedUnauthorized(c: Settings, s: Session, call: ApiCall): Outcome<Result<string, Failure>>
    requires s.accessToken.Some? && s.script != [] && s.script[0].Success?
    decreases |s.script|
  {
    var y := IntendedRefresh(c, Polled(c, s, call));
    if y.result.Some? then Outcome(y.session, Failure(y.result.value))
    else Perform(c, y.session, call)
  }

  /** Where the two refreshes agree, the intended 401 step is what the client does. */
  lemma IntendedUnauthorizedAgrees(c: Settings, s: Session, call: ApiCall)
    requires Admitted(s, call) && Answered(s, 401)
    requires IntendedRefresh(c, Polled(c, s, call)) == Refresh(c, Polled(c, s, call))
    ensures IntendedUnauthorized(c, s, call) == Perform(c, s, call)
  {
  }

  /**
   * With the intended refresh, the 401 of UnauthorizedWithoutNewToken ends the call with
   * an error after the call, the validation and the refresh were sent, and no fourth
   * request is made.
   */
  lemma IntendedUnauthorizedEnds(c: Settings, s: Session, call: ApiCall, e: AuthEvent)
    requires Admitted(s, call) && Answered(s, 401) && s.refreshToken.Some?
    requires |s.script| >= 3 && s.script[1].Success? && s.script[2].Success?
    requires ValidateVerdict(s.script[1].value) == Success(false)
    requires DecodeBodyAuth(s.script[2].value.body) == Some(e) && e.accessToken == ""
    ensures var r := IntendedUnauthorized(c, s, call);
      r.result == Failure(ClientError(NoAccessToken))
      && r.session.script == s.script[3..] && |r.session.sent| == |s.sent| + 3
      && r.session.accessToken == s.accessToken
  {
    var polled := Polled(c, s, call);
    PolledKeeps(c, s, call);
    assert polled.script[0] == s.script[1];
    assert Validate(polled).result == Success(false);
    assert Validate(polled).session.script == s.script[2..];
    assert |Validate(polled).session.sent| == |s.sent| + 2;
    RefreshDecoded(c, polled, e);
  }

  /** Reporting the first reply keeps the tokens and consumes that reply. */
  lemma PolledKeeps(c: Settings, s: Session, call: ApiCall)
    requires s.accessToken.Some? && s.script != [] && s.script[0].Success?
    ensures var p := Polled(c, s, call);
      p.accessToken == s.accessToken && p.refreshToken == s.refreshToken
      && p.refreshAttempts == s.refreshAttempts && p.nanos == s.nanos && p.handlers == s.handlers
      && p.script == s.script[1..]
  {
  }

  // ---------------------------------------------------------------------------
  // validate.
  // ---------------------------------------------------------------------------

  /** With no access token, validate reports not-valid and sends nothing. */
  lemma ValidateWithoutToken(s: Session)
    requires s.accessToken.None?
    ensures Validate(s) == Outcome(s, Success(false))
  {
  }

  /**
   * Given a reply, validate sends one request with the OAuth header and consumes the
   * reply; the token is valid exactly when the reply decodes, does not say the
   * authorization token is missing, and has status 200. The missing-token message is
   * an error.
   */
  lemma ValidateVerdicts(s: Session)
    requires s.accessToken.Some? && s.script != [] && s.script[0].Success?
    ensures var v := Validate(s); var resp := s.script[0].value; var m := DecodeBodyMap(resp.body);
      v.session == s.(script := s.script[1..], sent := s.sent + [ValidateRequest(s.accessToken.value)])
      && (v.result == Success(true) <==>
          m.Some? && StringMember(m.value, "message") != Some(MissingAuthorization) && resp.status == 200)
      && (m.Some? && StringMember(m.value, "message") == Some(MissingAuthorization) ==>
          v.result == Failure(ClientError(MissingAuthorization)))
      && (m.None? ==> v.result == Failure(DecodeError))
  {
  }

  // ---------------------------------------------------------------------------
  // refresh.
  // ---------------------------------------------------------------------------

  /** A valid token is not refreshed: tokens, counter and handler calls stay as they were. */
  lemma RefreshWhenValid(c: Settings, s: Session)
    requires Validate(s).result == Success(true)
    ensures var r := Refresh(c, s);
      r.result == None && r.session == Validate(s).session
      && r.session.accessToken == s.accessToken && r.session.refreshToken == s.refreshToken
      && r.session.refreshAttempts == s.refreshAttempts && r.session.calls == s.calls
  {
  }

  /** Without a refresh token an invalid token cannot be refreshed, and nothing more is sent. */
  lemma RefreshWithoutRefreshToken(c: Settings, s: Session)
    requires Validate(s).result == Success(false) && s.refreshToken.None?
    ensures Refresh(c, s) == Outcome(Validate(s).session, Some(ClientError(RefreshTokenNotSet)))
  {
  }

  /**
   * A decoded token reply: each token is replaced only when the reply's is not empty,
   * the `refresh` handlers are called once each with the reply, and the counter goes
   * up exactly when the reply has no access token.
   */
  lemma RefreshDecoded(c: Settings, s: Session, e: AuthEvent)
    requires Validate(s).result == Success(false) && s.refreshToken.Some?
    requires var v := Validate(s).session;
      v.script != [] && v.script[0].Success? && DecodeBodyAuth(v.script[0].value.body) == Some(e)
    ensures var r := Refresh(c, s); var v := Validate(s).session;
      r.result == None
      && r.session.accessToken == (if e.accessToken != "" then Some(e.accessToken) else s.accessToken)
      && r.session.refreshToken == (if e.refreshToken != "" then Some(e.refreshToken) else s.refreshToken)
      && r.session.refreshAttempts == s.refreshAttempts + (if e.accessToken == "" then 1 else 0)
      && r.session.calls == s.calls + CallsOf(HandlersOf(s.handlers, "refresh"), "refresh", Auth(e))
      && r.session.sent == v.sent + [RefreshRequest(c, s.refreshToken.value)]
      && r.session.script == v.script[1..]
  {
    var v := Validate(s);
    assert v.session.refreshToken == s.refreshToken && v.session.refreshAttempts == s.refreshAttempts;
    assert v.session.calls == s.calls && v.session.handlers == s.handlers;
    assert v.session.accessToken == s.accessToken;
  }

  // ---------------------------------------------------------------------------
  // getAppAccessToken and GetUserAccess.
  // ---------------------------------------------------------------------------

  /** The grant asks for scopes only when the client has some, space-separated. */
  lemma AppTokenScope(c: Settings)
    ensures var f := AppTokenFields(c);
      f["client_id"] == c.clientID && f["client_secret"] == c.clientSecret
      && f["grant_type"] == "client_credentials"
      && ("scope" in f <==> |c.scopes| > 0)
      && ("scope" in f ==> f["scope"] == Join(Scopes.Strings(c.scopes), " "))
  {
  }

  /**
   * Given a reply, the grant sends one request and consumes the reply, leaving the
   * tokens alone. It yields a token exactly when the reply is a JSON object whose
   * `access_token` is a string; a reply that is not JSON is reported with its text.
   */
  lemma AppTokenVerdicts(c: Settings, s: Session)
    requires s.script != [] && s.script[0].Success?
    ensures var r := AppToken(c, s); var resp := s.script[0].value; var m := DecodeBodyMap(resp.body);
      r.session == s.(script := s.script[1..], sent := s.sent + [AppTokenRequest(c)])
      && (r.result.Success? <==> m.Some? && StringMember(m.value, "access_token").Some?)
      && (r.result.Success? ==> r.result.value == m.value["access_token"].s)
      && (m.None? ==> r.result == Failure(ClientError(NotJsonPrefix + resp.body.text)))
      && (m.Some? && r.result.Failure? ==> r.result == Failure(ClientError(NoAccessToken)))
  {
  }

  /** A decoded reply to the code grant: tokens replaced when not empty, `user_auth` emitted. */
  lemma UserAccessDecoded(c: Settings, s: Session, code: string, e: AuthEvent)
    requires s.script != [] && s.script[0].Success? && DecodeBodyAuth(s.script[0].value.body) == Some(e)
    ensures var r := UserAccess(c, s, code);
      r.result == None
      && r.session.accessToken == (if e.accessToken != "" then Some(e.accessToken) else s.accessToken)
      && r.session.refreshToken == (if e.refreshToken != "" then Some(e.refreshToken) else s.refreshToken)
      && r.session.refreshAttempts == s.refreshAttempts
      && r.session.calls == s.calls + CallsOf(HandlersOf(s.handlers, "user_auth"), "user_auth", Auth(e))
      && r.session.sent == s.sent + [UserAccessRequest(c, code)]
  {
  }

  // ---------------------------------------------------------------------------
  // The query strings of the authorization URL and of the code grant.
  // ---------------------------------------------------------------------------

  lemma ClientKeysOrder()
    ensures UrlValues.Less("client_id", "client_secret") && UrlValues.Less("client_secret", "code")
  {
  }

  lemma GrantKeysOrder()
    ensures UrlValues.Less("code", "grant_type") && UrlValues.Less("grant_type", "redirect_uri")
  {
  }

  lemma AuthKeysOrder()
    ensures UrlValues.Less("client_id", "redirect_uri") && UrlValues.Less("redirect_uri", "response_type")
    ensures UrlValues.Less("response_type", "scope")
  {
  }

  /** A key made of unreserved characters needs no escaping. */
  lemma UnreservedKey(k: string)
    requires UrlValues.AllUnreserved(k)
    ensures UrlValues.QueryEscape(k) == k
  {
    UrlValues.QueryEscapeUnreserved(k);
  }

  lemma ClientKeysUnreserved()
    ensures UrlValues.AllUnreserved("client_id") && UrlValues.AllUnreserved("client_secret")
  {
  }

  lemma GrantKeysUnreserved()
    ensures UrlValues.AllUnreserved("code") && UrlValues.AllUnreserved("grant_type")
    ensures UrlValues.AllUnreserved("authorization_code")
  {
  }

  lemma AuthKeysUnreserved()
    ensures UrlValues.AllUnreserved("redirect_uri") && UrlValues.AllUnreserved("response_type")
    ensures UrlValues.AllUnreserved("scope")
  {
  }

  // ---------------------------------------------------------------------------
  // The authorization URL and the user-access token URL.
  // ---------------------------------------------------------------------------

  /** Encoding parameters that hold one value each, given in ascending key order. */
  lemma EncodeInOrder(v: UrlValues.Values, keys: seq<string>, vals: seq<string>)
    requires |keys| == |vals| && v.Keys == set k | k in keys
    requires forall i :: 0 <= i < |keys| - 1 ==> UrlValues.Less(keys[i], keys[i + 1])
    requires forall i :: 0 <= i < |keys| ==> v[keys[i]] == [vals[i]]
    ensures UrlValues.Encode(v) == Join(UrlValues.SinglePairs(keys, vals), "&")
  {
    UrlValues.AscendingChain(keys);
    UrlValues.EncodeSingles(v, keys, vals);
  }

  function Opt<T>(b: bool, s: T): seq<T> { if b then [s] else [] }

  function Pair(k: string, x: string): string { UrlValues.QueryEscape(k) + "=" + UrlValues.QueryEscape(x) }

  lemma KeysAscend(a: string, b: string, c: string, d: string, hb: bool, hd: bool)
    requires UrlValues.Less(a, b) && UrlValues.Less(b, c) && UrlValues.Less(c, d)
    ensures var ks := [a] + Opt(hb, b) + [c] + Opt(hd, d);
      forall i :: 0 <= i < |ks| - 1 ==> UrlValues.Less(ks[i], ks[i + 1])
  {
    UrlValues.LessTransitive(a, b, c);
  }

  lemma FourJoin(a: string, b: string, c: string, d: string, hb: bool, hd: bool)
    ensures Join([a] + Opt(hb, b) + [c] + Opt(hd, d), "&")
      == a + (if hb then "&" + b else "") + "&" + c + (if hd then "&" + d else "")
  {
    var head := [a] + Opt(hb, b);
    var tail := [c] + Opt(hd, d);
    assert [a] + Opt(hb, b) + [c] + Opt(hd, d) == head + tail;
    JoinAppend(head, tail, "&");
    if hb { JoinTwo(a, b, "&"); }
    if hd { JoinTwo(c, d, "&"); }
  }

  lemma FourPairs(a: string, b: string, c: string, d: string, x: string, y: string, z: string, w: string, hb: bool, hd: bool)
    ensures UrlValues.SinglePairs([a] + Opt(hb, b) + [c] + Opt(hd, d), [x] + Opt(hb, y) + [z] + Opt(hd, w))
      == [Pair(a, x)] + Opt(hb, Pair(b, y)) + [Pair(c, z)] + Opt(hd, Pair(d, w))
  {
  }

  /** Values added under distinct keys, one each. */
  lemma FourAdds(v: UrlValues.Values, a: string, b: string, c: string, d: string, x: string, y: string, z: string, w: string, hb: bool, hd: bool)
    requires a != b && a != c && a != d && b != c && b != d && c != d
    requires var p := UrlValues.Add(UrlValues.Add(map[], a, x), c, z);
      var q := if hb then UrlValues.Add(p, b, y) else p;
      v == if hd then UrlValues.Add(q, d, w) else q
    ensures var ks := [a] + Opt(hb, b) + [c] + Opt(hd, d); var vs := [x] + Opt(hb, y) + [z] + Opt(hd, w);
      |ks| == |vs| && v.Keys == (set k | k in ks) && forall i :: 0 <= i < |ks| ==> v[ks[i]] == [vs[i]]
  {
    var m := map[a := [x], c := [z]];
    var m1 := if hb then m[b := [y]] else m;
    var m2 := if hd then m1[d := [w]] else m1;
    AddsAre(a, b, c, d, x, y, z, w, hb, hd);
    assert v == m2;
    SinglesOf(m2, a, b, c, d, x, y, z, w, hb, hd);
  }

  lemma AddsAre(a: string, b: string, c: string, d: string, x: string, y: string, z: string, w: string, hb: bool, hd: bool)
    requires a != b && a != c && a != d && b != c && b != d && c != d
    ensures var p := UrlValues.Add(UrlValues.Add(map[], a, x), c, z);
      var q := if hb then UrlValues.Add(p, b, y) else p;
      var m := map[a := [x], c := [z]];
      var m1 := if hb then m[b := [y]] else m;
      (if hd then UrlValues.Add(q, d, w) else q) == (if hd then m1[d := [w]] else m1)
  {
    assert [] + [x] == [x] && [] + [y] == [y] && [] + [z] == [z] && [] + [w] == [w];
  }

  lemma SinglesOf(m2: UrlValues.Values, a: string, b: string, c: string, d: string, x: string, y: string, z: string, w: string, hb: bool, hd: bool)
    requires a != b && a != c && a != d && b != c && b != d && c != d
    requires var m := map[a := [x], c := [z]]; var m1 := if hb then m[b := [y]] else m;
      m2 == if hd then m1[d := [w]] else m1
    ensures var ks := [a] + Opt(hb, b) + [c] + Opt(hd, d); var vs := [x] + Opt(hb, y) + [z] + Opt(hd, w);
      |ks| == |vs| && m2.Keys == (set k | k in ks) && forall i :: 0 <= i < |ks| ==> m2[ks[i]] == [vs[i]]
  {
  }

  lemma FourEncode(v: UrlValues.Values, a: string, b: string, c: string, d: string, x: string, y: string, z: string, w: string, hb: bool, hd: bool)
    requires UrlValues.Less(a, b) && UrlValues.Less(b, c) && UrlValues.Less(c, d)
    requires var p := UrlValues.Add(UrlValues.Add(map[], a, x), c, z);
      var q := if hb then UrlValues.Add(p, b, y) else p;
      v == if hd then UrlValues.Add(q, d, w) else q
    ensures UrlValues.Encode(v) == Pair(a, x) + (if hb then "&" + Pair(b, y) else "") + "&" + Pair(c, z) + (if hd then "&" + Pair(d, w) else "")
  {
    var ks := [a] + Opt(hb, b) + [c] + Opt(hd, d);
    var vs := [x] + Opt(hb, y) + [z] + Opt(hd, w);
    UrlValues.AscendingChain([a, b, c, d]);
    assert UrlValues.Less([a, b, c, d][0], [a, b, c, d][2]) && UrlValues.Less([a, b, c, d][0], [a, b, c, d][3]);
    assert UrlValues.Less([a, b, c, d][1], [a, b, c, d][3]);
    UrlValues.LessIrreflexive(a);
    UrlValues.LessIrreflexive(b);
    UrlValues.LessIrreflexive(c);
    FourAdds(v, a, b, c, d, x, y, z, w, hb, hd);
    KeysAscend(a, b, c, d, hb, hd);
    EncodeInOrder(v, ks, vs);
    FourPairs(a, b, c, d, x, y, z, w, hb, hd);
    FourJoin(Pair(a, x), Pair(b, y), Pair(c, z), Pair(d, w), hb, hd);
  }

  lemma FiveAddsAre(a: string, b: string, c: string, d: string, e: string, x: string, y: string, z: string, w: string, u: string, he: bool)
    requires a != b && a != c && a != d && a != e && b != c && b != d && b != e && c != d && c != e && d != e
    ensures var p := UrlValues.Add(UrlValues.Add(UrlValues.Add(UrlValues.Add(map[], a, x), b, y), c, z), d, w);
      var m := map[a := [x], b := [y], c := [z], d := [w]];
      (if he then UrlValues.Add(p, e, u) else p) == (if he then m[e := [u]] else m)
  {
    assert [] + [x] == [x] && [] + [y] == [y] && [] + [z] == [z] && [] + [w] == [w] && [] + [u] == [u];
  }

  lemma FiveSinglesOf(m1: UrlValues.Values, a: string, b: string, c: string, d: string, e: string, x: string, y: string, z: string, w: string, u: string, he: bool)
    requires a != b && a != c && a != d && a != e && b != c && b != d && b != e && c != d && c != e && d != e
    requires var m := map[a := [x], b := [y], c := [z], d := [w]]; m1 == if he then m[e := [u]] else m
    ensures var ks := [a, b, c, d] + Opt(he, e); var vs := [x, y, z, w] + Opt(he, u);
      |ks| == |vs| && m1.Keys == (set k | k in ks) && forall i :: 0 <= i < |ks| ==> m1[ks[i]] == [vs[i]]
  {
  }

  lemma FiveJoin(a: string, b: string, c: string, d: string, e: string, he: bool)
    ensures Join([a, b, c, d] + Opt(he, e), "&") == a + "&" + b + "&" + c + "&" + d + (if he then "&" + e else "")
  {
    JoinThree(a, b, c, "&");
    JoinSnoc([a, b, c], d, "&");
    assert [a, b, c] + [d] == [a, b, c, d];
    if he {
      JoinSnoc([a, b, c, d], e, "&");
    } else {
      assert [a, b, c, d] + Opt(he, e) == [a, b, c, d];
    }
  }

  lemma FiveKeys(a: string, b: string, c: string, d: string, e: string, he: bool)
    requires UrlValues.Less(a, b) && UrlValues.Less(b, c) && UrlValues.Less(c, d) && UrlValues.Less(d, e)
    ensures a != b && a != c && a != d && a != e && b != c && b != d && b != e && c != d && c != e && d != e
    ensures var ks := [a, b, c, d] + Opt(he, e); forall i :: 0 <= i < |ks| - 1 ==> UrlValues.Less(ks[i], ks[i + 1])
  {
    UrlValues.LessTransitive(a, b, c);
    UrlValues.LessTransitive(a, c, d);
    UrlValues.LessTransitive(a, d, e);
    UrlValues.LessTransitive(b, c, d);
    UrlValues.LessTransitive(b, d, e);
    UrlValues.LessTransitive(c, d, e);
    UrlValues.LessIrreflexive(a);
    UrlValues.LessIrreflexive(b);
    UrlValues.LessIrreflexive(c);
    UrlValues.LessIrreflexive(d);
  }

  lemma FivePairs(a: string, b: string, c: string, d: string, e: string, x: string, y: string, z: string, w: string, u: string, he: bool)
    ensures UrlValues.SinglePairs([a, b, c, d] + Opt(he, e), [x, y, z, w] + Opt(he, u))
      == [Pair(a, x), Pair(b, y), Pair(c, z), Pair(d, w)] + Opt(he, Pair(e, u))
  {
  }

  lemma FiveEncode(v: UrlValues.Values, a: string, b: string, c: string, d: string, e: string, x: string, y: string, z: string, w: string, u: string, he: bool)
    requires UrlValues.Less(a, b) && UrlValues.Less(b, c) && UrlValues.Less(c, d) && UrlValues.Less(d, e)
    requires var p := UrlValues.Add(UrlValues.Add(UrlValues.Add(UrlValues.Add(map[], a, x), b, y), c, z), d, w);
      v == if he then UrlValues.Add(p, e, u) else p
    ensures UrlValues.Encode(v) == Pair(a, x) + "&" + Pair(b, y) + "&" + Pair(c, z) + "&" + Pair(d, w) + (if he then "&" + Pair(e, u) else "")
  {
    var ks := [a, b, c, d] + Opt(he, e);
    var vs := [x, y, z, w] + Opt(he, u);
    FiveKeys(a, b, c, d, e, he);
    FiveAddsAre(a, b, c, d, e, x, y, z, w, u, he);
    FiveSinglesOf(v, a, b, c, d, e, x, y, z, w, u, he);
    EncodeInOrder(v, ks, vs);
    FivePairs(a, b, c, d, e, x, y, z, w, u, he);
    FiveJoin(Pair(a, x), Pair(b, y), Pair(c, z), Pair(d, w), Pair(e, u), he);
  }

  /** A key of unreserved characters is written as it is. */
  lemma KeyPair(k: string, x: string)
    requires UrlValues.AllUnreserved(k)
    ensures Pair(k, x) == k + "=" + UrlValues.QueryEscape(x)
  {
    UrlValues.QueryEscapeUnreserved(k);
  }

  /**
   * GenerateAuthURL: the authorize endpoint, then the client id, the redirect URI when
   * there is one, `response_type=code` and the space-separated scopes when there are
   * some, in that (ascending key) order, one `key=value` pair each.
   */
  lemma AuthUrlShape(c: Settings)
    ensures AuthUrl(c) == AuthorizeUrl + "?" + (Pair("client_id", c.clientID)
      + (if c.redirectURI.Some? then "&" + Pair("redirect_uri", c.redirectURI.value) else "")
      + "&" + Pair("response_type", "code")
      + (if |c.scopes| > 0 then "&" + Pair("scope", Join(Scopes.Strings(c.scopes), " ")) else ""))
  {
    AuthKeysOrder();
    FourEncode(AuthParams(c), "client_id", "redirect_uri", "response_type", "scope",
      c.clientID, if c.redirectURI.Some? then c.redirectURI.value else "", "code", Join(Scopes.Strings(c.scopes), " "),
      c.redirectURI.Some?, |c.scopes| > 0);
  }

  /**
   * GetUserAccess posts to the token endpoint with the client id, the secret, the code,
   * `grant_type=authorization_code` and the redirect URI when there is one in the query.
   */
  lemma UserAccessUrlShape(c: Settings, code: string)
    ensures UserAccessRequest(c, code).url == TokenUrl + "?" + (Pair("client_id", c.clientID)
      + "&" + Pair("client_secret", c.clientSecret) + "&" + Pair("code", code)
      + "&" + Pair("grant_type", "authorization_code")
      + (if c.redirectURI.Some? then "&" + Pair("redirect_uri", c.redirectURI.value) else ""))
  {
    ClientKeysOrder();
    GrantKeysOrder();
    FiveEncode(UserAccessParams(c, code), "client_id", "client_secret", "code", "grant_type", "redirect_uri",
      c.clientID, c.clientSecret, code, "authorization_code", if c.redirectURI.Some? then c.redirectURI.value else "",
      c.redirectURI.Some?);
  }
}
