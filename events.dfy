/** The record a token endpoint returns, and how the client decodes it. */
module Events {
  import opened Wrappers
  import opened Json
  import Strconv

  /** AuthEvent: the tokens, their type, lifetime in seconds and granted scopes. */
  datatype AuthEvent = AuthEvent(
    accessToken: string,
    refreshToken: string,
    tokenType: Option<string>,
    expiresIn: int,
    scope: Option<seq<string>>)

  /**
   * Decoding a reply into an AuthEvent: `null` leaves every field at its zero value, an
   * object sets the fields whose keys it has (other keys are ignored), and a member of
   * the wrong type, or a document that is neither, is a decoding error.
   */
  function DecodeAuthEvent(doc: Json): Option<AuthEvent>
  {
    match doc
    case Null => Some(AuthEvent("", "", None, 0, None))
    case Object(m) =>
      var access := if "access_token" in m then DecodeString(m["access_token"]) else Some("");
      var refresh := if "refresh_token" in m then DecodeString(m["refresh_token"]) else Some("");
      var tokenType := if "token_type" in m then DecodeStringPointer(m["token_type"]) else Some(None);
      var expires := if "expires_in" in m then DecodeInt(m["expires_in"]) else Some(0);
      var scope := if "scope" in m then DecodeStrings(m["scope"]) else Some(None);
      if access.Some? && refresh.Some? && tokenType.Some? && expires.Some? && scope.Some? then
        Some(AuthEvent(access.value, refresh.value, tokenType.value, expires.value, scope.value))
      else None
    case _ => None
  }

  /** How json.Marshal writes an AuthEvent: every field under its tag. */
  function EncodeAuthEvent(e: AuthEvent): Json
  {
    Object(map[
      "access_token" := Str(e.accessToken),
      "refresh_token" := Str(e.refreshToken),
      "token_type" := (if e.tokenType.Some? then Str(e.tokenType.value) else Null),
      "expires_in" := Number(e.expiresIn),
      "scope" := (if e.scope.Some? then Array(seq(|e.scope.value|, i requires 0 <= i < |e.scope.value| => Str(e.scope.value[i]))) else Null)])
  }

  lemma {:induction false} DecodeStringItemsOfStrings(xs: seq<string>)
    ensures DecodeStringItems(seq(|xs|, i requires 0 <= i < |xs| => Str(xs[i]))) == Some(xs)
    decreases |xs|
  {
    var items := seq(|xs|, i requires 0 <= i < |xs| => Str(xs[i]));
    if xs != [] {
      assert items[1..] == seq(|xs[1..]|, i requires 0 <= i < |xs[1..]| => Str(xs[1..][i]));
      DecodeStringItemsOfStrings(xs[1..]);
      assert [xs[0]] + xs[1..] == xs;
    }
  }

  /** Decoding what was encoded gives the record back, for a lifetime that fits in 64 bits. */
  lemma DecodeEncodeAuthEvent(e: AuthEvent)
    requires Strconv.MinInt64 <= e.expiresIn <= Strconv.MaxInt64
    ensures DecodeAuthEvent(EncodeAuthEvent(e)) == Some(e)
  {
    var m := EncodeAuthEvent(e).members;
    if e.scope.Some? {
      var xs := e.scope.value;
      var items := seq(|xs|, i requires 0 <= i < |xs| => Str(xs[i]));
      assert m["scope"] == Array(items);
      DecodeStringItemsOfStrings(xs);
      assert DecodeStrings(m["scope"]) == Some(Some(xs));
    }
  }

  /** A reply whose `access_token` member is not a string (or null) cannot be decoded. */
  lemma DecodeRejectsMistypedToken(m: map<string, Json>)
    requires "access_token" in m && !m["access_token"].Str? && !m["access_token"].Null?
    ensures DecodeAuthEvent(Object(m)) == None
  {
  }
}
