/**
 * The parts of `net/http` and `time` the client touches: header lookup, requests and
 * responses, a network that answers from a script, and a clock that sleeping advances.
 */
module Http {
  import opened Wrappers
  import opened Json
  import opened Strconv

  /** http.Header: each canonical header name with its values. */
  type Header = map<string, seq<string>>

  /** Header.Get: the first value of `key`, or "" when there is none. */
  function HeaderGet(h: Header, key: string): (r: string)
    ensures (key !in h || h[key] == []) ==> r == ""
    ensures key in h && h[key] != [] ==> r == h[key][0]
  {
    if key in h && h[key] != [] then h[key][0] else ""
  }

  /**
   * A response body: the bytes `io.ReadAll` returns, and the first JSON value a decoder
   * finds in them (None when they do not start with one).
   */
  datatype Body = Body(text: string, json: Option<Json>)

  datatype Response = Response(status: int, header: Header, body: Body)

  /**
   * A request as sent: upper-case method (`verb`), full URL, the headers set on it and its JSON
   * body, if any.
   */
  datatype Request = Request(verb: string, url: string, header: map<string, string>, body: Option<Json>)

  /** What a round trip gives back: a response, or the transport's error text. */
  type Reply = Result<Response, string>

  /** The error a round trip gives once no response is scripted any more. */
  const NoResponse: string := "connection refused"

  /** The network: the replies still to come, in order, and every request sent so far. */
  class Transport {
    var script: seq<Reply>
    var sent: seq<Request>

    constructor(script: seq<Reply>)
      ensures this.script == script && sent == []
    {
      this.script := script;
      sent := [];
    }

    /** http.Client.Do: sends `req` and takes the next scripted reply. */
    method Do(req: Request) returns (r: Reply)
      modifies this
      ensures sent == old(sent) + [req]
      ensures old(script) == [] ==> r == Failure(NoResponse) && script == []
      ensures old(script) != [] ==> r == old(script[0]) && script == old(script[1..])
    {
      sent := sent + [req];
      if script == [] {
        r := Failure(NoResponse);
      } else {
        r := script[0];
        script := script[1..];
      }
    }
  }

  /** Nanoseconds in a second: time.Second. */
  const Second: int := 1_000_000_000

  /** time.Time.Unix: whole seconds since the epoch, rounded down. */
  function UnixSeconds(nanos: int): int
  {
    nanos / Second
  }

  /** The wall clock, in nanoseconds since the epoch, and every sleep taken. */
  class Clock {
    var nanos: int
    var sleeps: seq<int>

    constructor(nanos: int)
      ensures this.nanos == nanos && sleeps == []
    {
      this.nanos := nanos;
      sleeps := [];
    }

    /** time.Sleep: returns at once for a duration that is not positive. */
    method Sleep(d: int)
      modifies this
      ensures nanos == old(nanos) + (if d > 0 then d else 0)
      ensures sleeps == old(sleeps) + [d]
    {
      if d > 0 {
        nanos := nanos + d;
      }
      sleeps := sleeps + [d];
    }
  }

  // ---------------------------------------------------------------------------
  // time.Duration arithmetic: signed 64-bit, wrapping on overflow.
  // ---------------------------------------------------------------------------

  const TwoTo64: int := 0x1_0000_0000_0000_0000

  /** The signed 64-bit integer congruent to `x`, as Go's int64 arithmetic leaves it. */
  function Wrap64(x: int): (r: int)
    ensures MinInt64 <= r <= MaxInt64
    ensures MinInt64 <= x <= MaxInt64 ==> r == x
  {
    (x - MinInt64) % TwoTo64 + MinInt64
  }

  /**
   * The wait before retrying a rate-limited call:
   * `time.Duration(reset) * time.Second - time.Duration(now) * time.Second`.
   */
  function SleepTime(reset: int, now: int): int
  {
    Wrap64(Wrap64(Wrap64(reset) * Second) - Wrap64(Wrap64(now) * Second))
  }

  /** Seconds in nearly three centuries: instants this far after the epoch cannot overflow. */
  const Horizon: int := 9_000_000_000

  /**
   * While both instants lie between the epoch and `Horizon` seconds after it nothing
   * wraps, and the wait is exactly the seconds from now until the reset.
   */
  lemma SleepTimeExact(reset: int, now: int)
    requires 0 <= reset <= Horizon && 0 <= now <= Horizon
    ensures SleepTime(reset, now) == (reset - now) * Second
    ensures SleepTime(reset, now) > 0 <==> reset > now
  {
    var a, b := reset * Second, now * Second;
    assert 0 <= a <= Horizon * Second && 0 <= b <= Horizon * Second;
    assert Wrap64(reset) * Second == a && Wrap64(now) * Second == b;
    assert Wrap64(a) == a && Wrap64(b) == b;
    assert (reset - now) * Second == a - b;
  }

  /**
   * A reset time beyond what a `time.Duration` can hold wraps around: the largest value
   * Atoi clamps to gives a negative wait, so the call is re-issued at once.
   */
  lemma SleepTimeWrapsForClampedReset(now: int)
    requires 0 <= now <= Horizon
    ensures SleepTime(MaxInt64, now) < 0
  {
    assert MaxInt64 * Second - MinInt64 == 9223372036854775807 * 1000000000 + 9223372036854775808;
    assert Wrap64(MaxInt64 * Second) == -Second;
    assert 0 <= now * Second <= Horizon * Second;
  }
}
