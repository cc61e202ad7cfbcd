/** The rate-limit snapshot and the error that carries it. */
module Errors {
  import opened Strconv

  /** TwitchApiRateLimit: the three `Ratelimit-*` header values of one response. */
  datatype TwitchApiRateLimit = TwitchApiRateLimit(limit: int, remaining: int, reset: int)

  /** TwitchApiRateLimitError: returned instead of retrying a rate-limited call. */
  datatype TwitchApiRateLimitError = TwitchApiRateLimitError(rateLimit: TwitchApiRateLimit)
  {
    /** The message, with the three numbers in decimal. */
    function Error(): string
    {
      Message(Itoa(rateLimit.limit), Itoa(rateLimit.remaining), Itoa(rateLimit.reset))
    }
  }

  /** No decimal text contains a comma or a closing parenthesis. */
  lemma ItoaCharacters(n: int)
    ensures ',' !in Itoa(n) && ')' !in Itoa(n)
  {
    var d := NatDigits(if n < 0 then -n else n);
    assert forall i :: 0 <= i < |d| ==> IsDigit(d[i]);
    if n < 0 {
      assert Itoa(n) == "-" + d;
      assert forall i :: 0 <= i < |Itoa(n)| ==> Itoa(n)[i] == '-' || IsDigit(Itoa(n)[i]);
    }
  }

  /** Two texts free of `c`, each followed by something starting with `c`, are split at the same place. */
  lemma {:induction false} SplitAt(x: string, q: string, y: string, r: string, c: char)
    requires c !in x && c !in y
    requires q != [] && q[0] == c && r != [] && r[0] == c
    requires x + q == y + r
    ensures x == y && q == r
    decreases |x|
  {
    assert (x + q)[0] == (y + r)[0];
    assert x != [] ==> x[0] in x && (x + q)[0] == x[0];
    assert y != [] ==> y[0] in y && (y + r)[0] == y[0];
    if x == [] || y == [] {
      assert x == y;
      assert q == (x + q)[|x|..] == (y + r)[|y|..] == r;
    } else {
      assert (x + q)[0] == (y + r)[0];
      assert (x + q)[1..] == x[1..] + q && (y + r)[1..] == y[1..] + r;
      SplitAt(x[1..], q, y[1..], r, c);
      assert x == [x[0]] + x[1..] && y == [y[0]] + y[1..];
    }
  }

  lemma CancelPrefix(p: string, x: string, y: string)
    requires p + x == p + y
    ensures x == y
  {
    assert x == (p + x)[|p|..];
    assert y == (p + y)[|p|..];
  }

  /** The message for a concrete snapshot. */
  lemma ErrorExample()
    ensures TwitchApiRateLimitError(TwitchApiRateLimit(800, 0, 1234)).Error()
      == "twitch api is rate limited (limit 800,remaining 0,reset 1234)"
  {
    ItoaExample();
  }

  // Proof helpers: the lemmas below only spell out concrete texts or regroup
  // concatenations, so that the examples that use them stay cheap to check. They state
  // nothing about the client themselves.

  /** The decimal texts of the example snapshot. */
  lemma ItoaExample()
    ensures Itoa(800) == "800" && Itoa(0) == "0" && Itoa(1234) == "1234"
  {
  }

  /** The text of the message for the three rendered numbers. */
  function Message(l: string, r: string, s: string): string
  {
    "twitch api is rate limited (limit " + l + ",remaining " + r + ",reset " + s + ")"
  }

  /** Regrouping a concatenation, as a ready fact. */
  lemma Regroup(x: string, a: string, b: string)
    ensures x + a + b == x + (a + b)
  {
  }

  lemma Regroup3(x: string, a: string, b: string, c: string)
    ensures x + a + b + c == x + (a + b + c)
  {
  }

  lemma Regroup5(x: string, a: string, b: string, c: string, d: string, e: string)
    ensures x + a + b + c + d + e == x + (a + b + c + d + e)
  {
  }

  /** A text `xa` free of `c`, followed by `ua` starting with `c`, is recovered after a common prefix. */
  lemma SplitAfter(p: string, xa: string, ua: string, xb: string, ub: string, c: char)
    requires c !in xa && c !in xb
    requires ua != [] && ua[0] == c && ub != [] && ub[0] == c
    requires p + xa + ua == p + xb + ub
    ensures xa == xb && ua == ub
  {
    Regroup(p, xa, ua);
    Regroup(p, xb, ub);
    CancelPrefix(p, xa + ua, xb + ub);
    SplitAt(xa, ua, xb, ub, c);
  }

  /** Three fields, each ended by a separator it cannot contain, are recovered from the text. */
  lemma SplitThree(p: string, m: string, n: string, e: string,
                   la: string, ra: string, sa: string, lb: string, rb: string, sb: string)
    requires m != [] && m[0] == ',' && n != [] && n[0] == ',' && e != [] && e[0] == ')'
    requires ',' !in la && ',' !in ra && ')' !in sa
    requires ',' !in lb && ',' !in rb && ')' !in sb
    requires p + la + m + ra + n + sa + e == p + lb + m + rb + n + sb + e
    ensures la == lb && ra == rb && sa == sb
  {
    var ua, ub := m + ra + n + sa + e, m + rb + n + sb + e;
    Regroup5(p + la, m, ra, n, sa, e);
    Regroup5(p + lb, m, rb, n, sb, e);
    SplitAfter(p, la, ua, lb, ub, ',');
    Regroup3(m + ra, n, sa, e);
    Regroup3(m + rb, n, sb, e);
    SplitAfter(m, ra, n + sa + e, rb, n + sb + e, ',');
    SplitAfter(n, sa, e, sb, e, ')');
  }

  /** With comma-free numbers, the message text can be split back into them. */
  lemma MessageInjective(la: string, ra: string, sa: string, lb: string, rb: string, sb: string)
    requires ',' !in la && ',' !in ra && ')' !in sa
    requires ',' !in lb && ',' !in rb && ')' !in sb
    requires Message(la, ra, sa) == Message(lb, rb, sb)
    ensures la == lb && ra == rb && sa == sb
  {
    SplitThree("twitch api is rate limited (limit ", ",remaining ", ",reset ", ")", la, ra, sa, lb, rb, sb);
  }

  /** The message determines the snapshot: distinct snapshots have distinct messages. */
  lemma ErrorInjective(a: TwitchApiRateLimitError, b: TwitchApiRateLimitError)
    requires a.Error() == b.Error()
    ensures a == b
  {
    var x, y := a.rateLimit, b.rateLimit;
    ItoaCharacters(x.limit); ItoaCharacters(x.remaining); ItoaCharacters(x.reset);
    ItoaCharacters(y.limit); ItoaCharacters(y.remaining); ItoaCharacters(y.reset);
    assert a.Error() == Message(Itoa(x.limit), Itoa(x.remaining), Itoa(x.reset));
    assert b.Error() == Message(Itoa(y.limit), Itoa(y.remaining), Itoa(y.reset));
    MessageInjective(Itoa(x.limit), Itoa(x.remaining), Itoa(x.reset), Itoa(y.limit), Itoa(y.remaining), Itoa(y.reset));
    ItoaInjective(x.limit, y.limit);
    ItoaInjective(x.remaining, y.remaining);
    ItoaInjective(x.reset, y.reset);
  }
}
