/**
 * The decimal conversions of Go's `strconv` package that the client relies on:
 * `Atoi` (which is `ParseInt(s, 10, 64)`, including its clamping of out-of-range
 * input) and `Itoa`.
 */
module Strconv {
  const MaxInt64: int := 0x7FFF_FFFF_FFFF_FFFF
  const MinInt64: int := -0x8000_0000_0000_0000
  const MaxUint64: int := 0xFFFF_FFFF_FFFF_FFFF

  predicate IsDigit(c: char) { '0' <= c <= '9' }

  function DigitValue(c: char): nat
    requires IsDigit(c)
  {
    c as int - '0' as int
  }

  predicate AllDigits(s: string) { forall i :: 0 <= i < |s| ==> IsDigit(s[i]) }

  /** The value of the decimal digits `s` read left to right, starting from `n`. */
  function Accumulate(s: string, n: nat): nat
    requires AllDigits(s)
  {
    if s == [] then n else Accumulate(s[1..], n * 10 + DigitValue(s[0]))
  }

  /** The value of a string of decimal digits. */
  function DecimalValue(digits: string): nat
    requires AllDigits(digits)
  {
    Accumulate(digits, 0)
  }

  /** The outcome of the digit loop of `ParseUint` in base 10 with a 64-bit result. */
  datatype Scan = SyntaxError | RangeError | Scanned(value: nat)

  /**
   * The digit loop: a character that is not a decimal digit is a syntax error, and the
   * loop stops with a range error as soon as the running value exceeds 2^64 - 1, before
   * looking at the characters that follow.
   */
  function ScanDigits(s: string, n: nat): Scan
  {
    if s == [] then Scanned(n)
    else if !IsDigit(s[0]) then SyntaxError
    else if n * 10 + DigitValue(s[0]) > MaxUint64 then RangeError
    else ScanDigits(s[1..], n * 10 + DigitValue(s[0]))
  }

  /** ParseUint(s, 10, 64): the empty string is a syntax error. */
  function ParseUint(s: string): Scan
  {
    if s == [] then SyntaxError else ScanDigits(s, 0)
  }

  /** `s` without one leading `+` or `-`. */
  function Unsigned(s: string): string
  {
    if s != [] && (s[0] == '+' || s[0] == '-') then s[1..] else s
  }

  predicate Negative(s: string) { s != [] && s[0] == '-' }

  /** Optional sign followed by at least one decimal digit and nothing else. */
  predicate IsDecimal(s: string)
  {
    Unsigned(s) != [] && AllDigits(Unsigned(s))
  }

  /** The integer a decimal string denotes, without any bound. */
  function DecimalOf(s: string): int
    requires IsDecimal(s)
  {
    if Negative(s) then -(DecimalValue(Unsigned(s)) as int) else DecimalValue(Unsigned(s))
  }

  /** The `(value, err == nil)` pair returned by strconv.Atoi. */
  datatype Parsed = Parsed(value: int, ok: bool)

  /** strconv.Atoi, i.e. ParseInt(s, 10, 64), with Go's clamping on a range error. */
  function Atoi(s: string): (r: Parsed)
    ensures MinInt64 <= r.value <= MaxInt64
    ensures !r.ok ==> r.value == 0 || r.value == MaxInt64 || r.value == MinInt64
  {
    if s == [] then Parsed(0, false)
    else
      match ParseUint(Unsigned(s))
      case SyntaxError => Parsed(0, false)
      case RangeError => if Negative(s) then Parsed(MinInt64, false) else Parsed(MaxInt64, false)
      case Scanned(u) =>
        if !Negative(s) && u > MaxInt64 then Parsed(MaxInt64, false)
        else if Negative(s) && u > -MinInt64 then Parsed(MinInt64, false)
        else Parsed(if Negative(s) then -(u as int) else u, true)
  }

  /** The decimal digits of `n`, most significant first, with no leading zero. */
  function NatDigits(n: nat): (r: string)
    ensures r != [] && AllDigits(r)
    decreases n
  {
    if n < 10 then ['0' + n as char] else NatDigits(n / 10) + ['0' + (n % 10) as char]
  }

  /** strconv.Itoa. */
  function Itoa(n: int): string
  {
    if n < 0 then "-" + NatDigits(-n) else NatDigits(n)
  }

  // ---------------------------------------------------------------------------
  // The digit loop computes the decimal value.
  // ---------------------------------------------------------------------------

  lemma {:induction false} AccumulateGrows(s: string, n: nat)
    requires AllDigits(s)
    ensures Accumulate(s, n) >= n
    decreases |s|
  {
    if s != [] {
      AccumulateGrows(s[1..], n * 10 + DigitValue(s[0]));
    }
  }

  lemma {:induction false} AccumulateAppend(a: string, b: string, n: nat)
    requires AllDigits(a) && AllDigits(b)
    ensures AllDigits(a + b)
    ensures Accumulate(a + b, n) == Accumulate(b, Accumulate(a, n))
    decreases |a|
  {
    if a == [] {
      assert a + b == b;
    } else {
      assert (a + b)[1..] == a[1..] + b;
      AccumulateAppend(a[1..], b, n * 10 + DigitValue(a[0]));
    }
  }

  /** On digits, the loop yields the accumulated value, or a range error when that value passes 2^64 - 1. */
  lemma {:induction false} ScanDigitsValue(s: string, n: nat)
    requires AllDigits(s) && n <= MaxUint64
    ensures ScanDigits(s, n) == if Accumulate(s, n) <= MaxUint64 then Scanned(Accumulate(s, n)) else RangeError
    decreases |s|
  {
    if s != [] {
      var m := n * 10 + DigitValue(s[0]);
      if m > MaxUint64 {
        AccumulateGrows(s[1..], m);
      } else {
        ScanDigitsValue(s[1..], m);
      }
    }
  }

  /** A string with a non-digit never scans to a value. */
  lemma {:induction false} ScanDigitsRejects(s: string, n: nat)
    requires !AllDigits(s)
    ensures !ScanDigits(s, n).Scanned?
    decreases |s|
  {
    if IsDigit(s[0]) && n * 10 + DigitValue(s[0]) <= MaxUint64 {
      assert !AllDigits(s[1..]) by {
        var i :| 0 <= i < |s| && !IsDigit(s[i]);
        assert i > 0 && !IsDigit(s[1..][i - 1]);
      }
      ScanDigitsRejects(s[1..], n * 10 + DigitValue(s[0]));
    }
  }

  function Pow10(k: nat): nat
  {
    if k == 0 then 1 else 10 * Pow10(k - 1)
  }

  /** Fewer than k digits read from 0 stay below 10^k. */
  lemma {:induction false} AccumulateBound(s: string, n: nat)
    requires AllDigits(s)
    ensures Accumulate(s, n) < (n + 1) * Pow10(|s|)
    decreases |s|
  {
    if s != [] {
      var m := n * 10 + DigitValue(s[0]);
      AccumulateBound(s[1..], m);
      assert (m + 1) * Pow10(|s| - 1) <= (n + 1) * Pow10(|s|);
    }
  }

  /** While the value stays in range, the loop reads a digit prefix and continues with its value. */
  lemma {:induction false} ScanDigitsAppend(a: string, b: string, n: nat)
    requires AllDigits(a) && Accumulate(a, n) <= MaxUint64
    ensures ScanDigits(a + b, n) == ScanDigits(b, Accumulate(a, n))
    decreases |a|
  {
    if a == [] {
      assert a + b == b;
    } else {
      var m := n * 10 + DigitValue(a[0]);
      AccumulateGrows(a[1..], m);
      assert (a + b)[1..] == a[1..] + b;
      ScanDigitsAppend(a[1..], b, m);
    }
  }

  lemma Pow10Of19()
    ensures Pow10(19) == 10_000_000_000_000_000_000
  {
    assert Pow10(4) == 10_000;
    assert Pow10(8) == 100_000_000;
    assert Pow10(12) == 1_000_000_000_000;
    assert Pow10(16) == 10_000_000_000_000_000;
  }

  lemma {:induction false} Pow10Monotone(i: nat, j: nat)
    requires i <= j
    ensures Pow10(i) <= Pow10(j)
    decreases j
  {
    if i < j {
      Pow10Monotone(i, j - 1);
    }
  }

  /** A non-digit preceded by at most 19 digits is reached before the loop can overflow. */
  lemma SyntaxBeforeOverflow(d: string, i: nat)
    requires i < |d| && i <= 19 && !IsDigit(d[i]) && AllDigits(d[..i])
    ensures ScanDigits(d, 0) == SyntaxError
  {
    AccumulateBound(d[..i], 0);
    Pow10Monotone(i, 19);
    Pow10Of19();
    assert d == d[..i] + d[i..];
    ScanDigitsAppend(d[..i], d[i..], 0);
  }

  // ---------------------------------------------------------------------------
  // What Atoi accepts and what it returns.
  // ---------------------------------------------------------------------------

  /** Atoi succeeds exactly on decimal strings whose value fits in 64 signed bits, and then returns that value. */
  lemma AtoiAccepts(s: string)
    ensures Atoi(s).ok <==> IsDecimal(s) && MinInt64 <= DecimalOf(s) <= MaxInt64
    ensures Atoi(s).ok ==> Atoi(s).value == DecimalOf(s)
  {
    var d := Unsigned(s);
    if d != [] {
      if AllDigits(d) {
        ScanDigitsValue(d, 0);
      } else {
        ScanDigitsRejects(d, 0);
      }
    }
  }

  /** A decimal string out of the 64-bit range is clamped to the nearest bound. */
  lemma AtoiClamps(s: string)
    requires IsDecimal(s)
    ensures DecimalOf(s) > MaxInt64 ==> Atoi(s) == Parsed(MaxInt64, false)
    ensures DecimalOf(s) < MinInt64 ==> Atoi(s) == Parsed(MinInt64, false)
  {
    ScanDigitsValue(Unsigned(s), 0);
  }

  /**
   * A string that is not decimal and has at most 20 characters yields 0: it has too few
   * digits before its first non-digit for the loop to overflow.
   */
  lemma AtoiSyntaxError(s: string)
    requires !IsDecimal(s) && |s| <= 20
    ensures Atoi(s) == Parsed(0, false)
  {
    var d := Unsigned(s);
    if d != [] {
      var i := FirstNonDigit(d);
      SyntaxBeforeOverflow(d, i);
    }
  }

  /** The index of the first non-digit of a string that has one. */
  function FirstNonDigit(d: string): (i: nat)
    requires !AllDigits(d)
    ensures i < |d| && !IsDigit(d[i]) && AllDigits(d[..i])
  {
    if !IsDigit(d[0]) then 0
    else
      assert !AllDigits(d[1..]) by {
        var k :| 0 <= k < |d| && !IsDigit(d[k]);
        assert k > 0 && !IsDigit(d[1..][k - 1]);
      }
      var j := FirstNonDigit(d[1..]);
      assert d[..j + 1] == [d[0]] + d[1..][..j];
      j + 1
  }

  /** Atoi reads back what Itoa writes, for every 64-bit integer. */
  lemma AtoiItoa(n: int)
    requires MinInt64 <= n <= MaxInt64
    ensures Atoi(Itoa(n)) == Parsed(n, true)
  {
    var s := Itoa(n);
    var d := NatDigits(if n < 0 then -n else n);
    assert Unsigned(s) == d;
    NatDigitsValue(if n < 0 then -n else n);
    AtoiAccepts(s);
  }

  /** The digits of n denote n. */
  lemma {:induction false} NatDigitsValue(n: nat)
    ensures DecimalValue(NatDigits(n)) == n
    decreases n
  {
    if n >= 10 {
      var c := '0' + (n % 10) as char;
      NatDigitsValue(n / 10);
      AccumulateAppend(NatDigits(n / 10), [c], 0);
      assert Accumulate([c], n / 10) == Accumulate([], n / 10 * 10 + n % 10);
    } else {
      var c := '0' + n as char;
      assert Accumulate([c], 0) == Accumulate([], n);
    }
  }

  /** Itoa is injective. */
  lemma ItoaInjective(a: int, b: int)
    requires Itoa(a) == Itoa(b)
    ensures a == b
  {
    var da := NatDigits(if a < 0 then -a else a);
    var db := NatDigits(if b < 0 then -b else b);
    NatDigitsValue(if a < 0 then -a else a);
    NatDigitsValue(if b < 0 then -b else b);
    assert Unsigned(Itoa(a)) == da && Unsigned(Itoa(b)) == db;
    assert Negative(Itoa(a)) <==> a < 0;
    assert Negative(Itoa(b)) <==> b < 0;
  }
}
