/**
 * Integer arithmetic and text formatting as .NET performs them:
 * `/` and `%` on `int` truncate toward zero, `{n}` prints a decimal with a
 * leading '-' for negatives, and `{n:D2}` pads the digits (not the sign) with
 * zeros to at least two. Parsers for the same shapes are given so that every
 * formatter can be proved to lose no information.
 */
module Formatting {
  import opened Wrappers

  // ---------------------------------------------------------------------------
  // Truncating division

  /** C#'s `a / b` for a positive divisor: the quotient rounded toward zero. */
  function TruncDiv(a: int, b: int): int
    requires b > 0
  {
    if a >= 0 then a / b else -((-a) / b)
  }

  /** C#'s `a % b` for a positive divisor: the remainder takes the sign of `a`. */
  function TruncMod(a: int, b: int): int
    requires b > 0
  {
    if a >= 0 then a % b else -((-a) % b)
  }

  /** Quotient and remainder recombine to the dividend; the remainder is smaller
      than the divisor and never has the opposite sign to the dividend. */
  lemma TruncDivMod(a: int, b: int)
    requires b > 0
    ensures TruncDiv(a, b) * b + TruncMod(a, b) == a
    ensures -b < TruncMod(a, b) < b
    ensures a >= 0 ==> 0 <= TruncMod(a, b) && TruncDiv(a, b) == a / b && TruncMod(a, b) == a % b
    ensures a <= 0 ==> TruncMod(a, b) <= 0
  {
    if a < 0 {
      var q, r := (-a) / b, (-a) % b;
      assert q * b + r == -a;
    }
  }

  // ---------------------------------------------------------------------------
  // Decimal digits

  predicate IsDigit(c: char) {
    '0' <= c <= '9'
  }

  function DigitChar(d: int): (c: char)
    requires 0 <= d < 10
    ensures IsDigit(c)
  {
    ('0' as int + d) as char
  }

  function DigitValue(c: char): int {
    c as int - '0' as int
  }

  predicate AllDigits(s: string) {
    forall i :: 0 <= i < |s| ==> IsDigit(s[i])
  }

  /** The shortest decimal numeral of `n`. */
  function NatToString(n: nat): (s: string)
    ensures 1 <= |s| && AllDigits(s)
    ensures |s| == 1 <==> n < 10
    ensures n < 100 ==> |s| <= 2
    decreases n
  {
    if n < 10 then [DigitChar(n)] else NatToString(n / 10) + [DigitChar(n % 10)]
  }

  /** The value of a numeral read left to right (leading zeros contribute nothing). */
  function ParseDigits(s: string): int
    decreases |s|
  {
    if s == [] then 0 else ParseDigits(s[..|s| - 1]) * 10 + DigitValue(s[|s| - 1])
  }

  lemma {:induction false} ParseNatToString(n: nat)
    ensures ParseDigits(NatToString(n)) == n
    decreases n
  {
    var s := NatToString(n);
    if n >= 10 {
      ParseNatToString(n / 10);
      assert s[..|s| - 1] == NatToString(n / 10);
    }
  }

  lemma {:induction false} ParseLeadingZero(s: string)
    ensures ParseDigits(['0'] + s) == ParseDigits(s)
    decreases |s|
  {
    if s != [] {
      ParseLeadingZero(s[..|s| - 1]);
      assert (['0'] + s)[..|s|] == ['0'] + s[..|s| - 1];
    }
  }

  // ---------------------------------------------------------------------------
  // Signed numerals: `{n}` and `{n:D2}`

  /** `n.ToString()`. */
  function IntToString(n: int): (s: string)
    ensures 1 <= |s|
    ensures '-' !in s && ':' !in s && ' ' !in s <== n >= 0
    ensures ':' !in s && ' ' !in s && 'h' !in s && 'm' !in s && 's' !in s && '/' !in s
  {
    if n < 0 then "-" + NatToString(-n) else NatToString(n)
  }

  /** Digits padded on the left with zeros to at least two characters. */
  function Pad2(s: string): (r: string)
    requires 1 <= |s|
    ensures 2 <= |r| && (|s| <= 2 ==> |r| == 2)
  {
    if |s| < 2 then ['0'] + s else s
  }

  /** `n.ToString("D2")`: the sign, then the magnitude's digits padded to two. */
  function IntToStringD2(n: int): (s: string)
    ensures 2 <= |s|
    ensures ':' !in s && ' ' !in s
  {
    if n < 0 then "-" + Pad2(NatToString(-n)) else Pad2(NatToString(n))
  }

  /** Reads an optional '-' followed by decimal digits. */
  function ParseInt(s: string): int {
    if |s| > 0 && s[0] == '-' then -ParseDigits(s[1..]) else ParseDigits(s)
  }

  lemma ParseIntToString(n: int)
    ensures ParseInt(IntToString(n)) == n
  {
    if n < 0 {
      ParseNatToString(-n);
      assert IntToString(n)[1..] == NatToString(-n);
    } else {
      ParseNatToString(n);
    }
  }

  lemma ParseIntToStringD2(n: int)
    ensures ParseInt(IntToStringD2(n)) == n
  {
    var m := if n < 0 then -n else n;
    var digits := NatToString(m);
    ParseNatToString(m);
    ParseLeadingZero(digits);
    assert ParseDigits(Pad2(digits)) == m;
    if n < 0 {
      assert IntToStringD2(n)[1..] == Pad2(digits);
    }
  }

  /** A value in [0, 100) prints with D2 as exactly two digits. */
  lemma D2TwoDigits(n: int)
    requires 0 <= n < 100
    ensures |IntToStringD2(n)| == 2 && AllDigits(IntToStringD2(n))
  {
  }

  // ---------------------------------------------------------------------------
  // Splitting on a separator, as String.Split does

  function Split(s: string, sep: char): (r: seq<string>)
    ensures |r| >= 1
    decreases |s|
  {
    if s == [] then [""]
    else
      var rest := Split(s[1..], sep);
      if s[0] == sep then [""] + rest else [[s[0]] + rest[0]] + rest[1..]
  }

  lemma {:induction false} SplitFree(a: string, sep: char)
    requires sep !in a
    ensures Split(a, sep) == [a]
    decreases |a|
  {
    if a != [] {
      SplitFree(a[1..], sep);
      assert [a[0]] + a[1..] == a;
    }
  }

  lemma {:induction false} SplitAt(a: string, sep: char, b: string)
    requires sep !in a
    ensures Split(a + [sep] + b, sep) == [a] + Split(b, sep)
    decreases |a|
  {
    var s := a + [sep] + b;
    if a == [] {
      assert s[1..] == b;
    } else {
      assert s[1..] == a[1..] + [sep] + b;
      SplitAt(a[1..], sep, b);
      assert [a[0]] + a[1..] == a;
    }
  }

  // ---------------------------------------------------------------------------
  // Clock fields of a count of seconds

  /** The hour, minute and second fields of `FormattedDuration`, computed with
      C#'s truncating `/` and `%`. */
  function ClockFields(d: int): (hms: (int, int, int))
  {
    (TruncDiv(d, 3600), TruncDiv(TruncMod(d, 3600), 60), TruncMod(d, 60))
  }

  /** The fields recombine to the duration; for a non-negative duration they
      are a proper clock reading (minutes and seconds below 60). */
  lemma ClockFieldsExact(d: int)
    ensures ClockFields(d).0 * 3600 + ClockFields(d).1 * 60 + ClockFields(d).2 == d
    ensures d >= 0 ==> ClockFields(d).0 >= 0
    ensures d >= 0 ==> 0 <= ClockFields(d).1 < 60 && 0 <= ClockFields(d).2 < 60
  {
    var e := if d >= 0 then d else -d;
    ClockDecompose(e);
    if d < 0 {
      assert TruncMod(d, 3600) == -(e % 3600);
      assert TruncDiv(TruncMod(d, 3600), 60) == -((e % 3600) / 60);
    }
  }

  /** Euclidean clock decomposition of a non-negative count of seconds. */
  lemma ClockDecompose(e: int)
    requires e >= 0
    ensures (e / 3600) * 3600 + ((e % 3600) / 60) * 60 + e % 60 == e
    ensures 0 <= (e % 3600) / 60 < 60
  {
    var q, r := e / 3600, e % 3600;
    var m, s := r / 60, r % 60;
    assert r == m * 60 + s;
    assert e == (q * 60 + m) * 60 + s;
    assert e % 60 == s;
  }

  /** "{h}h {m}m" of a count of seconds, as `FormattedTotalTime` and the
      `FormattedTotal` of range and comparison statistics print it. */
  function HoursMinutesText(t: int): string
  {
    var f := ClockFields(t);
    IntToString(f.0) + "h " + IntToString(f.1) + "m"
  }

  /** Reads "{h}h {m}m" back as whole minutes, in seconds. */
  function ParseHoursMinutes(text: string): Option<int>
  {
    var f := Split(text, ' ');
    if |f| == 2 && |f[0]| >= 1 && |f[1]| >= 1 then
      Some(ParseInt(f[0][..|f[0]| - 1]) * 3600 + ParseInt(f[1][..|f[1]| - 1]) * 60)
    else None
  }

  lemma ParseHoursMinutesFields(a: string, b: string)
    requires ' ' !in a && ' ' !in b
    ensures ParseHoursMinutes(a + "h " + b + "m") == Some(ParseInt(a) * 3600 + ParseInt(b) * 60)
  {
    assert a + "h " + b + "m" == (a + "h") + [' '] + (b + "m");
    SplitAt(a + "h", ' ', b + "m");
    SplitFree(b + "m", ' ');
    assert (a + "h")[..|a|] == a;
    assert (b + "m")[..|b|] == b;
  }

  /** "{h}h {m}m" reads back as the whole minutes of `t`, in seconds. */
  lemma HoursMinutesRoundTrip(t: int)
    ensures ParseHoursMinutes(HoursMinutesText(t)) == Some(t - ClockFields(t).2)
  {
    var f := ClockFields(t);
    ParseHoursMinutesFields(IntToString(f.0), IntToString(f.1));
    ParseIntToString(f.0);
    ParseIntToString(f.1);
    ClockFieldsExact(t);
  }

  /** "{h}h {m}m {s}s" of a count of seconds, as every `FormattedTotal` of
      daily, weekly and monthly statistics prints it. */
  function HoursMinutesSecondsText(t: int): string
  {
    var f := ClockFields(t);
    IntToString(f.0) + "h " + IntToString(f.1) + "m " + IntToString(f.2) + "s"
  }

  /** Reads "{h}h {m}m {s}s" back as a count of seconds. */
  function ParseHoursMinutesSeconds(text: string): Option<int>
  {
    var f := Split(text, ' ');
    if |f| == 3 && |f[0]| >= 1 && |f[1]| >= 1 && |f[2]| >= 1 then
      Some(ParseInt(f[0][..|f[0]| - 1]) * 3600 + ParseInt(f[1][..|f[1]| - 1]) * 60
           + ParseInt(f[2][..|f[2]| - 1]))
    else None
  }

  lemma ParseHoursMinutesSecondsFields(a: string, b: string, c: string)
    requires ' ' !in a && ' ' !in b && ' ' !in c
    ensures ParseHoursMinutesSeconds(a + "h " + b + "m " + c + "s")
      == Some(ParseInt(a) * 3600 + ParseInt(b) * 60 + ParseInt(c))
  {
    assert a + "h " + b + "m " + c + "s" == (a + "h") + [' '] + ((b + "m") + [' '] + (c + "s"));
    SplitAt(a + "h", ' ', (b + "m") + [' '] + (c + "s"));
    SplitAt(b + "m", ' ', c + "s");
    SplitFree(c + "s", ' ');
    assert (a + "h")[..|a|] == a;
    assert (b + "m")[..|b|] == b;
    assert (c + "s")[..|c|] == c;
  }

  /** "{h}h {m}m {s}s" loses nothing: it reads back as the very count. */
  lemma HoursMinutesSecondsRoundTrip(t: int)
    ensures ParseHoursMinutesSeconds(HoursMinutesSecondsText(t)) == Some(t)
  {
    var f := ClockFields(t);
    ParseHoursMinutesSecondsFields(IntToString(f.0), IntToString(f.1), IntToString(f.2));
    ParseIntToString(f.0);
    ParseIntToString(f.1);
    ParseIntToString(f.2);
    ClockFieldsExact(t);
  }

  /** A count of seconds as a fraction of hours (every `TotalHours` getter). */
  function Hours(t: int): (h: real)
    ensures h * 3600.0 == t as real
  {
    t as real / 3600.0
  }
}
