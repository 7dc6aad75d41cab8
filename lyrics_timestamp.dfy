/** The "[mm:ss.fff]" time stamp written in front of a lyrics line: the
    TimeSpan components of the playback position, their zero-padded decimal
    formatting, and a parser that reads the three fields back. */
module LyricsTimeStamp {
  import opened Optional
  import opened LyricsText

  /** TimeSpan ticks are units of 100 ns. */
  const TicksPerMillisecond: nat := 10_000
  const TicksPerSecond: nat := 10_000_000
  const TicksPerMinute: nat := 600_000_000
  const TicksPerHour: nat := 36_000_000_000
  /** DateTime.MaxValue.Ticks: a DateTime built from more ticks throws. */
  const MaxDateTimeTicks: nat := 3_155_378_975_999_999_999

  /** TimeSpan.Milliseconds, .Seconds, .Minutes and .Hours of a non-negative
      span; whole days are dropped by .Hours. */
  function Milliseconds(ticks: nat): (r: nat)
    ensures r < 1000
  {
    (ticks / TicksPerMillisecond) % 1000
  }

  function Seconds(ticks: nat): (r: nat)
    ensures r < 60
  {
    (ticks / TicksPerSecond) % 60
  }

  function Minutes(ticks: nat): (r: nat)
    ensures r < 60
  {
    (ticks / TicksPerMinute) % 60
  }

  function Hours(ticks: nat): (r: nat)
    ensures r < 24
  {
    (ticks / TicksPerHour) % 24
  }

  /** The minutes field of the stamp, Minutes + 60 * Hours. */
  function StampMinutes(ticks: nat): nat {
    Minutes(ticks) + Hours(ticks) * 60
  }

  /** A quotient and remainder that add up to x are x / d and x % d. */
  lemma DivUnique(x: int, d: int, q: int, r: int)
    requires d > 0 && 0 <= r < d && x == q * d + r
    ensures x / d == q && x % d == r
  {
    var k := q - x / d;
    assert k * d == x % d - r by {
      assert x == (x / d) * d + x % d;
      assert q * d - (x / d) * d == k * d;
    }
  }

  /** Dividing by a then by b is dividing by a * b. */
  lemma DivDiv(x: nat, a: nat, b: nat)
    requires a > 0 && b > 0
    ensures x / a / b == x / (a * b)
  {
    var q := x / a / b;
    var r1 := x % a;
    var r2 := (x / a) % b;
    assert x == (x / a) * a + r1;
    assert x / a == q * b + r2;
    assert x == q * (a * b) + (r2 * a + r1) by {
      assert (q * b + r2) * a == q * (a * b) + r2 * a;
    }
    assert r2 * a + r1 < a * b by {
      assert r2 * a <= (b - 1) * a;
      assert (b - 1) * a + a == a * b;
    }
    DivUnique(x, a * b, q, r2 * a + r1);
  }

  /** (q % 60) + 60 * ((q / 60) % 24) is q % 1440. */
  lemma MixedRadix(q: nat)
    ensures q % 60 + 60 * ((q / 60) % 24) == q % 1440
  {
    var h := q / 60;
    assert q == 60 * h + q % 60;
    assert h == 24 * (h / 24) + h % 24;
    DivDiv(q, 60, 24);
    assert q == 1440 * (q / 1440) + (60 * (h % 24) + q % 60);
  }

  /** The stamp's minutes count the whole minutes of the position, modulo
      one day: positions a day or more long wrap around. */
  lemma {:induction false} StampMinutesWithinDay(ticks: nat)
    ensures StampMinutes(ticks) == (ticks / TicksPerMinute) % 1440
    ensures StampMinutes(ticks) < 1440
  {
    DivDiv(ticks, TicksPerMinute, 60);
    MixedRadix(ticks / TicksPerMinute);
  }

  predicate IsDigit(c: char) {
    '0' <= c <= '9'
  }

  predicate AllDigits(s: string) {
    forall j :: 0 <= j < |s| ==> IsDigit(s[j])
  }

  function DigitChar(d: nat): (c: char)
    requires d < 10
    ensures IsDigit(c)
  {
    ('0' as int + d) as char
  }

  function DigitValue(c: char): (d: nat)
    requires IsDigit(c)
    ensures d < 10
  {
    c as int - '0' as int
  }

  /** The decimal digits of n, without leading zeros. */
  function Digits(n: nat): (s: string)
    ensures |s| >= 1 && AllDigits(s)
  {
    if n < 10 then [DigitChar(n)] else Digits(n / 10) + [DigitChar(n % 10)]
  }

  function Zeros(k: nat): (s: string)
    ensures |s| == k && forall j :: 0 <= j < k ==> s[j] == '0'
  {
    seq(k, _ => '0')
  }

  /** n formatted with at least `width` digits ("{0:00}" is width 2). */
  function ZeroPad(n: nat, width: nat): (s: string)
    ensures AllDigits(s)
    ensures |s| == if |Digits(n)| < width then width else |Digits(n)|
  {
    var d := Digits(n);
    if |d| < width then Zeros(width - |d|) + d else d
  }

  /** The value of a string of decimal digits. */
  function ParseNat(s: string): nat
    requires AllDigits(s)
  {
    if s == [] then 0 else ParseNat(s[..|s| - 1]) * 10 + DigitValue(s[|s| - 1])
  }

  lemma {:induction false} ParseDigits(n: nat)
    ensures ParseNat(Digits(n)) == n
  {
    if n >= 10 {
      ParseDigits(n / 10);
      var s := Digits(n);
      assert s[..|s| - 1] == Digits(n / 10);
    }
  }

  lemma {:induction false} ParseLeadingZeros(k: nat, s: string)
    requires AllDigits(s)
    ensures ParseNat(Zeros(k) + s) == ParseNat(s)
    decreases |s|, k
  {
    if s == [] {
      assert Zeros(k) + s == Zeros(k);
      if k > 0 {
        assert Zeros(k)[..k - 1] == Zeros(k - 1);
        ParseLeadingZeros(k - 1, []);
        assert Zeros(k - 1) + [] == Zeros(k - 1);
      }
    } else {
      var t := Zeros(k) + s;
      assert t[..|t| - 1] == Zeros(k) + s[..|s| - 1];
      ParseLeadingZeros(k, s[..|s| - 1]);
    }
  }

  /** Zero padding does not change the value read back. */
  lemma ParseZeroPad(n: nat, width: nat)
    ensures ParseNat(ZeroPad(n, width)) == n
  {
    ParseDigits(n);
    var d := Digits(n);
    if |d| < width {
      ParseLeadingZeros(width - |d|, d);
    }
  }

  /** The stamp for a playback position of `ticks` (at most a DateTime's
      range): "[" minutes ":" seconds "." milliseconds "]", padded to 2, 2
      and 3 digits. */
  function FormatTimeStamp(ticks: nat): string {
    "[" + ZeroPad(StampMinutes(ticks), 2) + ":" + ZeroPad(Seconds(ticks), 2) + "."
        + ZeroPad(Milliseconds(ticks), 3) + "]"
  }

  /** The three numbers a stamp carries. */
  datatype Fields = Fields(minutes: nat, seconds: nat, milliseconds: nat)

  /** Reads "[" digits ":" digits "." digits "]" back into its fields. */
  function ParseTimeStamp(stamp: string): Option<Fields> {
    if |stamp| < 2 || stamp[0] != '[' || stamp[|stamp| - 1] != ']' then None
    else ParseBody(stamp[1..|stamp| - 1])
  }

  /** Reads digits ":" digits "." digits. */
  function ParseBody(body: string): Option<Fields> {
    var colon := IndexOf(body, ':');
    if colon < 0 then None else ParseRest(body[..colon], body[colon + 1..])
  }

  /** Reads digits "." digits after the minutes `m`. */
  function ParseRest(m: string, rest: string): Option<Fields> {
    var dot := IndexOf(rest, '.');
    if dot < 0 then None
    else
      var s := rest[..dot];
      var f := rest[dot + 1..];
      if AllDigits(m) && AllDigits(s) && AllDigits(f)
      then Some(Fields(ParseNat(m), ParseNat(s), ParseNat(f)))
      else None
  }

  lemma {:induction false} IndexOfAfter(a: string, ch: char, b: string)
    requires ch !in a
    ensures IndexOf(a + [ch] + b, ch) == |a|
  {
    if a != [] {
      assert (a + [ch] + b)[1..] == a[1..] + [ch] + b;
      IndexOfAfter(a[1..], ch, b);
    }
  }

  lemma DigitsExclude(d: string, ch: char)
    requires AllDigits(d) && !IsDigit(ch)
    ensures ch !in d
  {
  }

  lemma ParseRestAssembled(m: string, s: string, f: string)
    requires AllDigits(m) && AllDigits(s) && AllDigits(f)
    ensures ParseRest(m, s + ['.'] + f) == Some(Fields(ParseNat(m), ParseNat(s), ParseNat(f)))
  {
    DigitsExclude(s, '.');
    IndexOfAfter(s, '.', f);
    var rest := s + ['.'] + f;
    assert rest[..|s|] == s;
    assert rest[|s| + 1..] == f;
  }

  lemma ParseBodyAssembled(m: string, s: string, f: string)
    requires AllDigits(m) && AllDigits(s) && AllDigits(f)
    ensures ParseBody(m + [':'] + (s + ['.'] + f))
      == Some(Fields(ParseNat(m), ParseNat(s), ParseNat(f)))
  {
    DigitsExclude(m, ':');
    var rest := s + ['.'] + f;
    IndexOfAfter(m, ':', rest);
    var body := m + [':'] + rest;
    assert body[..|m|] == m;
    assert body[|m| + 1..] == rest;
    ParseRestAssembled(m, s, f);
  }

  lemma Bracketed(body: string)
    ensures ParseTimeStamp("[" + body + "]") == ParseBody(body)
  {
    var stamp := "[" + body + "]";
    assert stamp[1..|stamp| - 1] == body;
  }

  lemma Regroup(m: string, s: string, f: string)
    ensures "[" + m + ":" + s + "." + f + "]" == "[" + (m + [':'] + (s + ['.'] + f)) + "]"
  {
  }

  /** Parsing a stamp assembled from three digit strings gives their values. */
  lemma ParseAssembled(m: string, s: string, f: string)
    requires AllDigits(m) && AllDigits(s) && AllDigits(f)
    ensures ParseTimeStamp("[" + m + ":" + s + "." + f + "]")
      == Some(Fields(ParseNat(m), ParseNat(s), ParseNat(f)))
  {
    Regroup(m, s, f);
    Bracketed(m + [':'] + (s + ['.'] + f));
    ParseBodyAssembled(m, s, f);
  }

  /** Reading a stamp gives back the minutes, seconds and milliseconds it was
      made from. */
  lemma TimeStampRoundTrip(ticks: nat)
    ensures ParseTimeStamp(FormatTimeStamp(ticks))
      == Some(Fields(StampMinutes(ticks), Seconds(ticks), Milliseconds(ticks)))
  {
    ParseAssembled(ZeroPad(StampMinutes(ticks), 2), ZeroPad(Seconds(ticks), 2), ZeroPad(Milliseconds(ticks), 3));
    ParseZeroPad(StampMinutes(ticks), 2);
    ParseZeroPad(Seconds(ticks), 2);
    ParseZeroPad(Milliseconds(ticks), 3);
  }

  /** A stamp built from digit strings opens with '[', closes with its only
      ']', holds no line break and is not blank. */
  lemma AssembledShape(m: string, s: string, f: string)
    requires AllDigits(m) && AllDigits(s) && AllDigits(f)
    ensures var stamp := "[" + m + ":" + s + "." + f + "]";
      && |stamp| >= 2 && stamp[0] == '['
      && stamp[|stamp| - 1] == ']' && ']' !in stamp[..|stamp| - 1]
      && '\n' !in stamp && !IsBlank(stamp)
  {
    var stamp := "[" + m + ":" + s + "." + f + "]";
    forall j | 0 <= j < |stamp| - 1
      ensures stamp[j] != ']' && stamp[j] != '\n'
    {
      if 1 <= j < 1 + |m| {
        assert stamp[j] == m[j - 1];
      } else if 2 + |m| <= j < 2 + |m| + |s| {
        assert stamp[j] == s[j - 2 - |m|];
      } else if 3 + |m| + |s| <= j < 3 + |m| + |s| + |f| {
        assert stamp[j] == f[j - 3 - |m| - |s|];
      }
    }
    assert !IsWhiteSpace(stamp[0]);
  }

  /** The same for the stamp of a playback position. */
  lemma TimeStampShape(ticks: nat)
    ensures var stamp := FormatTimeStamp(ticks);
      && |stamp| >= 2 && stamp[0] == '['
      && stamp[|stamp| - 1] == ']' && ']' !in stamp[..|stamp| - 1]
      && '\n' !in stamp && !IsBlank(stamp)
  {
    AssembledShape(ZeroPad(StampMinutes(ticks), 2), ZeroPad(Seconds(ticks), 2),
      ZeroPad(Milliseconds(ticks), 3));
  }

  /** Re-stamping a stamped line: StripTag removes exactly the old stamp. */
  lemma StripTagAfterStamp(ticks: nat, rest: string)
    ensures StripTag(FormatTimeStamp(ticks) + rest) == rest
  {
    var stamp := FormatTimeStamp(ticks);
    TimeStampShape(ticks);
    var line := stamp + rest;
    assert line[0] == '[' && line[|stamp| - 1] == ']';
    assert line[..|stamp| - 1] == stamp[..|stamp| - 1];
    StripTagCases(line);
    assert line[|stamp|..] == rest;
  }
}
