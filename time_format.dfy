/**
 * Fixed-width formatting of the game time stamped on every recorded segment
 * (Component.FormatTime). The host hands over a .NET TimeSpan; it is modelled
 * by its tick count (100 ns units), and the format string
 * "{Hours:D2}:{Minutes:D2}:{Seconds:D2}.{Milliseconds:D3}" reads the four
 * TimeSpan components, so whole days are dropped.
 */
module TimeFormat {

  import opened Wrappers

  const TicksPerMillisecond: nat := 10_000
  const TicksPerSecond: nat := 10_000_000
  const TicksPerMinute: nat := 600_000_000
  const TicksPerHour: nat := 36_000_000_000
  const TicksPerDay: nat := 864_000_000_000
  const MillisecondsPerDay: nat := 86_400_000

  // The TimeSpan component properties of a non-negative span.
  function Hours(t: nat): nat { (t / TicksPerHour) % 24 }
  function Minutes(t: nat): nat { (t / TicksPerMinute) % 60 }
  function Seconds(t: nat): nat { (t / TicksPerSecond) % 60 }
  function Milliseconds(t: nat): nat { (t / TicksPerMillisecond) % 1000 }

  predicate IsDigit(c: char) { '0' <= c <= '9' }

  predicate AllDigits(s: string) {
    forall i :: 0 <= i < |s| ==> IsDigit(s[i])
  }

  function DigitChar(d: nat): (c: char)
    requires d < 10
    ensures IsDigit(c)
  {
    "0123456789"[d]
  }

  function DigitValue(c: char): nat
    requires IsDigit(c)
  {
    c as int - '0' as int
  }

  function Pow10(k: nat): (p: nat)
    ensures 1 <= p
  {
    if k == 0 then 1 else 10 * Pow10(k - 1)
  }

  /** Shortest decimal spelling of n, most significant digit first ("0" for zero). */
  function Decimal(n: nat): (s: string)
    ensures 1 <= |s| && AllDigits(s)
  {
    if n < 10 then [DigitChar(n)] else Decimal(n / 10) + [DigitChar(n % 10)]
  }

  /** The number a string of decimal digits denotes (leading zeros allowed). */
  function ValueOf(s: string): nat
    requires AllDigits(s)
  {
    if s == [] then 0 else ValueOf(s[..|s| - 1]) * 10 + DigitValue(s[|s| - 1])
  }

  function Zeros(k: nat): (s: string)
    ensures |s| == k && AllDigits(s)
    ensures forall i :: 0 <= i < k ==> s[i] == '0'
  {
    seq(k, _ => '0')
  }

  /** The .NET "D<width>" standard format of a non-negative integer. */
  function PadDecimal(n: nat, width: nat): (s: string)
    ensures AllDigits(s)
    ensures 1 <= width && n < Pow10(width) ==> |s| == width
  {
    var d := Decimal(n);
    assert 1 <= width && n < Pow10(width) ==> |d| <= width by {
      if 1 <= width && n < Pow10(width) {
        DecimalLength(n, width);
      }
    }
    if |d| < width then Zeros(width - |d|) + d else d
  }

  /**
   * Component.FormatTime: "HH:MM:SS.mmm" for a TimeSpan of t ticks, each
   * field zero-padded to its full width.
   */
  function FormatTime(t: nat): (s: string)
    ensures |s| == 12 && s[2] == ':' && s[5] == ':' && s[8] == '.'
    ensures forall i :: 0 <= i < |s| && i != 2 && i != 5 && i != 8 ==> IsDigit(s[i])
  {
    var hh, mm, ss, ms := PadDecimal(Hours(t), 2), PadDecimal(Minutes(t), 2),
                          PadDecimal(Seconds(t), 2), PadDecimal(Milliseconds(t), 3);
    assert Pow10(2) == 100 && Pow10(3) == 1000;
    assert |hh| == 2 && |mm| == 2 && |ss| == 2 && |ms| == 3;
    hh + ":" + mm + ":" + ss + "." + ms
  }

  /**
   * Reads an "HH:MM:SS.mmm" stamp back as milliseconds since midnight; the
   * independent partner of FormatTime.
   */
  function ParseTime(s: string): Option<nat> {
    if |s| == 12 && s[2] == ':' && s[5] == ':' && s[8] == '.'
       && AllDigits(s[0..2]) && AllDigits(s[3..5]) && AllDigits(s[6..8]) && AllDigits(s[9..12])
       && ValueOf(s[0..2]) < 24 && ValueOf(s[3..5]) < 60 && ValueOf(s[6..8]) < 60
    then
      Some(((ValueOf(s[0..2]) * 60 + ValueOf(s[3..5])) * 60 + ValueOf(s[6..8])) * 1000 + ValueOf(s[9..12]))
    else
      None
  }

  lemma {:induction false} ValueOfDecimal(n: nat)
    ensures ValueOf(Decimal(n)) == n
  {
    if n >= 10 {
      var d := Decimal(n);
      assert d[..|d| - 1] == Decimal(n / 10);
      ValueOfDecimal(n / 10);
    }
  }

  lemma {:induction false} DecimalLength(n: nat, k: nat)
    requires 1 <= k && n < Pow10(k)
    ensures |Decimal(n)| <= k
  {
    if n >= 10 {
      DecimalLength(n / 10, k - 1);
    }
  }

  lemma {:induction false} ValueOfZeros(k: nat)
    ensures ValueOf(Zeros(k)) == 0
  {
    if k > 0 {
      assert Zeros(k)[..k - 1] == Zeros(k - 1);
      ValueOfZeros(k - 1);
    }
  }

  lemma {:induction false} ValueOfLeadingZeros(k: nat, s: string)
    requires AllDigits(s)
    ensures ValueOf(Zeros(k) + s) == ValueOf(s)
  {
    if s == [] {
      assert Zeros(k) + s == Zeros(k);
      ValueOfZeros(k);
    } else {
      var z := Zeros(k) + s;
      assert z[..|z| - 1] == Zeros(k) + s[..|s| - 1];
      ValueOfLeadingZeros(k, s[..|s| - 1]);
    }
  }

  /** "D<width>" of a number with at most width digits has exactly width characters and denotes it. */
  lemma PadDecimalExact(n: nat, width: nat)
    requires 1 <= width && n < Pow10(width)
    ensures |PadDecimal(n, width)| == width
    ensures ValueOf(PadDecimal(n, width)) == n
  {
    var d := Decimal(n);
    DecimalLength(n, width);
    ValueOfDecimal(n);
    if |d| < width {
      ValueOfLeadingZeros(width - |d|, d);
    }
  }

  /**
   * Every stamp is 12 characters, "HH:MM:SS.mmm", and reading it back gives
   * the four TimeSpan components.
   */
  lemma FormatTimeShape(t: nat)
    ensures var s := FormatTime(t);
      && |s| == 12 && s[2] == ':' && s[5] == ':' && s[8] == '.'
      && AllDigits(s[0..2]) && AllDigits(s[3..5]) && AllDigits(s[6..8]) && AllDigits(s[9..12])
      && ValueOf(s[0..2]) == Hours(t) && ValueOf(s[3..5]) == Minutes(t)
      && ValueOf(s[6..8]) == Seconds(t) && ValueOf(s[9..12]) == Milliseconds(t)
  {
    var hh, mm, ss, ms := PadDecimal(Hours(t), 2), PadDecimal(Minutes(t), 2),
                          PadDecimal(Seconds(t), 2), PadDecimal(Milliseconds(t), 3);
    PadDecimalExact(Hours(t), 2);
    PadDecimalExact(Minutes(t), 2);
    PadDecimalExact(Seconds(t), 2);
    PadDecimalExact(Milliseconds(t), 3);
    StampFields(hh, mm, ss, ms);
  }

  /** The four fields of a stamp sit at positions 0..2, 3..5, 6..8 and 9..12. */
  lemma StampFields(hh: string, mm: string, ss: string, ms: string)
    requires |hh| == 2 && |mm| == 2 && |ss| == 2 && |ms| == 3
    ensures var s := hh + ":" + mm + ":" + ss + "." + ms;
      s[0..2] == hh && s[3..5] == mm && s[6..8] == ss && s[9..12] == ms
  {
    var s2 := hh + ":" + mm;
    assert s2[0..2] == hh && s2[3..5] == mm;
    var s3 := s2 + ":" + ss;
    assert s3[0..5] == s2 && s3[6..8] == ss;
    var s := s3 + "." + ms;
    assert s[0..8] == s3 && s[9..12] == ms;
    assert s[0..2] == s3[0..2] == s2[0..2];
    assert s[3..5] == s3[3..5] == s2[3..5];
    assert s[6..8] == s3[6..8];
  }

  lemma MulMonotone(a: nat, b: nat, d: nat)
    requires a <= b
    ensures a * d <= b * d
  {
    assert b * d == a * d + (b - a) * d;
  }

  /** Division has one quotient and remainder. */
  lemma DivModUnique(x: nat, d: nat, q: nat, r: nat)
    requires 0 < d && x == q * d + r && r < d
    ensures x / d == q && x % d == r
  {
    var q', r' := x / d, x % d;
    assert x == q' * d + r';
    if q' < q {
      MulMonotone(q' + 1, q, d);
    } else if q < q' {
      MulMonotone(q + 1, q', d);
    }
  }

  /** Two nested quotient-remainder splits combine into one. */
  lemma CombineSplits(a: nat, b: nat, q: nat, r: nat, q2: nat, r2: nat)
    requires r < a && r2 < b && q == q2 * b + r2
    ensures q * a + r == q2 * (a * b) + (r2 * a + r)
    ensures r2 * a + r < a * b
  {
    calc {
      q * a;
      (q2 * b + r2) * a;
      (q2 * b) * a + r2 * a;
      q2 * (a * b) + r2 * a;
    }
    MulMonotone(r2 + 1, b, a);
  }

  lemma DivDiv(x: nat, a: nat, b: nat)
    requires 0 < a && 0 < b
    ensures x / a / b == x / (a * b)
  {
    var q, r := x / a, x % a;
    var q2, r2 := q / b, q % b;
    CombineSplits(a, b, q, r, q2, r2);
    DivModUnique(x, a * b, q2, r2 * a + r);
  }

  lemma DivAddMultiple(x: nat, k: nat, d: nat)
    requires 0 < d
    ensures (x + k * d) / d == x / d + k
    ensures (x + k * d) % d == x % d
  {
    DivModUnique(x + k * d, d, x / d + k, x % d);
  }

  /** The four components spell out the millisecond of the day. */
  lemma ComponentsMakeTimeOfDay(t: nat)
    ensures ((Hours(t) * 60 + Minutes(t)) * 60 + Seconds(t)) * 1000 + Milliseconds(t)
            == (t / TicksPerMillisecond) % MillisecondsPerDay
  {
    var u := t / TicksPerMillisecond;
    var q1 := u / 1000;
    var q2 := q1 / 60;
    var q3 := q2 / 60;
    var q4 := q3 / 24;
    DivDiv(t, TicksPerMillisecond, 1000);
    DivDiv(t, TicksPerSecond, 60);
    DivDiv(t, TicksPerMinute, 60);
    assert t / TicksPerSecond == q1;
    assert t / TicksPerMinute == q2;
    assert t / TicksPerHour == q3;
    var h, m, c, ms := q3 % 24, q2 % 60, q1 % 60, u % 1000;
    assert u == q1 * 1000 + ms;
    assert q1 == q2 * 60 + c;
    assert q2 == q3 * 60 + m;
    assert q3 == q4 * 24 + h;
    var r := ((h * 60 + m) * 60 + c) * 1000 + ms;
    assert u == q4 * MillisecondsPerDay + r;
    assert r < MillisecondsPerDay by {
      assert h * 60 + m <= 23 * 60 + 59;
      assert (h * 60 + m) * 60 + c <= (23 * 60 + 59) * 60 + 59;
    }
    DivModUnique(u, MillisecondsPerDay, q4, r);
  }

  /** Round trip: parsing a formatted stamp gives the millisecond of the day it was taken. */
  lemma ParseFormatTime(t: nat)
    ensures ParseTime(FormatTime(t)) == Some((t / TicksPerMillisecond) % MillisecondsPerDay)
  {
    FormatTimeShape(t);
    ComponentsMakeTimeOfDay(t);
  }

  /** Whole days do not show: a span one day longer is stamped the same. */
  lemma FormatTimeDropsDays(t: nat)
    ensures FormatTime(t + TicksPerDay) == FormatTime(t)
  {
    var t' := t + TicksPerDay;
    DivAddMultiple(t, 24, TicksPerHour);
    DivAddMultiple(t / TicksPerHour, 1, 24);
    assert Hours(t') == Hours(t);
    DivAddMultiple(t, 1440, TicksPerMinute);
    DivAddMultiple(t / TicksPerMinute, 24, 60);
    assert Minutes(t') == Minutes(t);
    DivAddMultiple(t, 86_400, TicksPerSecond);
    DivAddMultiple(t / TicksPerSecond, 1440, 60);
    assert Seconds(t') == Seconds(t);
    DivAddMultiple(t, MillisecondsPerDay, TicksPerMillisecond);
    DivAddMultiple(t / TicksPerMillisecond, 86_400, 1000);
    assert Milliseconds(t') == Milliseconds(t);
  }

  /** 1 h 2 min 3 s 4 ms is stamped "01:02:03.004". */
  lemma FormatTimeExample()
    ensures FormatTime(37_230_040_000) == "01:02:03.004"
  {
    var t := 37_230_040_000;
    assert Hours(t) == 1 && Minutes(t) == 2 && Seconds(t) == 3 && Milliseconds(t) == 4;
    assert Decimal(1) == "1" && Decimal(2) == "2" && Decimal(3) == "3" && Decimal(4) == "4";
    assert Zeros(1) == "0" && Zeros(2) == "00";
  }
}
