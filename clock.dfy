/**
 * `formatTime` (src/components/Clock.tsx; the admin page inlines the same expression):
 * seconds shown as minutes and seconds, each part padded with '0' to two characters.
 */
module Clock {
  import opened Wrappers

  function DigitChar(d: int): char
    requires 0 <= d < 10
  {
    ('0' as int + d) as char
  }

  predicate IsDigit(c: char) {
    '0' <= c <= '9'
  }

  predicate AllDigits(s: string) {
    forall i :: 0 <= i < |s| ==> IsDigit(s[i])
  }

  function DigitValue(c: char): int
    requires IsDigit(c)
  {
    c as int - '0' as int
  }

  /** The number a string of decimal digits spells, most significant digit first. */
  function DigitsValue(s: string): int
    requires AllDigits(s)
  {
    if s == [] then 0 else DigitsValue(s[..|s| - 1]) * 10 + DigitValue(s[|s| - 1])
  }

  lemma DigitRoundTrip(d: int)
    requires 0 <= d < 10
    ensures IsDigit(DigitChar(d)) && DigitValue(DigitChar(d)) == d
  {
  }

  /** The decimal digits of a non-negative integer. */
  function Digits(n: nat): (r: string)
    ensures |r| >= 1 && AllDigits(r)
    ensures |r| == 1 <==> n < 10
  {
    if n < 10 then [DigitChar(n)] else Digits(n / 10) + [DigitChar(n % 10)]
  }

  /** The digits spell `n` back, with no leading zero. */
  lemma {:induction false} DigitsSpell(n: nat)
    ensures DigitsValue(Digits(n)) == n
    ensures n > 0 ==> Digits(n)[0] != '0'
  {
    var r := Digits(n);
    if n < 10 {
      DigitRoundTrip(n);
      assert r[..0] == [];
    } else {
      DigitsSpell(n / 10);
      DigitRoundTrip(n % 10);
      assert r[..|r| - 1] == Digits(n / 10);
    }
  }

  /** `Number.prototype.toString()` for an integer: a '-' exactly for negatives, then digits. */
  function NumberToString(n: int): (r: string)
    ensures |r| >= 1 && (r[0] == '-' <==> n < 0)
    ensures forall i :: 0 < i < |r| ==> IsDigit(r[i])
  {
    if n < 0 then "-" + Digits(-n) else Digits(n)
  }

  /** What follows the sign spells the magnitude of `n`. */
  lemma NumberToStringSpells(n: int)
    ensures n >= 0 ==> DigitsValue(NumberToString(n)) == n
    ensures n < 0 ==> DigitsValue(NumberToString(n)[1..]) == -n
  {
    if n < 0 {
      DigitsSpell(-n);
      assert NumberToString(n)[1..] == Digits(-n);
    } else {
      DigitsSpell(n);
    }
  }

  /** `padStart(2, '0')`. */
  function PadStart2(s: string): (r: string)
    ensures |s| >= 2 ==> r == s
    ensures |s| < 2 ==> |r| == 2 && r[2 - |s|..] == s && forall i :: 0 <= i < 2 - |s| ==> r[i] == '0'
  {
    if |s| >= 2 then s else if |s| == 1 then "0" + s else "00"
  }

  /** JavaScript's truncating quotient, the `q` with `a == b * q + a % b` in JavaScript. */
  function JsQuotient(a: int, b: int): int
    requires b > 0
  {
    if a >= 0 then a / b else -((-a) / b)
  }

  /** JavaScript's `%`: what is left of `a` after the truncating quotient, with the sign of `a`. */
  function JsRemainder(a: int, b: int): (r: int)
    requires b > 0
    ensures a == b * JsQuotient(a, b) + r && -b < r < b
    ensures a >= 0 ==> r >= 0
    ensures a < 0 ==> r <= 0
  {
    if a >= 0 then a % b else -((-a) % b)
  }

  /** `Math.floor(t / 60)` and `t % 60`. */
  function Split(t: int): (r: (int, int))
    ensures r.0 * 60 <= t < r.0 * 60 + 60
    ensures t >= 0 ==> 0 <= r.1 < 60 && r.0 * 60 + r.1 == t
    ensures t < 0 ==> -60 < r.1 <= 0 && (t - r.1) % 60 == 0
  {
    (t / 60, JsRemainder(t, 60))
  }

  /** A number below 100 renders as its two digits, padded when it is below ten. */
  lemma TwoDigits(n: nat)
    requires n < 100
    ensures PadStart2(NumberToString(n)) == [DigitChar(n / 10), DigitChar(n % 10)]
  {
    if n >= 10 {
      assert Digits(n / 10) == [DigitChar(n / 10)];
    }
  }

  /** A padded non-negative number is all digits and still spells the number. */
  lemma PaddedNumber(n: nat)
    ensures var p := PadStart2(NumberToString(n));
      |p| >= 2 && AllDigits(p) && DigitsValue(p) == n
  {
    if n < 10 {
      TwoDigits(n);
      DigitRoundTrip(0);
      DigitRoundTrip(n);
      assert n / 10 == 0 && n % 10 == n;
      var p := [DigitChar(0), DigitChar(n)];
      assert PadStart2(NumberToString(n)) == p;
      assert p[..1] == [DigitChar(0)] && p[..1][..0] == [];
      assert DigitsValue(p[..1]) == 0;
    } else {
      NumberToStringSpells(n);
    }
  }

  /** The minutes and the seconds, each padded to two characters, around a ':'. */
  function Render(minutes: int, secs: int): string {
    PadStart2(NumberToString(minutes)) + ":" + PadStart2(NumberToString(secs))
  }

  /** Below 100 minutes and 60 seconds the rendering is the two digits of each part. */
  lemma RenderShort(m: int, s: int)
    requires 0 <= m < 100 && 0 <= s < 60
    ensures Render(m, s) == [DigitChar(m / 10), DigitChar(m % 10), ':', DigitChar(s / 10), DigitChar(s % 10)]
  {
    var left, right := PadStart2(NumberToString(m)), PadStart2(NumberToString(s));
    assert left == [DigitChar(m / 10), DigitChar(m % 10)] by { TwoDigits(m); }
    assert right == [DigitChar(s / 10), DigitChar(s % 10)] by { TwoDigits(s); }
    assert Render(m, s) == left + ":" + right;
  }

  /** A rendering of non-negative parts is digits, ':' and two digits. */
  lemma RenderShape(m: nat, s: nat)
    requires s < 60
    ensures var r := Render(m, s);
      |r| >= 5 && r[|r| - 3] == ':' && AllDigits(r[..|r| - 3]) && AllDigits(r[|r| - 2..]) &&
      r[..|r| - 3] == PadStart2(NumberToString(m)) && r[|r| - 2..] == PadStart2(NumberToString(s))
  {
    var left, right := PadStart2(NumberToString(m)), PadStart2(NumberToString(s));
    TwoDigits(s);
    var r := left + ":" + right;
    assert r[..|r| - 3] == left;
    assert r[|r| - 2..] == right;
  }

  /** ... and the two digit runs spell the two parts. */
  lemma RenderReadsBack(m: nat, s: nat)
    requires s < 60
    ensures var r := Render(m, s);
      |r| >= 5 && AllDigits(r[..|r| - 3]) && AllDigits(r[|r| - 2..]) &&
      DigitsValue(r[..|r| - 3]) == m && DigitsValue(r[|r| - 2..]) == s
  {
    RenderShape(m, s);
    PaddedNumber(m);
    PaddedNumber(s);
  }

  /** For t >= 0 the display is digits, ':' and two digits. */
  function FormatTime(t: int): (r: string)
    ensures t >= 0 ==> |r| >= 5 && r[|r| - 3] == ':' && forall i :: 0 <= i < |r| && i != |r| - 3 ==> IsDigit(r[i])
  {
    var (minutes, secs) := Split(t);
    if t >= 0 then
      RenderShape(minutes, secs);
      Render(minutes, secs)
    else Render(minutes, secs)
  }

  /** For t >= 0 the display is the rendering of `t / 60` and `t % 60`. */
  lemma FormatIsRender(t: int)
    requires t >= 0
    ensures t / 60 >= 0 && 0 <= t % 60 < 60 && FormatTime(t) == Render(t / 60, t % 60)
  {
    assert Split(t) == (t / 60, t % 60);
  }

  /**
   * Reading any display back: digits, ':' and two digits give minutes * 60 + seconds.
   * Unlike `ParseClock` this also reads displays of 100 minutes or more.
   */
  function ReadClock(s: string): Option<int> {
    if |s| >= 4 && s[|s| - 3] == ':' && AllDigits(s[..|s| - 3]) && AllDigits(s[|s| - 2..]) then
      Some(DigitsValue(s[..|s| - 3]) * 60 + DigitsValue(s[|s| - 2..]))
    else None
  }

  lemma RenderReadClock(m: nat, s: nat)
    requires s < 60
    ensures ReadClock(Render(m, s)) == Some(m * 60 + s)
  {
    RenderReadsBack(m, s);
  }

  /** The display of any t >= 0 reads back as t. */
  lemma FormatTimeReadsBack(t: int)
    requires t >= 0
    ensures ReadClock(FormatTime(t)) == Some(t)
  {
    var m, sec := t / 60, t % 60;
    FormatIsRender(t);
    RenderReadClock(m, sec);
  }

  /** Below 100 minutes the clock reads `MM:SS`. */
  lemma FormatShortTimes(t: int)
    requires 0 <= t < 6000
    ensures var m := t / 60; var s := t % 60;
      FormatTime(t) == [DigitChar(m / 10), DigitChar(m % 10), ':', DigitChar(s / 10), DigitChar(s % 10)]
  {
    var m, sec := t / 60, t % 60;
    assert FormatTime(t) == Render(m, sec) by { FormatIsRender(t); }
    RenderShort(m, sec);
  }

  /**
   * Reading a `MM:SS` display back into seconds. This is `ReadClock` narrowed to exactly five
   * characters (`ParseClockIsReadClock`); it is kept beside `ReadClock` because below 100
   * minutes the display is always five characters, and `ParseClockRoundTrip` states that every
   * such string with seconds below 60 is a display, which of the open-ended reader is false
   * (`ReadClock` accepts leading zeros such as `"007:05"`, which `FormatTime` never shows).
   */
  function ParseClock(s: string): Option<int> {
    if |s| == 5 && IsDigit(s[0]) && IsDigit(s[1]) && s[2] == ':' && IsDigit(s[3]) && IsDigit(s[4]) then
      Some((DigitValue(s[0]) * 10 + DigitValue(s[1])) * 60 + DigitValue(s[3]) * 10 + DigitValue(s[4]))
    else None
  }

  /** Two digits spell ten times the first plus the second. */
  lemma TwoDigitsValue(s: string)
    requires |s| == 2 && AllDigits(s)
    ensures DigitsValue(s) == DigitValue(s[0]) * 10 + DigitValue(s[1])
  {
    var head := s[..|s| - 1];
    assert head == [s[0]];
    assert head[..|head| - 1] == [];
    assert DigitsValue(head) == DigitValue(s[0]);
  }

  /** On five characters the two readers agree; on any other length `ParseClock` refuses. */
  lemma ParseClockIsReadClock(s: string)
    ensures ParseClock(s) == if |s| == 5 then ReadClock(s) else None
  {
    if |s| == 5 && s[2] == ':' && AllDigits(s[..2]) && AllDigits(s[3..]) {
      assert s[..|s| - 3] == s[..2] && s[|s| - 2..] == s[3..];
      TwoDigitsValue(s[..2]);
      TwoDigitsValue(s[3..]);
      assert s[..2][0] == s[0] && s[..2][1] == s[1] && s[3..][0] == s[3] && s[3..][1] == s[4];
    } else if |s| == 5 {
      assert s[|s| - 3] == s[2];
      if IsDigit(s[0]) && IsDigit(s[1]) && IsDigit(s[3]) && IsDigit(s[4]) {
        assert AllDigits(s[..2]) && AllDigits(s[3..]);
      }
    }
  }

  /** A five-character display built from four digits parses to the time they spell. */
  lemma ParseFive(a: int, b: int, c: int, d: int)
    requires 0 <= a < 10 && 0 <= b < 10 && 0 <= c < 10 && 0 <= d < 10
    ensures ParseClock([DigitChar(a), DigitChar(b), ':', DigitChar(c), DigitChar(d)]) == Some((a * 10 + b) * 60 + c * 10 + d)
  {
    DigitRoundTrip(a);
    DigitRoundTrip(b);
    DigitRoundTrip(c);
    DigitRoundTrip(d);
  }

  /** For `0 <= t < 6000` the display has five characters and reads back as `t`. */
  lemma FormatTimeRoundTrip(t: int)
    requires 0 <= t < 6000
    ensures |FormatTime(t)| == 5 && FormatTime(t)[2] == ':'
    ensures ParseClock(FormatTime(t)) == Some(t) && ReadClock(FormatTime(t)) == Some(t)
  {
    FormatTimeReadsBack(t);
    var m, s := t / 60, t % 60;
    var shown := [DigitChar(m / 10), DigitChar(m % 10), ':', DigitChar(s / 10), DigitChar(s % 10)];
    assert FormatTime(t) == shown by { FormatShortTimes(t); }
    assert ParseClock(shown) == Some((m / 10 * 10 + m % 10) * 60 + s / 10 * 10 + s % 10) by {
      ParseFive(m / 10, m % 10, s / 10, s % 10);
    }
    assert (m / 10 * 10 + m % 10) * 60 + s / 10 * 10 + s % 10 == t;
  }

  lemma CharRoundTrip(c: char)
    requires IsDigit(c)
    ensures 0 <= DigitValue(c) < 10 && DigitChar(DigitValue(c)) == c
  {
  }

  lemma DivModUnique(t: int, m: int, sec: int)
    requires t == m * 60 + sec && 0 <= sec < 60
    ensures t / 60 == m && t % 60 == sec
  {
  }

  lemma DivModUnique10(hi: int, lo: int)
    requires 0 <= lo < 10
    ensures (hi * 10 + lo) / 10 == hi && (hi * 10 + lo) % 10 == lo
  {
  }

  /** Four digits, the third below 6, are the display of the time they spell. */
  lemma FormatFive(a: int, b: int, c: int, d: int)
    requires 0 <= a < 10 && 0 <= b < 10 && 0 <= c < 6 && 0 <= d < 10
    ensures FormatTime((a * 10 + b) * 60 + c * 10 + d) == [DigitChar(a), DigitChar(b), ':', DigitChar(c), DigitChar(d)]
  {
    var m, sec := a * 10 + b, c * 10 + d;
    assert m / 10 == a && m % 10 == b by { DivModUnique10(a, b); }
    assert sec / 10 == c && sec % 10 == d by { DivModUnique10(c, d); }
    var t := (a * 10 + b) * 60 + c * 10 + d;
    assert t / 60 == m && t % 60 == sec by { DivModUnique(t, m, sec); }
    assert FormatTime(t) == Render(m, sec) by { FormatIsRender(t); }
    assert Render(m, sec) == [DigitChar(a), DigitChar(b), ':', DigitChar(c), DigitChar(d)] by { RenderShort(m, sec); }
  }

  /** Conversely every `MM:SS` display with seconds below 60 is what some time formats to. */
  lemma ParseClockRoundTrip(s: string)
    requires ParseClock(s).Some? && s[3] <= '5'
    ensures 0 <= ParseClock(s).value < 6000 && FormatTime(ParseClock(s).value) == s
  {
    var d0, d1, d3, d4 := DigitValue(s[0]), DigitValue(s[1]), DigitValue(s[3]), DigitValue(s[4]);
    assert s == [DigitChar(d0), DigitChar(d1), ':', DigitChar(d3), DigitChar(d4)] by {
      CharRoundTrip(s[0]);
      CharRoundTrip(s[1]);
      CharRoundTrip(s[3]);
      CharRoundTrip(s[4]);
      assert s == [s[0], s[1], s[2], s[3], s[4]];
    }
    var t := (d0 * 10 + d1) * 60 + d3 * 10 + d4;
    assert ParseClock(s) == Some(t);
    assert 0 <= d0 < 10 && 0 <= d1 < 10 && 0 <= d3 < 6 && 0 <= d4 < 10;
    assert FormatTime(t) == [DigitChar(d0), DigitChar(d1), ':', DigitChar(d3), DigitChar(d4)] by {
      FormatFive(d0, d1, d3, d4);
    }
  }

  lemma LongDigits(n: nat)
    requires n >= 100
    ensures |Digits(n)| >= 3
  {
    assert Digits(n) == Digits(n / 10) + [DigitChar(n % 10)];
  }

  /**
   * From 100 minutes on the minutes are shown unpadded: the display is the decimal digits
   * of the minutes, ':', and the two digits of the seconds.
   */
  lemma FormatLongTimes(t: int)
    requires t >= 6000
    ensures var s := t % 60;
      FormatTime(t) == Digits(t / 60) + ":" + [DigitChar(s / 10), DigitChar(s % 10)]
    ensures |FormatTime(t)| >= 6
  {
    var m, sec := t / 60, t % 60;
    assert FormatTime(t) == Render(m, sec) by { FormatIsRender(t); }
    assert |Digits(m)| >= 3 by { LongDigits(m); }
    assert PadStart2(NumberToString(sec)) == [DigitChar(sec / 10), DigitChar(sec % 10)] by { TwoDigits(sec); }
    assert PadStart2(NumberToString(m)) == Digits(m);
  }

  /** A negative countdown (reachable through a merge) is shown with JavaScript's signed remainder. */
  lemma FormatNegativeTime()
    ensures FormatTime(-1) == "-1:-1"
    ensures FormatTime(-61) == "-2:-1"
  {
    assert Digits(1) == "1" && Digits(2) == "2";
    assert NumberToString(-1) == "-1" && NumberToString(-2) == "-2";
    assert Split(-1) == (-1, -1) && Split(-61) == (-2, -1);
    assert FormatTime(-1) == Render(-1, -1);
    assert FormatTime(-61) == Render(-2, -1);
  }
}
