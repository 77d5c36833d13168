/**
 * Decimal formatting of clock fields (src/utils/timeSync.ts):
 * `formatTimeValue` renders an integer with `toString()` and left-pads it
 * with '0' to two characters; `getMillisecondsUntilNextMinute` is modelled
 * over the seconds and milliseconds of the current instant.
 */
module TimeSync {

  predicate IsDigit(c: char) {
    '0' <= c <= '9'
  }

  /** The numeric value of a decimal digit character. */
  function DigitValue(c: char): (d: nat)
    requires IsDigit(c)
    ensures d < 10
  {
    c as int - '0' as int
  }

  /** The character that spells the decimal digit `d`. */
  function DigitChar(d: nat): (c: char)
    requires d < 10
    ensures IsDigit(c) && DigitValue(c) == d
  {
    ('0' as int + d) as char
  }

  /** Decimal spelling of a natural number, most significant digit first, no leading zeros. */
  function NatString(n: nat): (s: string)
    ensures 1 <= |s|
    decreases n
  {
    if n < 10 then [DigitChar(n)] else NatString(n / 10) + [DigitChar(n % 10)]
  }

  /** The spelling uses decimal digits only, has no leading zero and at least two digits from 10 on. */
  lemma {:induction false} NatStringShape(n: nat)
    ensures forall i :: 0 <= i < |NatString(n)| ==> IsDigit(NatString(n)[i])
    ensures n > 0 ==> NatString(n)[0] != '0'
    ensures n >= 10 <==> |NatString(n)| >= 2
    decreases n
  {
    if n >= 10 {
      NatStringShape(n / 10);
    }
  }

  /** `Number.prototype.toString()` on an integer: a minus sign for negatives. */
  function DecimalString(v: int): (r: string)
    ensures v >= 0 ==> r == NatString(v)
    ensures v < 0 ==> r == "-" + NatString(-v) && |r| >= 2
  {
    if v < 0 then "-" + NatString(-v) else NatString(v)
  }

  /** `String.prototype.padStart(width, fill)` with a one-character fill. */
  function PadStart(s: string, width: nat, fill: char): (r: string)
    ensures |r| == if |s| >= width then |s| else width
    decreases width - |s|
  {
    if |s| >= width then s else PadStart([fill] + s, width, fill)
  }

  /** Padding only adds fill characters in front: the padded string ends with the original. */
  lemma {:induction false} PadStartKeepsSuffix(s: string, width: nat, fill: char)
    ensures |s| <= |PadStart(s, width, fill)|
    ensures PadStart(s, width, fill)[|PadStart(s, width, fill)| - |s|..] == s
    ensures forall i :: 0 <= i < |PadStart(s, width, fill)| - |s| ==> PadStart(s, width, fill)[i] == fill
    decreases width - |s|
  {
    if |s| < width {
      var t := [fill] + s;
      PadStartKeepsSuffix(t, width, fill);
      var r := PadStart(t, width, fill);
      assert r[|r| - |s|..] == r[|r| - |t|..][1..];
      forall i | 0 <= i < |r| - |s|
        ensures r[i] == fill
      {
        if i == |r| - |t| {
          assert r[i] == r[|r| - |t|..][0] == t[0];
        }
      }
    }
  }

  /** `formatTimeValue(value)`: `value.toString().padStart(2, '0')`. */
  function FormatTimeValue(v: int): (r: string)
    ensures 2 <= |r|
  {
    PadStart(DecimalString(v), 2, '0')
  }

  /**
   * Padding never truncates: the result is at least two characters long,
   * ends with the full decimal spelling, and is that spelling from 10 on.
   */
  lemma FormatNeverTruncates(v: int)
    ensures |DecimalString(v)| <= |FormatTimeValue(v)|
    ensures FormatTimeValue(v)[|FormatTimeValue(v)| - |DecimalString(v)|..] == DecimalString(v)
    ensures 10 <= v ==> FormatTimeValue(v) == DecimalString(v)
  {
    PadStartKeepsSuffix(DecimalString(v), 2, '0');
    if 10 <= v {
      NatStringShape(v);
    }
  }

  /** For 0..99 the two characters are the tens digit and the ones digit; below 10 the first is '0'. */
  lemma FormatTwoDigitValue(v: int)
    requires 0 <= v <= 99
    ensures FormatTimeValue(v) == [DigitChar(v / 10), DigitChar(v % 10)]
    ensures v <= 9 ==> FormatTimeValue(v) == ['0', DigitChar(v)]
  {
    if 10 <= v {
      assert NatString(v / 10) == [DigitChar(v / 10)];
      assert NatString(v) == [DigitChar(v / 10), DigitChar(v % 10)];
      assert PadStart(NatString(v), 2, '0') == NatString(v);
    } else {
      assert NatString(v) == [DigitChar(v)];
      assert PadStart(NatString(v), 2, '0') == PadStart(['0', DigitChar(v)], 2, '0');
    }
  }

  /** Reads a string of decimal digits back as a number (leading zeros allowed). */
  function ParseDigits(s: string): nat
    requires forall i :: 0 <= i < |s| ==> IsDigit(s[i])
  {
    if s == [] then 0 else ParseDigits(s[..|s| - 1]) * 10 + DigitValue(s[|s| - 1])
  }

  lemma {:induction false} NatStringRoundTrip(n: nat)
    ensures forall i :: 0 <= i < |NatString(n)| ==> IsDigit(NatString(n)[i])
    ensures ParseDigits(NatString(n)) == n
    decreases n
  {
    NatStringShape(n);
    if n >= 10 {
      var s := NatString(n);
      assert s[..|s| - 1] == NatString(n / 10);
      NatStringRoundTrip(n / 10);
    }
  }

  lemma {:induction false} LeadingZeroIgnored(s: string)
    requires forall i :: 0 <= i < |s| ==> IsDigit(s[i])
    ensures ParseDigits(['0'] + s) == ParseDigits(s)
    decreases |s|
  {
    if s != [] {
      var t := ['0'] + s;
      assert t[..|t| - 1] == ['0'] + s[..|s| - 1];
      LeadingZeroIgnored(s[..|s| - 1]);
    }
  }

  /** Reading the formatted value back as a decimal gives the value again, for every natural number. */
  lemma FormatRoundTrip(v: nat)
    ensures forall i :: 0 <= i < |FormatTimeValue(v)| ==> IsDigit(FormatTimeValue(v)[i])
    ensures ParseDigits(FormatTimeValue(v)) == v
  {
    NatStringShape(v);
    NatStringRoundTrip(v);
    if v < 10 {
      LeadingZeroIgnored(NatString(v));
      assert PadStart(['0'] + NatString(v), 2, '0') == ['0'] + NatString(v);
    }
  }

  /** For the values a clock field takes, the two characters spell the tens and the ones. */
  lemma FormatTwoDigits(v: int)
    requires 0 <= v <= 99
    ensures |FormatTimeValue(v)| == 2
    ensures IsDigit(FormatTimeValue(v)[0]) && IsDigit(FormatTimeValue(v)[1])
    ensures DigitValue(FormatTimeValue(v)[0]) * 10 + DigitValue(FormatTimeValue(v)[1]) == v
  {
    FormatTwoDigitValue(v);
  }

  /**
   * `getMillisecondsUntilNextMinute`, with the current instant given by its
   * seconds and milliseconds within the minute: the distance from now to the
   * instant whose seconds and milliseconds are zero in the following minute.
   */
  function MillisecondsUntilNextMinute(seconds: int, millis: int): (r: int)
    requires 0 <= seconds <= 59 && 0 <= millis <= 999
    ensures 0 < r <= 60000
  {
    var now := 1000 * seconds + millis;
    var nextMinute := 60000;
    nextMinute - now
  }

  /** An instant, in milliseconds from the start of the current minute, at which a minute begins. */
  predicate IsMinuteBoundary(t: int) {
    t % 60000 == 0
  }

  /** The wait lands exactly on a minute boundary, and on the first one after now. */
  lemma NextMinuteIsFirstBoundary(seconds: int, millis: int)
    requires 0 <= seconds <= 59 && 0 <= millis <= 999
    ensures IsMinuteBoundary(1000 * seconds + millis + MillisecondsUntilNextMinute(seconds, millis))
    ensures forall t :: 1000 * seconds + millis < t < 1000 * seconds + millis + MillisecondsUntilNextMinute(seconds, millis) ==>
              !IsMinuteBoundary(t)
  {
  }
}
