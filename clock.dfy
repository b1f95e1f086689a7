/**
  The elapsed and total time texts: a millisecond count rendered as a time span
  with the custom format `mm\:ss`, that is the minutes component (0..59, hours
  dropped) and the seconds component (0..59), each as two zero-padded digits.
 */
module Clock {

  const MillisPerSecond: nat := 1000
  const MillisPerMinute: nat := 60000
  const SecondsPerHour: nat := 3600

  predicate IsDigit(c: char)
  {
    '0' <= c <= '9'
  }

  function DigitValue(c: char): (d: nat)
    requires IsDigit(c)
    ensures d < 10
  {
    c as int - '0' as int
  }

  function DigitChar(d: nat): (c: char)
    requires d < 10
    ensures IsDigit(c) && DigitValue(c) == d
    ensures d <= 5 ==> c <= '5'
  {
    ('0' as int + d) as char
  }

  /** A number below 100 as exactly two decimal digits, with a leading zero if needed. */
  function TwoDigits(n: nat): (r: string)
    requires n < 100
    ensures |r| == 2 && IsDigit(r[0]) && IsDigit(r[1])
    ensures 10 * DigitValue(r[0]) + DigitValue(r[1]) == n
    ensures n < 60 ==> r[0] <= '5'
  {
    [DigitChar(n / 10), DigitChar(n % 10)]
  }

  /** The minutes component of a time span: whole minutes modulo one hour. */
  function Minutes(ms: nat): nat
  {
    ms / MillisPerMinute % 60
  }

  /** The seconds component of a time span: whole seconds modulo one minute. */
  function Seconds(ms: nat): nat
  {
    ms / MillisPerSecond % 60
  }

  /** The texts `mm:ss` can produce: two digits, a colon, two digits, both fields below 60. */
  predicate IsClock(s: string)
  {
    && |s| == 5
    && IsDigit(s[0]) && s[0] <= '5' && IsDigit(s[1])
    && s[2] == ':'
    && IsDigit(s[3]) && s[3] <= '5' && IsDigit(s[4])
  }

  /** What a clock text reads as: the second of the hour it shows. */
  function Reading(s: string): (sec: nat)
    requires IsClock(s)
    ensures sec < SecondsPerHour
  {
    (10 * DigitValue(s[0]) + DigitValue(s[1])) * 60 + 10 * DigitValue(s[3]) + DigitValue(s[4])
  }

  /** `TimeSpan.FromMilliseconds(ms).ToString(@"mm\:ss")` for a non-negative count. */
  function Format(ms: nat): (r: string)
    ensures IsClock(r)
    ensures Reading(r) == Minutes(ms) * 60 + Seconds(ms)
  {
    TwoDigits(Minutes(ms)) + ":" + TwoDigits(Seconds(ms))
  }

  /** The minutes and seconds fields together are the whole seconds modulo one hour. */
  lemma {:induction false} MinutesAndSeconds(ms: nat)
    ensures Minutes(ms) * 60 + Seconds(ms) == ms / MillisPerSecond % SecondsPerHour
  {
    var n := ms / MillisPerSecond;
    var q, t := n / 60, n % 60;
    assert n == 60 * q + t && t < 60;
    assert ms / MillisPerMinute == q by {
      assert ms == 60000 * q + (1000 * t + ms % 1000);
      assert 0 <= 1000 * t + ms % 1000 < 60000;
    }
    assert n % SecondsPerHour == (q % 60) * 60 + t by {
      assert n == 3600 * (q / 60) + ((q % 60) * 60 + t);
      assert 0 <= (q % 60) * 60 + t < 3600;
    }
  }

  /** The text shows the elapsed time modulo one hour, to the second. */
  lemma ReadingOfFormat(ms: nat)
    ensures Reading(Format(ms)) == ms / MillisPerSecond % SecondsPerHour
  {
    MinutesAndSeconds(ms);
  }

  /** Every clock text is the rendering of the second of the hour it shows. */
  lemma {:induction false} FormatOfReading(s: string)
    requires IsClock(s)
    ensures Format(Reading(s) * MillisPerSecond) == s
  {
    var m := 10 * DigitValue(s[0]) + DigitValue(s[1]);
    var sec := 10 * DigitValue(s[3]) + DigitValue(s[4]);
    var ms := Reading(s) * MillisPerSecond;
    assert m < 60 && sec < 60;
    assert ms / MillisPerSecond == m * 60 + sec;
    assert ms / MillisPerMinute == m;
    assert Minutes(ms) == m && Seconds(ms) == sec;
    var r := Format(ms);
    assert r[0] == s[0] && r[1] == s[1] by {
      DigitsDetermined(s[0], s[1], TwoDigits(m)[0], TwoDigits(m)[1]);
    }
    assert r[3] == s[3] && r[4] == s[4] by {
      DigitsDetermined(s[3], s[4], TwoDigits(sec)[0], TwoDigits(sec)[1]);
    }
  }

  /** Two digit pairs with the same value are the same characters. */
  lemma DigitsDetermined(a: char, b: char, c: char, d: char)
    requires IsDigit(a) && IsDigit(b) && IsDigit(c) && IsDigit(d)
    requires 10 * DigitValue(a) + DigitValue(b) == 10 * DigitValue(c) + DigitValue(d)
    ensures a == c && b == d
  {
  }

  /** Two counts give the same text exactly when they agree to the second, modulo one hour. */
  lemma {:induction false} FormatEqual(a: nat, b: nat)
    ensures Format(a) == Format(b) <==> a / MillisPerSecond % SecondsPerHour == b / MillisPerSecond % SecondsPerHour
  {
    ReadingOfFormat(a);
    ReadingOfFormat(b);
    if a / MillisPerSecond % SecondsPerHour == b / MillisPerSecond % SecondsPerHour {
      FormatOfReading(Format(a));
      FormatOfReading(Format(b));
    }
  }

  /** Hours are dropped: one more hour renders the same text. */
  lemma {:induction false} FormatDropsHours(ms: nat)
    ensures Format(ms + 3600000) == Format(ms)
  {
    var n := ms / MillisPerSecond;
    assert (ms + 3600000) / MillisPerSecond == n + 3600;
    assert (n + 3600) % SecondsPerHour == n % SecondsPerHour;
    FormatEqual(ms + 3600000, ms);
  }

  /** Two minutes render as `02:00`. */
  lemma TwoMinutes()
    ensures Format(120000) == "02:00"
  {
    assert Minutes(120000) == 2 && Seconds(120000) == 0;
    assert TwoDigits(2) == "02" && TwoDigits(0) == "00";
  }

  /** A whole hour renders as `00:00`, like the initial texts. */
  lemma OneHour()
    ensures Format(3600000) == "00:00"
    ensures Format(0) == "00:00"
  {
    assert Minutes(3600000) == 0 && Seconds(3600000) == 0;
    assert Minutes(0) == 0 && Seconds(0) == 0;
    assert TwoDigits(0) == "00";
  }
}
