/** Times of day. The routes keep them as zero-padded `HH:MM` strings and
    compare them with JavaScript's string `<`; the model keeps minutes since
    midnight and proves that the two orders agree on formatted times. */
module Clock {
  import opened Common
  import opened Text

  const MinutesPerDay: int := 1440

  /** Minutes since midnight. */
  type Minute = m: int | 0 <= m < 1440

  function Digit(n: int): (c: char)
    requires 0 <= n < 10
    ensures '0' <= c <= '9'
  {
    ('0' as int + n) as char
  }

  /** Two-digit, zero-padded decimal (`padStart(2, '0')`). */
  function Pad2(n: int): (s: string)
    requires 0 <= n < 100
    ensures |s| == 2
  {
    [Digit(n / 10), Digit(n % 10)]
  }

  /** The `HH:MM` text of a time of day, as the `fr-FR` locale prints a time
      with two-digit hour and minute. */
  function Format(t: Minute): (s: string)
    ensures |s| == 5 && s[2] == ':'
  {
    Pad2(t / 60) + ":" + Pad2(t % 60)
  }

  function DigitValue(c: char): (r: Option<int>)
    ensures r.Some? ==> 0 <= r.value < 10 && Digit(r.value) == c
  {
    if '0' <= c <= '9' then Some(c as int - '0' as int) else None
  }

  /** Reads a well-formed `HH:MM` time (hour below 24, minute below 60). */
  function ParseTime(s: string): (r: Option<Minute>)
    ensures r.Some? ==> |s| == 5
  {
    if |s| != 5 || s[2] != ':' then None
    else
      match (DigitValue(s[0]), DigitValue(s[1]), DigitValue(s[3]), DigitValue(s[4]))
      case (Some(h1), Some(h0), Some(m1), Some(m0)) =>
        var h, m := 10 * h1 + h0, 10 * m1 + m0;
        if h < 24 && m < 60 then Some(60 * h + m) else None
      case _ => None
  }

  /** Reading back a formatted time gives the same minute. */
  lemma FormatParse(t: Minute)
    ensures ParseTime(Format(t)) == Some(t)
  {
    var s := Format(t);
    assert DigitValue(s[0]) == Some(t / 60 / 10);
    assert DigitValue(s[1]) == Some(t / 60 % 10);
    assert DigitValue(s[3]) == Some(t % 60 / 10);
    assert DigitValue(s[4]) == Some(t % 60 % 10);
  }

  /** Formatting is injective: the time text names one minute. */
  lemma ParseFormat(s: string)
    requires ParseTime(s).Some?
    ensures Format(ParseTime(s).value) == s
  {
    var t := ParseTime(s).value;
    var h1, h0, m1, m0 := DigitValue(s[0]).value, DigitValue(s[1]).value, DigitValue(s[3]).value, DigitValue(s[4]).value;
    assert t == 60 * (10 * h1 + h0) + (10 * m1 + m0);
    assert t / 60 == 10 * h1 + h0 && t % 60 == 10 * m1 + m0;
    assert Format(t) == [s[0], s[1], ':', s[3], s[4]];
  }

  /** `addMinutes(time, minutes)` of availability.js: the clock time `minutes`
      after `t`, wrapping at midnight (the date part is dropped). */
  function AddMinutes(t: Minute, n: int): (r: Minute)
    ensures (r - t - n) % MinutesPerDay == 0
  {
    (t + n) % MinutesPerDay
  }

  /** The textual form: `addMinutes("HH:MM", n)` prints the zero-padded time of
      (60 * HH + MM + n) modulo one day. */
  function AddMinutesText(time: string, n: int): (r: Option<string>)
    ensures ParseTime(time).None? ==> r.None?
  {
    match ParseTime(time)
    case Some(t) => Some(Format(AddMinutes(t, n)))
    case None => None
  }

  lemma {:induction false} AddMinutesTextSpec(t: Minute, n: int)
    ensures AddMinutesText(Format(t), n).Some?
    ensures ParseTime(AddMinutesText(Format(t), n).value) == Some((t + n) % 1440)
    ensures 0 <= n && t + n < MinutesPerDay ==> AddMinutesText(Format(t), n) == Some(Format(t + n))
  {
    var r := AddMinutes(t, n);
    AddMinutesTextOfFormat(t, n);
    FormatParse(r);
    if 0 <= n && t + n < MinutesPerDay {
      AddMinutesBelowMidnight(t, n);
    }
  }

  /** Before midnight `addMinutes` is plain addition. */
  lemma AddMinutesBelowMidnight(t: Minute, n: int)
    requires 0 <= n && t + n < MinutesPerDay
    ensures AddMinutes(t, n) == t + n
  {
  }

  lemma AddMinutesTextOfFormat(t: Minute, n: int)
    ensures AddMinutesText(Format(t), n) == Some(Format(AddMinutes(t, n)))
  {
    FormatParse(t);
  }

  /** The string order of formatted times is the order of the minutes: the
      route's `currentTime < endTime` and break tests compare the same way as
      the model's integer comparisons. */
  lemma FormatOrder(a: Minute, b: Minute)
    ensures StrLess(Format(a), Format(b)) <==> a < b
  {
    var A, B := Format(a), Format(b);
    var ha, hb, ma, mb := a / 60, b / 60, a % 60, b % 60;
    assert a == 60 * ha + ma && b == 60 * hb + mb;
    assert ha == 10 * (ha / 10) + ha % 10 && hb == 10 * (hb / 10) + hb % 10;
    assert ma == 10 * (ma / 10) + ma % 10 && mb == 10 * (mb / 10) + mb % 10;
    if a == b {
      StrLessIrreflexive(A);
    } else if ha / 10 != hb / 10 {
      StrLessAt(A, B, 0);
    } else if ha % 10 != hb % 10 {
      StrLessAt(A, B, 1);
    } else if ma / 10 != mb / 10 {
      assert A[..3] == B[..3];
      StrLessAt(A, B, 3);
    } else {
      assert A[..4] == B[..4];
      StrLessAt(A, B, 4);
    }
  }
}
