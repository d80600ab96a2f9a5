/** Calendar dates of the `YYYY-MM-DD` query parameter and the French weekday
    name the slot route derives from them (proleptic Gregorian calendar). */
module Calendar {
  import opened Common
  import Clock

  datatype Date = Date(year: int, month: int, day: int)

  predicate IsLeap(y: int) {
    y % 4 == 0 && (y % 100 != 0 || y % 400 == 0)
  }

  function DaysInMonth(y: int, m: int): (n: int)
    requires 1 <= m <= 12
    ensures 28 <= n <= 31
  {
    if m == 2 then (if IsLeap(y) then 29 else 28)
    else if m == 4 || m == 6 || m == 9 || m == 11 then 30
    else 31
  }

  predicate ValidDate(d: Date) {
    d.year >= 1 && 1 <= d.month <= 12 && 1 <= d.day <= DaysInMonth(d.year, d.month)
  }

  /** Days in the months of year `y` before month `m`. */
  function DaysBeforeMonth(y: int, m: int): (n: nat)
    requires 1 <= m <= 13
  {
    if m == 1 then 0 else DaysBeforeMonth(y, m - 1) + DaysInMonth(y, m - 1)
  }

  /** Days in the years before year `y`. */
  function DaysBeforeYear(y: int): int
    requires y >= 1
  {
    365 * (y - 1) + (y - 1) / 4 - (y - 1) / 100 + (y - 1) / 400
  }

  /** Ordinal of a date, 0001-01-01 being day 1. */
  function DayNumber(d: Date): int
    requires ValidDate(d)
  {
    DaysBeforeYear(d.year) + DaysBeforeMonth(d.year, d.month) + d.day
  }

  /** The day after `d`. */
  function NextDay(d: Date): (r: Date)
    requires ValidDate(d)
    ensures ValidDate(r)
  {
    if d.day < DaysInMonth(d.year, d.month) then Date(d.year, d.month, d.day + 1)
    else if d.month < 12 then Date(d.year, d.month + 1, 1)
    else Date(d.year + 1, 1, 1)
  }

  /** Weekday of a date, 0 for Monday through 6 for Sunday; 0001-01-01 was a
      Monday in the proleptic Gregorian calendar. */
  function Weekday(d: Date): (w: int)
    requires ValidDate(d)
    ensures 0 <= w < 7
  {
    (DayNumber(d) - 1) % 7
  }

  /** The `weekday: 'long'` names of the `fr-FR` locale, Monday first. */
  function FrenchWeekday(w: int): (s: string)
    requires 0 <= w < 7
  {
    ["lundi", "mardi", "mercredi", "jeudi", "vendredi", "samedi", "dimanche"][w]
  }

  /** `s.charAt(0).toUpperCase() + s.slice(1)` (ASCII letters only). */
  function Capitalize(s: string): (r: string)
    ensures |r| == |s| && (s != [] ==> r[1..] == s[1..])
  {
    if s == [] then []
    else if 'a' <= s[0] <= 'z' then [(s[0] as int - 32) as char] + s[1..]
    else s
  }

  /** The capitalised day name the route looks up in `workingDays`; an
      unreadable date prints as "Invalid Date". */
  function DayName(d: Option<Date>): string
    requires d.Some? ==> ValidDate(d.value)
  {
    match d
    case Some(date) => Capitalize(FrenchWeekday(Weekday(date)))
    case None => "Invalid Date"
  }

  /** The seven names the planning page offers, in the order Monday..Sunday. */
  const DayNames: seq<string> := ["Lundi", "Mardi", "Mercredi", "Jeudi", "Vendredi", "Samedi", "Dimanche"]

  lemma DayNameIsListed(d: Date)
    requires ValidDate(d)
    ensures DayName(Some(d)) == DayNames[Weekday(d)]
  {
    CapitalizedName(Weekday(d));
  }

  /** The capitalised locale name of weekday `w` is the page's name for it. */
  lemma CapitalizedName(w: int)
    requires 0 <= w < 7
    ensures Capitalize(FrenchWeekday(w)) == DayNames[w]
  {
    var lower := FrenchWeekday(w);
    assert lower[1..] == DayNames[w][1..];
    assert [(lower[0] as int - 32) as char] == DayNames[w][..1];
    assert DayNames[w] == DayNames[w][..1] + DayNames[w][1..];
  }

  /** Reads a `YYYY-MM-DD` date; `None` when the text is not a calendar date. */
  function ParseDate(s: string): (r: Option<Date>)
    ensures r.Some? ==> ValidDate(r.value) && |s| == 10
  {
    if |s| != 10 || s[4] != '-' || s[7] != '-' then None
    else
      var ds := [s[0], s[1], s[2], s[3], s[5], s[6], s[8], s[9]];
      if exists i :: 0 <= i < 8 && Clock.DigitValue(ds[i]).None? then None
      else
        var v := i requires 0 <= i < 8 => Clock.DigitValue(ds[i]).value;
        var d := Date(1000 * v(0) + 100 * v(1) + 10 * v(2) + v(3), 10 * v(4) + v(5), 10 * v(6) + v(7));
        if ValidDate(d) then Some(d) else None
  }

  /** The `YYYY-MM-DD` text of a date with a four-digit year. */
  function DateText(d: Date): (s: string)
    requires 0 <= d.year <= 9999 && 1 <= d.month <= 12 && 1 <= d.day <= 31
    ensures |s| == 10 && s[4] == '-' && s[7] == '-'
  {
    Clock.Pad2(d.year / 100) + Clock.Pad2(d.year % 100) + "-" + Clock.Pad2(d.month) + "-" + Clock.Pad2(d.day)
  }

  /** Every calendar date of a four-digit year is read back from its text. */
  lemma ParseDateText(d: Date)
    requires ValidDate(d) && d.year <= 9999
    ensures ParseDate(DateText(d)) == Some(d)
  {
    var s := DateText(d);
    var hi, lo := d.year / 100, d.year % 100;
    assert Clock.DigitValue(s[0]) == Some(hi / 10);
    assert Clock.DigitValue(s[1]) == Some(hi % 10);
    assert Clock.DigitValue(s[2]) == Some(lo / 10);
    assert Clock.DigitValue(s[3]) == Some(lo % 10);
    assert Clock.DigitValue(s[5]) == Some(d.month / 10);
    assert Clock.DigitValue(s[6]) == Some(d.month % 10);
    assert Clock.DigitValue(s[8]) == Some(d.day / 10);
    assert Clock.DigitValue(s[9]) == Some(d.day % 10);
    ParseDateDigits(s, hi / 10, hi % 10, lo / 10, lo % 10, d.month / 10, d.month % 10, d.day / 10, d.day % 10);
  }

  /** What `ParseDate` reads from ten characters whose eight digit places
      hold digits. */
  lemma ParseDateDigits(s: string, y3: int, y2: int, y1: int, y0: int, m1: int, m0: int, d1: int, d0: int)
    requires |s| == 10 && s[4] == '-' && s[7] == '-'
    requires Clock.DigitValue(s[0]) == Some(y3) && Clock.DigitValue(s[1]) == Some(y2)
    requires Clock.DigitValue(s[2]) == Some(y1) && Clock.DigitValue(s[3]) == Some(y0)
    requires Clock.DigitValue(s[5]) == Some(m1) && Clock.DigitValue(s[6]) == Some(m0)
    requires Clock.DigitValue(s[8]) == Some(d1) && Clock.DigitValue(s[9]) == Some(d0)
    ensures var d := Date(1000 * y3 + 100 * y2 + 10 * y1 + y0, 10 * m1 + m0, 10 * d1 + d0);
      ParseDate(s) == if ValidDate(d) then Some(d) else None
  {
    var ds := [s[0], s[1], s[2], s[3], s[5], s[6], s[8], s[9]];
    assert forall i :: 0 <= i < 8 ==> Clock.DigitValue(ds[i]).Some?;
  }

  /** A text that reads as a date is that date's text: the reading is
      one-to-one. */
  lemma DateTextParse(s: string)
    requires ParseDate(s).Some?
    ensures DateText(ParseDate(s).value) == s
  {
    var d := ParseDate(s).value;
    var ds := [s[0], s[1], s[2], s[3], s[5], s[6], s[8], s[9]];
    assert forall i :: 0 <= i < 8 ==> Clock.DigitValue(ds[i]).Some?;
    var y3, y2, y1, y0 := Clock.DigitValue(s[0]).value, Clock.DigitValue(s[1]).value, Clock.DigitValue(s[2]).value, Clock.DigitValue(s[3]).value;
    var m1, m0, d1, d0 := Clock.DigitValue(s[5]).value, Clock.DigitValue(s[6]).value, Clock.DigitValue(s[8]).value, Clock.DigitValue(s[9]).value;
    ParseDateDigits(s, y3, y2, y1, y0, m1, m0, d1, d0);
    YearDigits(y3, y2, y1, y0);
    Pad2Digits(y3, y2, s[0], s[1]);
    Pad2Digits(y1, y0, s[2], s[3]);
    Pad2Digits(m1, m0, s[5], s[6]);
    Pad2Digits(d1, d0, s[8], s[9]);
    DateTextPieces(s);
  }

  /** The century and the year within it of a year spelt by four digits. */
  lemma YearDigits(y3: int, y2: int, y1: int, y0: int)
    requires 0 <= y1 < 10 && 0 <= y0 < 10
    ensures (1000 * y3 + 100 * y2 + 10 * y1 + y0) / 100 == 10 * y3 + y2
    ensures (1000 * y3 + 100 * y2 + 10 * y1 + y0) % 100 == 10 * y1 + y0
  {
  }

  lemma DateTextPieces(s: string)
    requires |s| == 10 && s[4] == '-' && s[7] == '-'
    ensures s == [s[0], s[1]] + [s[2], s[3]] + "-" + [s[5], s[6]] + "-" + [s[8], s[9]]
  {
  }

  /** Two digit characters are the zero-padded text of the number they spell. */
  lemma Pad2Digits(a: int, b: int, c1: char, c0: char)
    requires Clock.DigitValue(c1) == Some(a) && Clock.DigitValue(c0) == Some(b)
    ensures Clock.Pad2(10 * a + b) == [c1, c0]
  {
  }

  /** 14 October 2024 is a Monday: "Lundi" in the planning page's names. */
  lemma MondayExample()
    ensures DayName(ParseDate("2024-10-14")) == "Lundi"
  {
    var d := Date(2024, 10, 14);
    ParseDateText(d);
    MondayText();
    MondayWeekday();
    DayNameIsListed(d);
  }

  lemma MondayText()
    ensures DateText(Date(2024, 10, 14)) == "2024-10-14"
  {
    assert Clock.Pad2(20) == "20" && Clock.Pad2(24) == "24";
    assert Clock.Pad2(10) == "10" && Clock.Pad2(14) == "14";
  }

  lemma MondayWeekday()
    ensures ValidDate(Date(2024, 10, 14)) && Weekday(Date(2024, 10, 14)) == 0
  {
  }

  /** Stepping a non-negative `x` to `x + 1` raises `x / k` exactly when `x + 1`
      is a multiple of `k`, for the three divisors of the leap-year rule. */
  lemma DivStep(x: int, k: int)
    requires x >= 0 && (k == 4 || k == 100 || k == 400)
    ensures (x + 1) / k == x / k + (if (x + 1) % k == 0 then 1 else 0)
  {
    if k == 4 {
      var q, r := x / 4, x % 4;
      assert x == 4 * q + r;
      if r == 3 { assert x + 1 == 4 * (q + 1); } else { assert x + 1 == 4 * q + (r + 1); }
    } else if k == 100 {
      var q, r := x / 100, x % 100;
      assert x == 100 * q + r;
      if r == 99 { assert x + 1 == 100 * (q + 1); } else { assert x + 1 == 100 * q + (r + 1); }
    } else {
      var q, r := x / 400, x % 400;
      assert x == 400 * q + r;
      if r == 399 { assert x + 1 == 400 * (q + 1); } else { assert x + 1 == 400 * q + (r + 1); }
    }
  }

  lemma MultipleOf100(y: int)
    requires y % 100 == 0
    ensures y % 4 == 0
  {
    assert y == 4 * (25 * (y / 100));
  }

  lemma MultipleOf400(y: int)
    requires y % 400 == 0
    ensures y % 100 == 0
  {
    assert y == 100 * (4 * (y / 400));
  }

  /** A year has 366 days exactly when it is a leap year. */
  lemma YearLength(y: int)
    requires y >= 1
    ensures DaysBeforeYear(y + 1) == DaysBeforeYear(y) + (if IsLeap(y) then 366 else 365)
  {
    DivStep(y - 1, 4);
    DivStep(y - 1, 100);
    DivStep(y - 1, 400);
    if y % 100 == 0 { MultipleOf100(y); }
    if y % 400 == 0 { MultipleOf400(y); }
  }

  lemma DaysBeforeDecember(y: int)
    ensures DaysBeforeMonth(y, 12) == 334 + (if IsLeap(y) then 1 else 0)
  {
    assert DaysBeforeMonth(y, 2) == 31;
    assert DaysBeforeMonth(y, 3) == 59 + (if IsLeap(y) then 1 else 0);
    assert DaysBeforeMonth(y, 4) == 90 + (if IsLeap(y) then 1 else 0);
    assert DaysBeforeMonth(y, 5) == 120 + (if IsLeap(y) then 1 else 0);
    assert DaysBeforeMonth(y, 6) == 151 + (if IsLeap(y) then 1 else 0);
    assert DaysBeforeMonth(y, 7) == 181 + (if IsLeap(y) then 1 else 0);
    assert DaysBeforeMonth(y, 8) == 212 + (if IsLeap(y) then 1 else 0);
    assert DaysBeforeMonth(y, 9) == 243 + (if IsLeap(y) then 1 else 0);
    assert DaysBeforeMonth(y, 10) == 273 + (if IsLeap(y) then 1 else 0);
    assert DaysBeforeMonth(y, 11) == 304 + (if IsLeap(y) then 1 else 0);
  }

  /** Consecutive dates have consecutive day numbers. */
  lemma {:induction false} NextDayNumber(d: Date)
    requires ValidDate(d)
    ensures DayNumber(NextDay(d)) == DayNumber(d) + 1
  {
    if d.day == DaysInMonth(d.year, d.month) && d.month == 12 {
      YearLength(d.year);
      DaysBeforeDecember(d.year);
    }
  }

  /** The weekday advances by one each day and wraps from Sunday to Monday. */
  lemma {:induction false} NextDayWeekday(d: Date)
    requires ValidDate(d)
    ensures Weekday(NextDay(d)) == (Weekday(d) + 1) % 7
  {
    NextDayNumber(d);
    ModSevenStep(DayNumber(d) - 1);
  }

  lemma ModSevenStep(n: int)
    ensures (n + 1) % 7 == (n % 7 + 1) % 7
  {
    var q, r := n / 7, n % 7;
    assert n == 7 * q + r;
    if r == 6 { assert n + 1 == 7 * (q + 1); } else { assert n + 1 == 7 * q + (r + 1); }
  }
}
