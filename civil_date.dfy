/**
 * Calendar days as JavaScript's `Date` handles them (local time, time of day
 * ignored), and the `YYYY-MM-DD` text form the tracker stores dates in.
 */
module CivilDate {
  import opened Text
  import opened Options

  /** A calendar day; `month` is 0-based as `Date.prototype.getMonth` reports it. */
  datatype Date = Date(year: int, month: int, day: int)

  predicate IsLeap(y: int)
  {
    (y % 4 == 0 && y % 100 != 0) || y % 400 == 0
  }

  function DaysInMonth(y: int, m: int): (n: int)
    requires 0 <= m < 12
    ensures 28 <= n <= 31
    ensures n == 29 <==> m == 1 && IsLeap(y)
  {
    if m == 1 then (if IsLeap(y) then 29 else 28)
    else if m == 3 || m == 5 || m == 8 || m == 10 then 30
    else 31
  }

  predicate Valid(d: Date)
  {
    0 <= d.month < 12 && 1 <= d.day <= DaysInMonth(d.year, d.month)
  }

  /** Days from the start of year 0 to the start of year `y` (negative before year 0). */
  function DaysBeforeYear(y: int): int
  {
    365 * y + (y + 3) / 4 - (y + 99) / 100 + (y + 399) / 400
  }

  lemma LeapDaysStep(y: int)
    ensures (y + 4) / 4 - (y + 3) / 4 == if y % 4 == 0 then 1 else 0
  {
  }

  lemma CenturyStep(y: int)
    ensures (y + 100) / 100 - (y + 99) / 100 == if y % 100 == 0 then 1 else 0
  {
  }

  lemma QuadCenturyStep(y: int)
    ensures (y + 400) / 400 - (y + 399) / 400 == if y % 400 == 0 then 1 else 0
  {
  }

  /** Days of year `y` before the first day of 0-based month `m`. */
  function DaysBeforeMonth(y: int, m: int): (n: int)
    requires 0 <= m <= 12
    ensures 0 <= n <= 366
  {
    var leapDay := if m >= 2 && IsLeap(y) then 1 else 0;
    leapDay + (if m == 0 then 0 else if m == 1 then 31 else if m == 2 then 59 else if m == 3 then 90
      else if m == 4 then 120 else if m == 5 then 151 else if m == 6 then 181 else if m == 7 then 212
      else if m == 8 then 243 else if m == 9 then 273 else if m == 10 then 304 else if m == 11 then 334
      else 365)
  }

  /** Number of the day on a continuous count of days, as a `Date` timestamp divided by a day. */
  function DayNumber(d: Date): int
    requires 0 <= d.month < 12
  {
    DaysBeforeYear(d.year) + DaysBeforeMonth(d.year, d.month) + d.day - 1
  }

  /** Every multiple of 400 is a multiple of 100, and every multiple of 100 one of 4. */
  lemma Divisibility(y: int)
    ensures y % 100 == 0 ==> y % 4 == 0
    ensures y % 400 == 0 ==> y % 100 == 0
  {
    if y % 100 == 0 {
      assert y == 4 * (25 * (y / 100));
    }
    if y % 400 == 0 {
      assert y == 100 * (4 * (y / 400));
    }
  }

  /** A year has 366 days when it is a leap year and 365 otherwise. */
  lemma YearLength(y: int)
    ensures DaysBeforeYear(y + 1) - DaysBeforeYear(y) == if IsLeap(y) then 366 else 365
  {
    LeapDaysStep(y);
    CenturyStep(y);
    QuadCenturyStep(y);
    Divisibility(y);
  }

  /** Each month starts right after the last day of the month before it, across a year end too. */
  lemma MonthEnd(y: int, m: int)
    requires 0 <= m < 12
    ensures DayNumber(Date(y, m, 1)) + DaysInMonth(y, m) ==
      if m == 11 then DayNumber(Date(y + 1, 0, 1)) else DayNumber(Date(y, m + 1, 1))
  {
    if m == 11 {
      YearLength(y);
    }
  }

  /** Day `d` of a month is `d - 1` days after its first day. */
  lemma DayInMonth(y: int, m: int, d: int)
    requires 0 <= m < 12
    ensures DayNumber(Date(y, m, d)) == DayNumber(Date(y, m, 1)) + d - 1
  {
  }

  /**
   * `new Date(y, m, d)` for a day `d >= 1`: a month outside 0..11 carries
   * into the year, and a day past the end of its month carries into the
   * following months.
   */
  function Normalize(y: int, m: int, d: int): (r: Date)
    requires d >= 1
    ensures Valid(r)
  {
    CarryDays(y + m / 12, m % 12, d)
  }

  /** Day `d >= 1` counted from the first of month `m` of year `y`, carried over month ends. */
  function CarryDays(y: int, m: int, d: int): (r: Date)
    requires 0 <= m < 12 && d >= 1
    ensures Valid(r)
    decreases d
  {
    var n := DaysInMonth(y, m);
    if d <= n then Date(y, m, d)
    else if m == 11 then CarryDays(y + 1, 0, d - n)
    else CarryDays(y, m + 1, d - n)
  }

  /** The carried day is the day `d - 1` days after the first of the month. */
  lemma {:induction false} CarryDayNumber(y: int, m: int, d: int)
    requires 0 <= m < 12 && d >= 1
    ensures DayNumber(CarryDays(y, m, d)) == DayNumber(Date(y, m, 1)) + d - 1
    decreases d
  {
    var n := DaysInMonth(y, m);
    MonthEnd(y, m);
    if d <= n {
      DayInMonth(y, m, d);
    } else if m == 11 {
      CarryDayNumber(y + 1, 0, d - n);
    } else {
      CarryDayNumber(y, m + 1, d - n);
    }
  }

  /**
   * A number that grows with calendar order: not a count of days, but
   * ordered like one on valid days (`KeyOrder`, `DayNumberOrder`).
   */
  function Key(d: Date): int
  {
    384 * d.year + 32 * d.month + d.day
  }

  /** A day that exists in its month is the day itself; a later one lands at least a month further on. */
  lemma {:induction false} CarryBound(y: int, m: int, d: int)
    requires 0 <= m < 12 && d >= 1
    ensures d <= DaysInMonth(y, m) ==> CarryDays(y, m, d) == Date(y, m, d)
    ensures d > DaysInMonth(y, m) ==> Key(CarryDays(y, m, d)) >= Key(Date(y, m, 1)) + 32
    decreases d
  {
    var n := DaysInMonth(y, m);
    if d > n {
      if m == 11 {
        CarryBound(y + 1, 0, d - n);
      } else {
        CarryBound(y, m + 1, d - n);
      }
    }
  }

  /** The normalised day is the day `d - 1` days after the first of the carried month. */
  lemma NormalizeDayNumber(y: int, m: int, d: int)
    requires d >= 1
    ensures DayNumber(Normalize(y, m, d)) == DayNumber(Date(y + m / 12, m % 12, 1)) + d - 1
  {
    CarryDayNumber(y + m / 12, m % 12, d);
  }

  /** With a month in 0..11 nothing carries into the year. */
  lemma NormalizeInMonth(y: int, m: int, d: int)
    requires 0 <= m < 12 && d >= 1
    ensures Normalize(y, m, d) == CarryDays(y, m, d)
  {
    assert m / 12 == 0 && m % 12 == m;
  }

  /** Month 12 is January of the next year. */
  lemma NormalizeNextMonth(y: int, m: int, d: int)
    requires 0 <= m < 12 && d >= 1
    ensures Normalize(y, m + 1, d) == if m == 11 then CarryDays(y + 1, 0, d) else CarryDays(y, m + 1, d)
  {
    if m == 11 {
      assert (m + 1) / 12 == 1 && (m + 1) % 12 == 0;
    } else {
      assert (m + 1) / 12 == 0 && (m + 1) % 12 == m + 1;
    }
  }

  /** A valid day falls inside its own year's range of day numbers. */
  lemma WithinYear(d: Date)
    requires Valid(d)
    ensures DaysBeforeYear(d.year) <= DayNumber(d) < DaysBeforeYear(d.year + 1)
  {
    YearLength(d.year);
  }

  /** Within a year, a valid day of an earlier month comes before every day of a later month. */
  lemma WithinMonth(d: Date, m: int)
    requires Valid(d) && d.month < m < 12
    ensures DayNumber(d) < DaysBeforeYear(d.year) + DaysBeforeMonth(d.year, m)
  {
  }

  /** Years start in increasing order. */
  lemma {:induction false} YearsApart(y: int, z: int)
    requires y < z
    ensures DaysBeforeYear(y + 1) <= DaysBeforeYear(z)
    decreases z - y
  {
    if y + 1 < z {
      YearLength(y + 1);
      YearsApart(y + 1, z);
    }
  }

  /** `a` comes before `b` on the calendar: an earlier year, month or day, in that order. */
  predicate Before(a: Date, b: Date)
  {
    a.year < b.year || (a.year == b.year && (a.month < b.month || (a.month == b.month && a.day < b.day)))
  }

  /** `Before` is transitive. */
  lemma BeforeTransitive(a: Date, b: Date, c: Date)
    requires Before(a, b) && Before(b, c)
    ensures Before(a, c)
  {
  }

  /** A day earlier on the calendar has a smaller day number. */
  lemma BeforeSmaller(a: Date, b: Date)
    requires Valid(a) && Valid(b) && Before(a, b)
    ensures DayNumber(a) < DayNumber(b)
  {
    if a.year < b.year {
      WithinYear(a);
      WithinYear(b);
      YearsApart(a.year, b.year);
    } else if a.month < b.month {
      WithinMonth(a, b.month);
    }
  }

  /** `Key` orders valid days as the calendar does. */
  lemma KeyOrder(a: Date, b: Date)
    requires Valid(a) && Valid(b)
    ensures Before(a, b) <==> Key(a) < Key(b)
  {
    if a.year < b.year {
      assert Key(a) < 384 * a.year + 384 <= Key(b);
    } else if b.year < a.year {
      assert Key(b) < 384 * b.year + 384 <= Key(a);
    }
  }

  /** Day numbers order valid days as the calendar does, and so tell them apart. */
  lemma DayNumberOrder(a: Date, b: Date)
    requires Valid(a) && Valid(b)
    ensures DayNumber(a) < DayNumber(b) <==> Before(a, b)
    ensures DayNumber(a) == DayNumber(b) <==> a == b
  {
    if Before(a, b) {
      BeforeSmaller(a, b);
    } else if Before(b, a) {
      BeforeSmaller(b, a);
    } else {
      assert a == b;
    }
  }

  /** `Normalize` leaves a valid day as it is. */
  lemma NormalizeValid(d: Date)
    requires Valid(d)
    ensures Normalize(d.year, d.month, d.day) == d
  {
    NormalizeInMonth(d.year, d.month, d.day);
  }

  // ---------------------------------------------------------------------
  // YYYY-MM-DD text
  // ---------------------------------------------------------------------

  /** A year, a 1-based month and a day as numbers read from text. */
  datatype Ymd = Ymd(year: int, month: int, day: int)

  /** `${year}-${String(month).padStart(2, "0")}-${String(day).padStart(2, "0")}`. */
  function IsoText(year: int, month: int, day: int): string
  {
    IntToString(year) + "-" + PadStart2(IntToString(month)) + "-" + PadStart2(IntToString(day))
  }

  /** The text matches `/^\d{4}-\d{2}-\d{2}$/`. */
  predicate IsIsoShape(s: string)
  {
    |s| == 10 && AllDigits(s[..4]) && s[4] == '-' && AllDigits(s[5..7]) && s[7] == '-' && AllDigits(s[8..10])
  }

  /** The three numbers of a `YYYY-MM-DD` text, or `None` when the text has another shape. */
  function ParseIso(s: string): (r: Option<Ymd>)
    ensures r.Some? <==> IsIsoShape(s)
    ensures r.Some? ==> 0 <= r.value.year < 10000 && 0 <= r.value.month < 100 && 0 <= r.value.day < 100
  {
    if IsIsoShape(s) then
      assert DigitsValue(s[..4]) < 10000 by { DigitsValueBound(s[..4]); }
      assert DigitsValue(s[5..7]) < 100 by { DigitsValueBound(s[5..7]); }
      assert DigitsValue(s[8..10]) < 100 by { DigitsValueBound(s[8..10]); }
      Some(Ymd(DigitsValue(s[..4]), DigitsValue(s[5..7]), DigitsValue(s[8..10])))
    else None
  }

  /** A four-digit year, a month and a day below 100 are rendered as four, two and two digits. */
  lemma IsoTextParts(year: int, month: nat, day: nat)
    requires 1000 <= year < 10000 && month < 100 && day < 100
    ensures IsoText(year, month, day) == NatToString(year) + "-" + Pad2(month) + "-" + Pad2(day)
  {
    Pad2IsPadStart(month);
    Pad2IsPadStart(day);
  }

  /** Text of the form `a-b-c` with four, two and two digits reads back as their values. */
  lemma ParseIsoParts(a: string, b: string, c: string, s: string)
    requires |a| == 4 && |b| == 2 && |c| == 2 && AllDigits(a) && AllDigits(b) && AllDigits(c)
    requires s == a + "-" + b + "-" + c
    ensures ParseIso(s) == Some(Ymd(DigitsValue(a), DigitsValue(b), DigitsValue(c)))
  {
    assert s[..4] == a && s[5..7] == b && s[8..10] == c;
  }

  /** Reading back a four-digit-year date text gives the numbers it was made of. */
  lemma IsoTextRoundTrip(year: int, month: nat, day: nat)
    requires 1000 <= year < 10000 && month < 100 && day < 100
    ensures ParseIso(IsoText(year, month, day)) == Some(Ymd(year, month, day))
  {
    IsoTextParts(year, month, day);
    FourDigitLength(year);
    NatToStringRoundTrip(year);
    Pad2Digits(month);
    Pad2Digits(day);
    ParseIsoParts(NatToString(year), Pad2(month), Pad2(day), IsoText(year, month, day));
  }
}
