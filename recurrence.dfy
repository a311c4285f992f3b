/**
 * Expansion of a recurring transaction into dated copies between two days,
 * and the next free transaction id.
 */
module Recurrence {
  import opened Options
  import opened Text
  import opened CivilDate
  import opened Entities

  datatype Frequency = Weekly | Monthly | Yearly

  /**
   * `getNextDate`: weekly is `setDate(getDate() + 7)`, monthly is
   * `setMonth(getMonth() + 1)` and yearly is `setFullYear(getFullYear() + 1)`,
   * each normalised as `Date` does when the day does not exist.
   */
  function NextDate(d: Date, f: Frequency): (r: Date)
    requires Valid(d)
    ensures Valid(r)
  {
    match f
    case Weekly => Normalize(d.year, d.month, d.day + 7)
    case Monthly => Normalize(d.year, d.month + 1, d.day)
    case Yearly => Normalize(d.year + 1, d.month, d.day)
  }

  /** A week later is seven days later. */
  lemma WeeklyDays(d: Date)
    requires Valid(d)
    ensures DayNumber(NextDate(d, Weekly)) == DayNumber(d) + 7
  {
    NormalizeInMonth(d.year, d.month, d.day + 7);
    assert NextDate(d, Weekly) == CarryDays(d.year, d.month, d.day + 7);
    CarryDayNumber(d.year, d.month, d.day + 7);
    DayInMonth(d.year, d.month, d.day);
  }

  /**
   * A month later is as many days later as the month has: the same day of
   * the next month, or past its end carried into the month after.
   */
  lemma MonthlyDays(d: Date)
    requires Valid(d)
    ensures DayNumber(NextDate(d, Monthly)) == DayNumber(d) + DaysInMonth(d.year, d.month)
  {
    MonthEnd(d.year, d.month);
    DayInMonth(d.year, d.month, d.day);
    if d.month == 11 {
      DecemberNextMonthDays(d);
    } else {
      NextMonthDays(d);
    }
  }

  lemma DecemberNextMonthDays(d: Date)
    requires Valid(d) && d.month == 11
    ensures DayNumber(NextDate(d, Monthly)) == DayNumber(Date(d.year + 1, 0, 1)) + d.day - 1
  {
    NormalizeNextMonth(d.year, d.month, d.day);
    assert NextDate(d, Monthly) == CarryDays(d.year + 1, 0, d.day);
    CarryDayNumber(d.year + 1, 0, d.day);
  }

  lemma NextMonthDays(d: Date)
    requires Valid(d) && d.month < 11
    ensures DayNumber(NextDate(d, Monthly)) == DayNumber(Date(d.year, d.month + 1, 1)) + d.day - 1
  {
    NormalizeNextMonth(d.year, d.month, d.day);
    assert NextDate(d, Monthly) == CarryDays(d.year, d.month + 1, d.day);
    CarryDayNumber(d.year, d.month + 1, d.day);
  }

  /** A year later is the same day count from the first of the same month of the next year. */
  lemma YearlyDays(d: Date)
    requires Valid(d)
    ensures DayNumber(NextDate(d, Yearly)) == DayNumber(Date(d.year + 1, d.month, 1)) + d.day - 1
  {
    NormalizeInMonth(d.year + 1, d.month, d.day);
    assert NextDate(d, Yearly) == CarryDays(d.year + 1, d.month, d.day);
    CarryDayNumber(d.year + 1, d.month, d.day);
  }

  /** The next date comes later on the calendar. */
  lemma NextDateLater(d: Date, f: Frequency)
    requires Valid(d)
    ensures Before(d, NextDate(d, f))
    ensures Key(d) < Key(NextDate(d, f))
  {
    match f
    case Weekly => WeeklyLater(d);
    case Monthly => MonthlyLater(d);
    case Yearly => YearlyLater(d);
    KeyOrder(d, NextDate(d, f));
  }

  lemma WeeklyLater(d: Date)
    requires Valid(d)
    ensures Key(d) < Key(NextDate(d, Weekly))
  {
    NormalizeInMonth(d.year, d.month, d.day + 7);
    assert NextDate(d, Weekly) == CarryDays(d.year, d.month, d.day + 7);
    CarryBound(d.year, d.month, d.day + 7);
  }

  lemma MonthlyLater(d: Date)
    requires Valid(d)
    ensures Key(d) < Key(NextDate(d, Monthly))
  {
    NormalizeNextMonth(d.year, d.month, d.day);
    if d.month == 11 {
      assert NextDate(d, Monthly) == CarryDays(d.year + 1, 0, d.day);
      CarryBound(d.year + 1, 0, d.day);
    } else {
      assert NextDate(d, Monthly) == CarryDays(d.year, d.month + 1, d.day);
      CarryBound(d.year, d.month + 1, d.day);
    }
  }

  lemma YearlyLater(d: Date)
    requires Valid(d)
    ensures Key(d) < Key(NextDate(d, Yearly))
  {
    NormalizeInMonth(d.year + 1, d.month, d.day);
    assert NextDate(d, Yearly) == CarryDays(d.year + 1, d.month, d.day);
    CarryBound(d.year + 1, d.month, d.day);
  }

  /** A week later in the same month keeps the month. */
  lemma WeeklyInMonth(d: Date)
    requires Valid(d) && d.day + 7 <= DaysInMonth(d.year, d.month)
    ensures NextDate(d, Weekly) == Date(d.year, d.month, d.day + 7)
  {
    NormalizeInMonth(d.year, d.month, d.day + 7);
  }

  /** A week later past the end of a month lands early in the next month, January after December. */
  lemma WeeklyAcrossMonth(d: Date)
    requires Valid(d) && d.day + 7 > DaysInMonth(d.year, d.month)
    ensures NextDate(d, Weekly) == if d.month == 11 then Date(d.year + 1, 0, d.day + 7 - 31)
      else Date(d.year, d.month + 1, d.day + 7 - DaysInMonth(d.year, d.month))
  {
    var n := DaysInMonth(d.year, d.month);
    NormalizeInMonth(d.year, d.month, d.day + 7);
    if d.month == 11 {
      assert CarryDays(d.year, 11, d.day + 7) == CarryDays(d.year + 1, 0, d.day + 7 - n);
    } else {
      assert CarryDays(d.year, d.month, d.day + 7) == CarryDays(d.year, d.month + 1, d.day + 7 - n);
    }
  }

  /** A month later keeps the day of the month when that day exists, January after December. */
  lemma MonthlyKeepsDay(d: Date)
    requires Valid(d) && d.day <= DaysInMonth(d.year, (d.month + 1) % 12)
    ensures NextDate(d, Monthly) == if d.month == 11 then Date(d.year + 1, 0, d.day) else Date(d.year, d.month + 1, d.day)
  {
    NormalizeNextMonth(d.year, d.month, d.day);
    if d.month != 11 {
      assert (d.month + 1) % 12 == d.month + 1;
    }
  }

  /** A month after January 31st is March 3rd, or March 2nd in a leap year. */
  lemma MonthlyFromJanuary31(y: int)
    ensures NextDate(Date(y, 0, 31), Monthly) == if IsLeap(y) then Date(y, 2, 2) else Date(y, 2, 3)
  {
    NormalizeNextMonth(y, 0, 31);
    assert CarryDays(y, 1, 31) == CarryDays(y, 2, 31 - DaysInMonth(y, 1));
  }

  /** A year later keeps month and day, except from February 29th. */
  lemma YearlyKeepsDay(d: Date)
    requires Valid(d) && !(d.month == 1 && d.day == 29)
    ensures NextDate(d, Yearly) == Date(d.year + 1, d.month, d.day)
  {
    NormalizeInMonth(d.year + 1, d.month, d.day);
    assert d.day <= DaysInMonth(d.year + 1, d.month);
  }

  /** A year after February 29th is March 1st. */
  lemma YearlyFromLeapDay(y: int)
    requires IsLeap(y)
    ensures NextDate(Date(y, 1, 29), Yearly) == Date(y + 1, 2, 1)
  {
    Divisibility(y);
    Divisibility(y + 1);
    assert !IsLeap(y + 1);
    NormalizeInMonth(y + 1, 1, 29);
    assert CarryDays(y + 1, 1, 29) == CarryDays(y + 1, 2, 1);
  }

  /** `formatDate`: `YYYY-MM-DD` with the 1-based month and the day padded to two digits. */
  function FormatDate(d: Date): string
  {
    IsoText(d.year, d.month + 1, d.day)
  }

  /** For a four-digit year the formatted text has the `YYYY-MM-DD` shape and reads back as the same day. */
  lemma FormatDateRoundTrip(d: Date)
    requires Valid(d) && 1000 <= d.year < 10000
    ensures IsIsoShape(FormatDate(d)) && ParseIso(FormatDate(d)) == Some(Ymd(d.year, d.month + 1, d.day))
  {
    IsoTextRoundTrip(d.year, d.month + 1, d.day);
  }

  /**
   * The days the generator visits: `start`, then each next date, as long as
   * it is not after `end`.
   */
  function Occurrences(start: Date, end: Date, f: Frequency): (r: seq<Date>)
    requires Valid(start) && Valid(end)
    ensures r == [] <==> Before(end, start)
    ensures r != [] ==> r[0] == start
    ensures forall k :: 0 <= k < |r| ==> Valid(r[k])
    decreases Key(end) - Key(start)
  {
    if Before(end, start) then []
    else
      KeyOrder(end, start);
      NextDateLater(start, f);
      [start] + Occurrences(NextDate(start, f), end, f)
  }

  /** Each visited day after the first is the next date of the one before it. */
  lemma {:induction false} OccurrencesSuccessive(start: Date, end: Date, f: Frequency, k: nat)
    requires Valid(start) && Valid(end) && k + 1 < |Occurrences(start, end, f)|
    ensures Occurrences(start, end, f)[k + 1] == NextDate(Occurrences(start, end, f)[k], f)
    decreases k
  {
    if k > 0 {
      OccurrencesSuccessive(NextDate(start, f), end, f, k - 1);
    }
  }

  /** Every visited day lies between `start` and `end`. */
  lemma {:induction false} OccurrencesBounded(start: Date, end: Date, f: Frequency)
    requires Valid(start) && Valid(end)
    ensures forall d :: d in Occurrences(start, end, f) ==> !Before(d, start) && !Before(end, d)
    decreases Key(end) - Key(start)
  {
    if !Before(end, start) {
      KeyOrder(end, start);
      NextDateLater(start, f);
      OccurrencesBounded(NextDate(start, f), end, f);
    }
  }

  /** Each visited day comes before the next one. */
  lemma OccurrencesStep(start: Date, end: Date, f: Frequency, k: nat)
    requires Valid(start) && Valid(end) && k + 1 < |Occurrences(start, end, f)|
    ensures Before(Occurrences(start, end, f)[k], Occurrences(start, end, f)[k + 1])
  {
    OccurrencesSuccessive(start, end, f, k);
    NextDateLater(Occurrences(start, end, f)[k], f);
  }

  /** The visited days come in increasing calendar order. */
  lemma {:induction false} OccurrencesIncrease(start: Date, end: Date, f: Frequency, i: nat, j: nat)
    requires Valid(start) && Valid(end)
    requires i < j < |Occurrences(start, end, f)|
    ensures Before(Occurrences(start, end, f)[i], Occurrences(start, end, f)[j])
    decreases j - i
  {
    var occ := Occurrences(start, end, f);
    OccurrencesStep(start, end, f, j - 1);
    if j > i + 1 {
      OccurrencesIncrease(start, end, f, i, j - 1);
      BeforeTransitive(occ[i], occ[j - 1], occ[j]);
    }
  }

  /**
   * One turn of the generator's loop: when the visited days from `current`
   * are the suffix of `all` from `i` on, `current` is at `i` and the days
   * from the next date follow it.
   */
  lemma OccurrencesSlice(all: seq<Date>, i: nat, current: Date, end: Date, f: Frequency)
    requires Valid(current) && Valid(end) && !Before(end, current)
    requires i <= |all| && all[i..] == Occurrences(current, end, f)
    ensures i < |all| && all[i] == current
    ensures all[i + 1..] == Occurrences(NextDate(current, f), end, f)
    ensures Key(current) <= Key(end) && Key(current) < Key(NextDate(current, f))
  {
    KeyOrder(end, current);
    NextDateLater(current, f);
    assert Occurrences(current, end, f) == [current] + Occurrences(NextDate(current, f), end, f);
    assert all[i..][0] == current;
    assert all[i + 1..] == all[i..][1..];
  }

  /** `{ ...base, id, date: formatDate(day), isGenerated: true, parentId: base.id }`. */
  function Copy(base: Expense, id: int, day: Date): Expense
  {
    base.(id := id, date := FormatDate(day), isGenerated := true, parentId := Some(base.id))
  }

  /**
   * `generateRecurringExpenses`: one copy of `base` per visited day, with
   * consecutive ids after `base.id`, a parent link to `base` and every other
   * field copied.
   */
  method GenerateRecurringExpenses(base: Expense, start: Date, end: Date, f: Frequency)
    returns (generated: seq<Expense>)
    requires Valid(start) && Valid(end)
    ensures |generated| == |Occurrences(start, end, f)|
    ensures forall k :: 0 <= k < |generated| ==> generated[k] == Copy(base, base.id + 1 + k, Occurrences(start, end, f)[k])
  {
    ghost var all := Occurrences(start, end, f);
    generated := [];
    var current := start;
    var idCounter := base.id + 1;
    while !Before(end, current)
      invariant Valid(current)
      invariant |generated| <= |all| && all[|generated|..] == Occurrences(current, end, f)
      invariant idCounter == base.id + 1 + |generated|
      invariant CopiesOf(generated, base, all)
      decreases Key(end) - Key(current)
    {
      GenerateStep(all, generated, base, idCounter, current, end, f);
      generated := generated + [Copy(base, idCounter, current)];
      idCounter := idCounter + 1;
      current := NextDate(current, f);
    }
  }

  /** One turn of the generator's loop keeps its invariants and brings `current` closer to `end`. */
  lemma GenerateStep(all: seq<Date>, g: seq<Expense>, base: Expense, id: int, current: Date, end: Date, f: Frequency)
    requires Valid(current) && Valid(end) && !Before(end, current)
    requires |g| <= |all| && all[|g|..] == Occurrences(current, end, f)
    requires id == base.id + 1 + |g| && CopiesOf(g, base, all)
    ensures Valid(NextDate(current, f))
    ensures |g| + 1 <= |all| && all[|g| + 1..] == Occurrences(NextDate(current, f), end, f)
    ensures CopiesOf(g + [Copy(base, id, current)], base, all)
    ensures 0 <= Key(end) - Key(current) && Key(end) - Key(NextDate(current, f)) < Key(end) - Key(current)
  {
    OccurrencesSlice(all, |g|, current, end, f);
    var copy := Copy(base, id, current);
    CopiesOfStep(g, base, all, id, current, copy);
  }

  /** `g` holds the copies of `base` for the first `|g|` days of `all`, with consecutive ids. */
  predicate CopiesOf(g: seq<Expense>, base: Expense, all: seq<Date>)
  {
    |g| <= |all| && forall k :: 0 <= k < |g| ==> g[k] == Copy(base, base.id + 1 + k, all[k])
  }

  lemma CopiesOfStep(g: seq<Expense>, base: Expense, all: seq<Date>, id: int, day: Date, copy: Expense)
    requires CopiesOf(g, base, all) && |g| < |all|
    requires id == base.id + |g| + 1 && day == all[|g|] && copy == Copy(base, id, day)
    ensures CopiesOf(g + [copy], base, all)
  {
    var h := g + [copy];
    forall k | 0 <= k < |h| ensures h[k] == Copy(base, base.id + 1 + k, all[k]) {
      if k < |g| {
        assert h[k] == g[k];
      } else {
        assert h[k] == copy;
        CopyCongruence(base, id, day, base.id + 1 + k, all[k]);
      }
    }
  }

  lemma CopyCongruence(base: Expense, id: int, day: Date, id': int, day': Date)
    requires id == id' && day == day'
    ensures Copy(base, id, day) == Copy(base, id', day')
  {
  }

  /** Every generated copy keeps the fields of `base` other than id, date, generated flag and parent link. */
  lemma CopyFields(base: Expense, id: int, day: Date)
    ensures var e := Copy(base, id, day);
      e.id == id && e.date == FormatDate(day) && e.isGenerated && e.parentId == Some(base.id)
      && e.category == base.category && e.description == base.description && e.amount == base.amount
      && e.recurring == base.recurring && e.entryType == base.entryType
  {
  }

  /** `getNextExpenseId`: 1 for an empty list, otherwise one more than the largest id. */
  function NextExpenseId(expenses: seq<Expense>): (r: int)
    ensures expenses == [] ==> r == 1
    ensures forall k :: 0 <= k < |expenses| ==> expenses[k].id < r
    ensures expenses != [] ==> exists k :: 0 <= k < |expenses| && expenses[k].id == r - 1
  {
    if expenses == [] then 1 else MaxId(expenses) + 1
  }

  /** `Math.max` over the ids of a non-empty list. */
  function MaxId(expenses: seq<Expense>): (m: int)
    requires expenses != []
    ensures forall k :: 0 <= k < |expenses| ==> expenses[k].id <= m
    ensures exists k :: 0 <= k < |expenses| && expenses[k].id == m
  {
    if |expenses| == 1 then expenses[0].id
    else
      var rest := MaxId(expenses[1..]);
      if expenses[0].id >= rest then expenses[0].id else rest
  }
}
