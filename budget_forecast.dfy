/**
 * The forecast page (`Budget.tsx`): the month being looked at, the recurring
 * transactions sorted by amount, the monthly net of recurring income and
 * recurring expenses, and the amount saved up to the selected month and over
 * the next three months.
 */
module BudgetForecast {
  import opened Seqs
  import opened Entities

  // ---------------------------------------------------------------------
  // Months
  // ---------------------------------------------------------------------

  const MonthNames: seq<string> := ["Janvier", "Février", "Mars", "Avril", "Mai", "Juin",
    "Juillet", "Août", "Septembre", "Octobre", "Novembre", "Décembre"]

  /** `year * 12 + month`, with `month` counted from 0 as `getMonth()` does. */
  function MonthIndex(year: int, month: int): int { year * 12 + month }

  /**
   * `new Date(year, month)` for a month number out of 0..11: the month wraps
   * into the year before or after, so only the month index matters.
   */
  function FromIndex(n: int): (ym: (int, int))
    ensures 0 <= ym.1 < 12 && MonthIndex(ym.0, ym.1) == n
  {
    (n / 12, n % 12)
  }

  /** A year and a month in 0..11 are recovered from their month index. */
  lemma FromIndexOfMonthIndex(year: int, month: int)
    requires 0 <= month < 12
    ensures FromIndex(MonthIndex(year, month)) == (year, month)
  {
    var n := MonthIndex(year, month);
    assert n / 12 == year && n % 12 == month by {
      assert n == year * 12 + month;
    }
  }

  /** The month picker: the selected year and month (0..11). */
  class MonthPicker {
    var year: int
    var month: int

    predicate Valid()
      reads this
    {
      0 <= month < 12
    }

    function Index(): int
      reads this
    {
      MonthIndex(year, month)
    }

    /** The page opens on today's month. */
    constructor(todayYear: int, todayMonth: int)
      requires 0 <= todayMonth < 12
      ensures Valid() && year == todayYear && month == todayMonth
    {
      year := todayYear;
      month := todayMonth;
    }

    /** `goToPreviousMonth`. */
    method GoToPreviousMonth()
      modifies this
      ensures Valid() && Index() == old(Index()) - 1
    {
      var ym := FromIndex(MonthIndex(year, month) - 1);
      year, month := ym.0, ym.1;
    }

    /** `goToNextMonth`. */
    method GoToNextMonth()
      modifies this
      ensures Valid() && Index() == old(Index()) + 1
    {
      var ym := FromIndex(MonthIndex(year, month) + 1);
      year, month := ym.0, ym.1;
    }

    /** The month name shown: one of the twelve names, and the name of no other month. */
    function CurrentMonthName(): (name: string)
      requires Valid()
      reads this
      ensures name in MonthNames
      ensures forall k :: 0 <= k < |MonthNames| && MonthNames[k] == name ==> k == month
    {
      MonthNames[month]
    }
  }

  /** Moving forward then back, from any valid state, returns to the same year and month. */
  lemma NextThenPrevious(year: int, month: int)
    requires 0 <= month < 12
    ensures var next := FromIndex(MonthIndex(year, month) + 1);
      FromIndex(MonthIndex(next.0, next.1) - 1) == (year, month)
  {
    FromIndexOfMonthIndex(year, month);
  }

  // ---------------------------------------------------------------------
  // Recurring transactions
  // ---------------------------------------------------------------------

  predicate SortedDesc(xs: seq<Expense>)
  {
    forall i, j :: 0 <= i < j < |xs| ==> xs[i].amount >= xs[j].amount
  }

  /** Puts `x` after the leading elements of `r` whose amount is at least its own. */
  function InsertDesc(x: Expense, r: seq<Expense>): (s: seq<Expense>)
    ensures multiset(s) == multiset(r) + multiset{x}
  {
    if r == [] then [x]
    else if r[0].amount >= x.amount then
      assert r == [r[0]] + r[1..];
      [r[0]] + InsertDesc(x, r[1..])
    else [x] + r
  }

  /** Inserting into a sorted list keeps it sorted. */
  lemma {:induction false} InsertDescSorted(x: Expense, r: seq<Expense>)
    requires SortedDesc(r)
    ensures SortedDesc(InsertDesc(x, r))
  {
    if r != [] && r[0].amount >= x.amount {
      var t := InsertDesc(x, r[1..]);
      InsertDescSorted(x, r[1..]);
      forall k | 0 <= k < |t|
        ensures t[k].amount <= r[0].amount
      {
        assert t[k] in multiset(t);
        assert t[k] == x || t[k] in multiset(r[1..]);
      }
    }
  }

  /** `.sort((a, b) => b.amount - a.amount)`: the largest amount first, equal amounts in their original order. */
  function SortDesc(xs: seq<Expense>): (s: seq<Expense>)
    ensures SortedDesc(s) && multiset(s) == multiset(xs)
  {
    if xs == [] then []
    else
      var n := |xs| - 1;
      assert xs == xs[..n] + [xs[n]];
      InsertDescSorted(xs[n], SortDesc(xs[..n]));
      InsertDesc(xs[n], SortDesc(xs[..n]))
  }

  function IsRecurring(e: Expense): bool { e.recurring }

  /** `recurringExpenses`: the recurring records, largest amount first; exactly those records, each as often as it occurs. */
  function RecurringSorted(es: seq<Expense>): (r: seq<Expense>)
    ensures SortedDesc(r) && multiset(r) == multiset(Filter(es, IsRecurring))
    ensures forall k :: 0 <= k < |r| ==> r[k].recurring && r[k] in es
  {
    var s := SortDesc(Filter(es, IsRecurring));
    assert forall k :: 0 <= k < |s| ==> s[k] in multiset(Filter(es, IsRecurring));
    s
  }

  // ---------------------------------------------------------------------
  // Totals
  // ---------------------------------------------------------------------

  function Amount(e: Expense): real { e.amount }

  function IsIncome(e: Expense): bool { e.entryType == IncomeEntry }

  function IsExpense(e: Expense): bool { e.entryType == ExpenseEntry }

  /** `totalRecurringIncome`, summed over the sorted list as the page does. */
  function IncomeTotal(es: seq<Expense>): real
  {
    Sum(Filter(RecurringSorted(es), IsIncome), Amount)
  }

  /** `totalRecurringExpense`. */
  function ExpenseTotal(es: seq<Expense>): real
  {
    Sum(Filter(RecurringSorted(es), IsExpense), Amount)
  }

  /** `monthlyCumulative`. */
  function Net(es: seq<Expense>): real
  {
    IncomeTotal(es) - ExpenseTotal(es)
  }

  /** What a record adds to the recurring income: its amount when it is recurring income, else 0. */
  function IncomeShare(e: Expense): real { if e.recurring && e.entryType == IncomeEntry then e.amount else 0.0 }

  /** What a record adds to the recurring expenses. A record without a type (a CSV import) adds to neither total. */
  function ExpenseShare(e: Expense): real { if e.recurring && e.entryType == ExpenseEntry then e.amount else 0.0 }

  /** A total over the sorted recurring records equals the plain sum of the shares over every record. */
  lemma SortedTotal(es: seq<Expense>, p: Expense -> bool, share: Expense -> real)
    requires forall e :: share(e) == if e.recurring && p(e) then e.amount else 0.0
    ensures Sum(Filter(RecurringSorted(es), p), Amount) == Sum(es, share)
  {
    var rec := Filter(es, IsRecurring);
    SumFilter(RecurringSorted(es), p, Amount);
    SumPermutation(RecurringSorted(es), rec, Gated(p, Amount));
    SumFilter(es, IsRecurring, Gated(p, Amount));
    SumCongruent(es, Gated(IsRecurring, Gated(p, Amount)), share);
  }

  /**
   * The totals do not depend on the order of the list: each is the sum of
   * the amounts of the recurring records of its type, and the net is their
   * difference.
   */
  lemma TotalsMeaning(es: seq<Expense>)
    ensures IncomeTotal(es) == Sum(es, IncomeShare)
    ensures ExpenseTotal(es) == Sum(es, ExpenseShare)
    ensures Net(es) == Sum(es, IncomeShare) - Sum(es, ExpenseShare)
  {
    SortedTotal(es, IsIncome, IncomeShare);
    SortedTotal(es, IsExpense, ExpenseShare);
  }

  /** Totals never go below zero when every amount is non-negative. */
  lemma TotalsNonNegative(es: seq<Expense>)
    requires forall k :: 0 <= k < |es| ==> es[k].amount >= 0.0
    ensures IncomeTotal(es) >= 0.0 && ExpenseTotal(es) >= 0.0
  {
    TotalsMeaning(es);
    SumNonNegative(es, IncomeShare);
    SumNonNegative(es, ExpenseShare);
  }

  // ---------------------------------------------------------------------
  // The forecast
  // ---------------------------------------------------------------------

  /** `monthsDifference`: how many months the selected month lies after today's. */
  function MonthsDifference(selYear: int, selMonth: int, todayYear: int, todayMonth: int): int
  {
    MonthIndex(selYear, selMonth) - MonthIndex(todayYear, todayMonth)
  }

  /** `cumulativeTotal`: nothing for a past month, otherwise the net times the months up to and including the selected one. */
  function CumulativeTotal(net: real, diff: int): real
  {
    if diff < 0 then 0.0 else net * (diff + 1) as real
  }

  /** The multiplier printed under the total. */
  function Multiplier(diff: int): (k: nat)
    ensures k == 0 <==> diff < 0
  {
    if diff >= 0 then diff + 1 else 0
  }

  /** The printed product is the total shown: the net times the multiplier. */
  lemma CumulativeIsNetTimesMultiplier(net: real, diff: int)
    ensures CumulativeTotal(net, diff) == net * Multiplier(diff) as real
    ensures diff >= 0 ==> CumulativeTotal(net, diff + 1) == CumulativeTotal(net, diff) + net
  {
  }

  /** One entry of `futureMonths`. */
  datatype MonthForecast = MonthForecast(month: string, year: int, cumulative: real)

  /** Entry `i` of `futureMonths`: the month `i` months after today, and `i + 1` months of net. */
  function ForecastAt(todayYear: int, todayMonth: int, net: real, i: nat): MonthForecast
  {
    var ym := FromIndex(MonthIndex(todayYear, todayMonth) + i);
    MonthForecast(MonthNames[ym.1], ym.0, net * (i + 1) as real)
  }

  /**
   * Entry `i` names the month `i` months after today and holds the total the
   * page shows when that month is selected.
   */
  lemma ForecastAgreesWithSelection(todayYear: int, todayMonth: int, net: real, i: nat)
    ensures var ym := FromIndex(MonthIndex(todayYear, todayMonth) + i);
      ForecastAt(todayYear, todayMonth, net, i).year == ym.0
      && ForecastAt(todayYear, todayMonth, net, i).month == MonthNames[ym.1]
      && ForecastAt(todayYear, todayMonth, net, i).cumulative
        == CumulativeTotal(net, MonthsDifference(ym.0, ym.1, todayYear, todayMonth))
  {
  }

  /** `futureMonths`: the loop over `i = 0..2`. */
  method FutureMonths(todayYear: int, todayMonth: int, net: real) returns (result: seq<MonthForecast>)
    ensures |result| == 3
    ensures forall i :: 0 <= i < 3 ==> result[i] == ForecastAt(todayYear, todayMonth, net, i)
  {
    result := [];
    for i := 0 to 3
      invariant |result| == i
      invariant forall k :: 0 <= k < i ==> result[k] == ForecastAt(todayYear, todayMonth, net, k)
    {
      var ym := FromIndex(MonthIndex(todayYear, todayMonth) + i);
      result := result + [MonthForecast(MonthNames[ym.1], ym.0, net * (i + 1) as real)];
    }
  }
}
