/**
 * The in-memory filter settings of the expenses page (`useFilters.ts`): the
 * cached filter record, the setters that rewrite one of its fields, the
 * category toggle, and the count of active filters shown on the filter
 * button.
 */
module ExpenseFilters {
  import opened Options
  import opened Seqs

  /** `recurring` is `boolean | null`; `None` stands for `null`. */
  datatype Filters = Filters(
    searchQuery: string,
    categories: seq<string>,
    recurring: Option<bool>,
    dateFrom: string,
    dateTo: string,
    amountMin: string,
    amountMax: string)

  /** `defaultFilters`: nothing is filtered. */
  const Defaults := Filters("", [], None, "", "", "", "")

  // ---------------------------------------------------------------------
  // The category toggle
  // ---------------------------------------------------------------------

  function Other(c: string): string -> bool { (x: string) => x != c }

  /** `toggleCategory`: drop every occurrence of `c` when present, otherwise append it. */
  function Toggled(cats: seq<string>, c: string): (r: seq<string>)
    ensures c in r <==> c !in cats
    ensures forall x :: x != c ==> (x in r <==> x in cats)
  {
    if c in cats then Filter(cats, Other(c)) else cats + [c]
  }

  /** Toggling a category that is absent and then toggling it again gives back the original list. */
  lemma ToggleTwice(cats: seq<string>, c: string)
    requires c !in cats
    ensures Toggled(Toggled(cats, c), c) == cats
  {
    FilterConcat(cats, [c], Other(c));
    FilterAll(cats, Other(c));
    assert Filter([c], Other(c)) == [] by {
      assert [c][..0] == [];
    }
  }

  // ---------------------------------------------------------------------
  // Active filter count
  // ---------------------------------------------------------------------

  /** The six conditions `useActiveFiltersCount` tests, in its order. */
  function ActiveFlags(f: Filters): (flags: seq<bool>)
    ensures |flags| == 6
  {
    [|f.categories| > 0, f.recurring.Some?, f.dateFrom != "", f.dateTo != "", f.amountMin != "", f.amountMax != ""]
  }

  /** How many of `flags` hold, counted left to right. */
  function CountSet(flags: seq<bool>): nat
  {
    if flags == [] then 0 else CountSet(flags[..|flags| - 1]) + if flags[|flags| - 1] then 1 else 0
  }

  /** At most one per flag, and none exactly when no flag holds. */
  lemma {:induction false} CountSetBounds(flags: seq<bool>)
    ensures CountSet(flags) <= |flags|
    ensures CountSet(flags) == 0 <==> forall k :: 0 <= k < |flags| ==> !flags[k]
  {
    if flags != [] {
      var n := |flags| - 1;
      CountSetBounds(flags[..n]);
      assert forall k :: 0 <= k < n ==> flags[..n][k] == flags[k];
    }
  }

  /** The number of active filters: how many of the six conditions hold. */
  function ActiveCount(f: Filters): nat
  {
    CountSet(ActiveFlags(f))
  }

  /**
   * The count is at most six, does not depend on the search query, and is
   * zero exactly when every filter other than the query is at its default.
   */
  lemma ActiveCountMeaning(f: Filters, q: string)
    ensures ActiveCount(f) <= 6
    ensures ActiveCount(f.(searchQuery := q)) == ActiveCount(f)
    ensures ActiveCount(f) == 0 <==> f.(searchQuery := "") == Defaults
  {
    var flags := ActiveFlags(f);
    CountSetBounds(flags);
    assert ActiveFlags(f.(searchQuery := q)) == flags;
    assert (forall k :: 0 <= k < 6 ==> !flags[k]) <==> f.(searchQuery := "") == Defaults by {
      if forall k :: 0 <= k < 6 ==> !flags[k] {
        assert !flags[0] && !flags[1] && !flags[2] && !flags[3] && !flags[4] && !flags[5];
      }
    }
  }

  /** `useActiveFiltersCount`: 0 while the filters are not loaded, otherwise one step per active condition. */
  method CountActive(filters: Option<Filters>) returns (count: nat)
    ensures filters.None? ==> count == 0
    ensures filters.Some? ==> count == ActiveCount(filters.value)
  {
    if filters.None? {
      return 0;
    }
    var f := filters.value;
    ghost var flags := ActiveFlags(f);
    count := 0;
    if |f.categories| > 0 { count := count + 1; }
    assert flags[..1][..0] == [];
    assert count == CountSet(flags[..1]);
    if f.recurring.Some? { count := count + 1; }
    assert flags[..2][..1] == flags[..1];
    assert count == CountSet(flags[..2]);
    if f.dateFrom != "" { count := count + 1; }
    assert flags[..3][..2] == flags[..2];
    assert count == CountSet(flags[..3]);
    if f.dateTo != "" { count := count + 1; }
    assert flags[..4][..3] == flags[..3];
    assert count == CountSet(flags[..4]);
    if f.amountMin != "" { count := count + 1; }
    assert flags[..5][..4] == flags[..4];
    assert count == CountSet(flags[..5]);
    if f.amountMax != "" { count := count + 1; }
    assert flags[..5] == flags[..|flags| - 1];
    assert count == CountSet(flags);
  }

  // ---------------------------------------------------------------------
  // The cached filter record
  // ---------------------------------------------------------------------

  /**
   * The query-cache entry for the filters. It is absent until something
   * writes it; reading an absent entry gives the defaults, and every setter
   * starts from the defaults when the entry is absent.
   */
  class FilterCache {
    var entry: Option<Filters>

    /** What `useFilters` returns. */
    function Current(): Filters
      reads this
    {
      entry.GetOr(Defaults)
    }

    constructor()
      ensures Current() == Defaults
    {
      entry := None;
    }

    method SetSearchQuery(q: string)
      modifies this
      ensures entry == Some(old(Current()).(searchQuery := q))
    {
      entry := Some(Current().(searchQuery := q));
    }

    method ToggleCategory(c: string)
      modifies this
      ensures entry == Some(old(Current()).(categories := Toggled(old(Current()).categories, c)))
      ensures c in Current().categories <==> c !in old(Current()).categories
    {
      var f := Current();
      entry := Some(f.(categories := Toggled(f.categories, c)));
    }

    method SetRecurring(r: Option<bool>)
      modifies this
      ensures entry == Some(old(Current()).(recurring := r))
    {
      entry := Some(Current().(recurring := r));
    }

    method SetDateFrom(d: string)
      modifies this
      ensures entry == Some(old(Current()).(dateFrom := d))
    {
      entry := Some(Current().(dateFrom := d));
    }

    method SetDateTo(d: string)
      modifies this
      ensures entry == Some(old(Current()).(dateTo := d))
    {
      entry := Some(Current().(dateTo := d));
    }

    method SetAmountMin(a: string)
      modifies this
      ensures entry == Some(old(Current()).(amountMin := a))
    {
      entry := Some(Current().(amountMin := a));
    }

    method SetAmountMax(a: string)
      modifies this
      ensures entry == Some(old(Current()).(amountMax := a))
    {
      entry := Some(Current().(amountMax := a));
    }

    /** `clearFilters`: the entry becomes the defaults, so no filter is active. */
    method ClearFilters()
      modifies this
      ensures entry == Some(Defaults)
      ensures ActiveCount(Current()) == 0
    {
      entry := Some(Defaults);
      ActiveCountMeaning(Defaults, "");
    }
  }
}
