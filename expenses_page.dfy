/**
 * The expenses page (`Expenses.tsx`): the filtered list, the list of
 * categories, the row selection, and the bulk edits that rewrite the list
 * through the store.
 */
module ExpensesPage {
  import opened Options
  import opened Text
  import opened Seqs
  import opened JsNumber
  import opened Entities
  import opened ExpenseStore
  import opened ExpenseFilters

  // ---------------------------------------------------------------------
  // The filtered list
  // ---------------------------------------------------------------------

  /** `amount < parseFloat(bound)`: a comparison with NaN is false. */
  predicate Below(amount: real, bound: Option<real>) { bound.Some? && amount < bound.value }

  /** `amount > parseFloat(bound)`. */
  predicate Above(amount: real, bound: Option<real>) { bound.Some? && amount > bound.value }

  /** The `filter` callback of `filteredExpenses`: each filter that is set may reject the record, in the page's order. */
  function KeepExpense(e: Expense, f: Filters): bool
  {
    var q := ToLower(f.searchQuery);
    if f.searchQuery != [] && !Contains(ToLower(e.description), q) && !Contains(ToLower(e.category), q) then false
    else if |f.categories| > 0 && e.category !in f.categories then false
    else if f.recurring.Some? && e.recurring != f.recurring.value then false
    else if f.dateFrom != [] && StrLess(e.date, f.dateFrom) then false
    else if f.dateTo != [] && StrLess(f.dateTo, e.date) then false
    else if f.amountMin != [] && Below(e.amount, ParseFloat(f.amountMin)) then false
    else if f.amountMax != [] && Above(e.amount, ParseFloat(f.amountMax)) then false
    else true
  }

  /** `s1 <= s2` on strings. */
  predicate StrAtMost(a: string, b: string) { a == b || StrLess(a, b) }

  /**
   * What a kept record satisfies: the lower-cased query occurs in its
   * description or category; its category is listed; its recurring flag is
   * the one asked for; `dateFrom <= date <= dateTo`; and
   * `amountMin <= amount <= amountMax` for the bounds that parse to a number.
   * An unset filter asks nothing.
   */
  predicate Kept(e: Expense, f: Filters)
  {
    (f.searchQuery != [] ==>
      Contains(ToLower(e.description), ToLower(f.searchQuery)) || Contains(ToLower(e.category), ToLower(f.searchQuery)))
    && (|f.categories| > 0 ==> e.category in f.categories)
    && (f.recurring.Some? ==> e.recurring == f.recurring.value)
    && (f.dateFrom != [] ==> StrAtMost(f.dateFrom, e.date))
    && (f.dateTo != [] ==> StrAtMost(e.date, f.dateTo))
    && (f.amountMin != [] && ParseFloat(f.amountMin).Some? ==> ParseFloat(f.amountMin).value <= e.amount)
    && (f.amountMax != [] && ParseFloat(f.amountMax).Some? ==> e.amount <= ParseFloat(f.amountMax).value)
  }

  /** The early-return chain keeps a record exactly when all the conditions hold. */
  lemma KeepExpenseIff(e: Expense, f: Filters)
    ensures KeepExpense(e, f) <==> Kept(e, f)
  {
    StrLessTotal(e.date, f.dateFrom);
    StrLessTotal(f.dateTo, e.date);
  }

  function KeepTest(f: Filters): Expense -> bool { (e: Expense) => KeepExpense(e, f) }

  /** `filteredExpenses`. */
  function Filtered(es: seq<Expense>, f: Filters): (r: seq<Expense>)
    ensures |r| <= |es|
  {
    Filter(es, KeepTest(f))
  }

  /**
   * The filtered list holds the records of `es` that satisfy `Kept`, all of
   * them, in their order (filtering a concatenation filters each part); with
   * no filter set it is the whole list.
   */
  lemma FilteredMeaning(es: seq<Expense>, f: Filters, a: seq<Expense>, b: seq<Expense>)
    ensures forall k :: 0 <= k < |Filtered(es, f)| ==> Filtered(es, f)[k] in es && Kept(Filtered(es, f)[k], f)
    ensures forall k :: 0 <= k < |es| && Kept(es[k], f) ==> es[k] in Filtered(es, f)
    ensures Filtered(a + b, f) == Filtered(a, f) + Filtered(b, f)
    ensures Filtered(es, Defaults) == es
  {
    var r := Filtered(es, f);
    forall k | 0 <= k < |r|
      ensures Kept(r[k], f)
    {
      KeepExpenseIff(r[k], f);
    }
    forall k | 0 <= k < |es| && Kept(es[k], f)
      ensures es[k] in r
    {
      KeepExpenseIff(es[k], f);
    }
    FilterConcat(a, b, KeepTest(f));
    FilterAll(es, KeepTest(Defaults));
  }

  // ---------------------------------------------------------------------
  // Categories
  // ---------------------------------------------------------------------

  /** `uniqueCategories`: `Array.from(new Set(expenses.map(e => e.category)))`. */
  function UniqueCategories(es: seq<Expense>): seq<string>
  {
    Distinct(CategoriesOf(es))
  }

  /** Every record's category is listed, each category once, and only categories some record carries. */
  lemma UniqueCategoriesMeaning(es: seq<Expense>)
    ensures NoDuplicates(UniqueCategories(es))
    ensures forall k :: 0 <= k < |es| ==> es[k].category in UniqueCategories(es)
    ensures forall c :: c in UniqueCategories(es) ==> exists k :: 0 <= k < |es| && es[k].category == c
  {
    var cs := CategoriesOf(es);
    forall c | c in UniqueCategories(es)
      ensures exists k :: 0 <= k < |es| && es[k].category == c
    {
      var k := FirstIndex(cs, c);
      assert es[k].category == c;
    }
  }

  /** The categories are listed in the order of the records that first carry them. */
  lemma UniqueCategoriesOrder(es: seq<Expense>)
    ensures var u := UniqueCategories(es);
      forall i, j :: 0 <= i < j < |u| ==> FirstIndex(CategoriesOf(es), u[i]) < FirstIndex(CategoriesOf(es), u[j])
  {
    var u := UniqueCategories(es);
    forall i, j | 0 <= i < j < |u|
      ensures FirstIndex(CategoriesOf(es), u[i]) < FirstIndex(CategoriesOf(es), u[j])
    {
      DistinctFirstAppearance(CategoriesOf(es), i, j);
    }
  }

  // ---------------------------------------------------------------------
  // Selection
  // ---------------------------------------------------------------------

  /** `toggleSelection`: `id` leaves the selection when it is in it, otherwise joins it. */
  function SelectionToggled(sel: set<int>, id: int): (r: set<int>)
    ensures id in r <==> id !in sel
    ensures forall x :: x != id ==> (x in r <==> x in sel)
  {
    if id in sel then sel - {id} else sel + {id}
  }

  /** Toggling the same id twice gives back the selection. */
  lemma SelectionToggledTwice(sel: set<int>, id: int)
    ensures SelectionToggled(SelectionToggled(sel, id), id) == sel
  {
    var r := SelectionToggled(SelectionToggled(sel, id), id);
    assert forall x :: x in r <==> x in sel;
  }

  /** The ids of `es`. */
  function IdSet(es: seq<Expense>): (ids: set<int>)
    ensures forall k :: 0 <= k < |es| ==> es[k].id in ids
    ensures forall id :: id in ids ==> exists k :: 0 <= k < |es| && es[k].id == id
  {
    set k | 0 <= k < |es| :: es[k].id
  }

  /** `toggleSelectAll` as written: the selection is cleared when its size equals the number of filtered records. */
  function SelectAllToggled(sel: set<int>, filtered: seq<Expense>): set<int>
  {
    if |sel| == |filtered| then {} else IdSet(filtered)
  }

  /**
   * As written, a selection made before the filter changed can clear
   * instead of selecting: record 1 is selected, the filter shows only
   * record 2, the header box reads as checked, and a click empties the
   * selection although record 2 was never selected.
   */
  lemma SelectAllToggledBySize()
    ensures var shown := [Expense(2, "Loisirs", "Cinéma", 24.0, "2025-11-29", false, ExpenseEntry, false, None)];
      {1} != IdSet(shown) && SelectAllToggled({1}, shown) == {}
  {
    var shown := [Expense(2, "Loisirs", "Cinéma", 24.0, "2025-11-29", false, ExpenseEntry, false, None)];
    assert 1 !in IdSet(shown);
  }

  /** `toggleSelectAll` as intended: clear when exactly the shown records are selected, otherwise select them all. */
  function SelectAllIntended(sel: set<int>, filtered: seq<Expense>): set<int>
  {
    if sel == IdSet(filtered) then {} else IdSet(filtered)
  }

  /**
   * The intended toggle empties the selection exactly when it held the shown
   * ids, and otherwise selects exactly the shown ids; two clicks from an
   * empty selection of a non-empty list come back to it.
   */
  lemma SelectAllIntendedMeaning(sel: set<int>, filtered: seq<Expense>)
    ensures SelectAllIntended(sel, filtered) == {} <==> sel == IdSet(filtered) || filtered == []
    ensures SelectAllIntended(sel, filtered) != {} ==> SelectAllIntended(sel, filtered) == IdSet(filtered)
    ensures sel == {} && filtered != [] ==> SelectAllIntended(SelectAllIntended(sel, filtered), filtered) == {}
  {
    if filtered != [] {
      assert filtered[0].id in IdSet(filtered);
    }
  }

  // ---------------------------------------------------------------------
  // Bulk edits
  // ---------------------------------------------------------------------

  function Unselected(sel: set<int>): Expense -> bool { (e: Expense) => e.id !in sel }

  /** `handleBulkDelete`'s list. */
  function WithoutSelected(es: seq<Expense>, sel: set<int>): (r: seq<Expense>)
    ensures |r| <= |es|
  {
    Filter(es, Unselected(sel))
  }

  /**
   * A bulk delete keeps exactly the records whose id is not selected, in
   * their order; with nothing selected it keeps everything, and with one id
   * selected it is the store's delete of that id.
   */
  lemma WithoutSelectedMeaning(es: seq<Expense>, sel: set<int>, id: int, a: seq<Expense>, b: seq<Expense>)
    ensures forall k :: 0 <= k < |WithoutSelected(es, sel)| ==> WithoutSelected(es, sel)[k].id !in sel
    ensures forall k :: 0 <= k < |es| && es[k].id !in sel ==> es[k] in WithoutSelected(es, sel)
    ensures WithoutSelected(a + b, sel) == WithoutSelected(a, sel) + WithoutSelected(b, sel)
    ensures WithoutSelected(es, {}) == es
    ensures WithoutSelected(es, {id}) == Deleted(es, id)
  {
    FilterConcat(a, b, Unselected(sel));
    FilterAll(es, Unselected({}));
    FilterCongruent(es, Unselected({id}), IdIsNot(id));
  }

  /** The list of a bulk edit: `change` applied to the selected records, the others kept. */
  function EditSelected(es: seq<Expense>, sel: set<int>, change: Expense -> Expense): (r: seq<Expense>)
    ensures |r| == |es|
  {
    seq(|es|, i requires 0 <= i < |es| => if es[i].id in sel then change(es[i]) else es[i])
  }

  function SetCategory(c: string): Expense -> Expense { (e: Expense) => e.(category := c) }

  function SetRecurring(r: bool): Expense -> Expense { (e: Expense) => e.(recurring := r) }

  /**
   * A bulk category assignment gives the selected records the category and
   * keeps every other field, every unselected record, the ids and the
   * order; doing it twice is doing it once.
   */
  lemma CategoryAssignMeaning(es: seq<Expense>, sel: set<int>, c: string)
    ensures forall i :: 0 <= i < |es| ==>
      EditSelected(es, sel, SetCategory(c))[i] == (if es[i].id in sel then es[i].(category := c) else es[i])
    ensures forall i :: 0 <= i < |es| ==> EditSelected(es, sel, SetCategory(c))[i].id == es[i].id
    ensures EditSelected(EditSelected(es, sel, SetCategory(c)), sel, SetCategory(c)) == EditSelected(es, sel, SetCategory(c))
    ensures EditSelected(es, {}, SetCategory(c)) == es
  {
  }

  /**
   * A bulk recurring toggle sets the flag on the selected records only and
   * keeps every other field; afterwards the filter "recurring = r" shows
   * every selected record that the other filters show.
   */
  lemma RecurringToggleMeaning(es: seq<Expense>, sel: set<int>, r: bool)
    ensures forall i :: 0 <= i < |es| ==>
      EditSelected(es, sel, SetRecurring(r))[i] == (if es[i].id in sel then es[i].(recurring := r) else es[i])
    ensures forall i :: 0 <= i < |es| && es[i].id in sel ==>
      KeepExpense(EditSelected(es, sel, SetRecurring(r))[i], Defaults.(recurring := Some(r)))
  {
    forall i | 0 <= i < |es| && es[i].id in sel
      ensures KeepExpense(EditSelected(es, sel, SetRecurring(r))[i], Defaults.(recurring := Some(r)))
    {
      KeepExpenseIff(EditSelected(es, sel, SetRecurring(r))[i], Defaults.(recurring := Some(r)));
    }
  }

  // ---------------------------------------------------------------------
  // The page
  // ---------------------------------------------------------------------

  /** The page's own state, over the shared list store and filter cache. */
  class Page {
    const store: Store
    const filters: FilterCache
    var selectedIds: set<int>
    var bulkCategory: string
    var isModalOpen: bool
    var selectedExpense: Option<Expense>

    /** `expenses`: the cached list, or none while it is absent. */
    function Expenses(): seq<Expense>
      reads this, store
    {
      store.cache.GetOr([])
    }

    function Shown(): seq<Expense>
      reads this, store, filters
    {
      Filtered(Expenses(), filters.Current())
    }

    constructor(store: Store, filters: FilterCache)
      ensures this.store == store && this.filters == filters
      ensures selectedIds == {} && bulkCategory == "" && !isModalOpen && selectedExpense == None
    {
      this.store := store;
      this.filters := filters;
      selectedIds := {};
      bulkCategory := "";
      isModalOpen := false;
      selectedExpense := None;
    }

    /** `handleOpenModal`: editing `expense`, or a new record when absent. */
    method HandleOpenModal(expense: Option<Expense>)
      modifies this`selectedExpense, this`isModalOpen
      ensures selectedExpense == expense && isModalOpen
    {
      selectedExpense := expense;
      isModalOpen := true;
    }

    method HandleCloseModal()
      modifies this`selectedExpense, this`isModalOpen
      ensures selectedExpense == None && !isModalOpen
    {
      isModalOpen := false;
      selectedExpense := None;
    }

    /** `handleSaveExpense`: an edited record replaces every record with its id; a new one is appended. */
    method HandleSaveExpense(e: Expense)
      modifies store
      ensures store.Synced()
      ensures selectedExpense.Some? ==> store.cache == Some(Updated(old(Expenses()), e.id, FullPatch(e)))
      ensures selectedExpense.None? ==> store.cache == Some(old(Expenses()) + [e])
    {
      if selectedExpense.Some? {
        store.UpdateExpense(e.id, FullPatch(e));
      } else {
        store.AddExpense(e);
      }
    }

    /** `handleDeleteExpense`; `confirmed` is the answer to the confirmation prompt. */
    method HandleDeleteExpense(id: int, confirmed: bool)
      modifies store
      ensures confirmed ==> store.Synced() && store.cache == Some(Deleted(old(Expenses()), id))
      ensures !confirmed ==> store.cache == old(store.cache) && store.stored == old(store.stored)
    {
      if confirmed {
        store.DeleteExpense(id);
      }
    }

    /** `handleImportCsv`: the imported records go after the existing ones. */
    method HandleImportCsv(imported: seq<Expense>)
      modifies store
      ensures store.Synced() && store.cache == Some(old(Expenses()) + imported)
    {
      store.SetExpenses(Expenses() + imported);
    }

    method ToggleSelection(id: int)
      modifies this`selectedIds
      ensures selectedIds == SelectionToggled(old(selectedIds), id)
    {
      selectedIds := SelectionToggled(selectedIds, id);
    }

    /** `toggleSelectAll`, with the content comparison the header box is meant to make. */
    method ToggleSelectAll()
      modifies this`selectedIds
      ensures selectedIds == SelectAllIntended(old(selectedIds), Shown())
    {
      selectedIds := SelectAllIntended(selectedIds, Shown());
    }

    /** `handleBulkDelete`; `confirmed` is the answer to the confirmation prompt. */
    method HandleBulkDelete(confirmed: bool)
      modifies this`selectedIds, store
      ensures confirmed ==> store.Synced() && store.cache == Some(WithoutSelected(old(Expenses()), old(selectedIds)))
      ensures confirmed ==> selectedIds == {}
      ensures !confirmed ==> selectedIds == old(selectedIds) && store.cache == old(store.cache) && store.stored == old(store.stored)
    {
      if confirmed {
        store.SetExpenses(WithoutSelected(Expenses(), selectedIds));
        selectedIds := {};
      }
    }

    /** `handleBulkCategoryAssign`; `alerted` is the empty-category alert, after which nothing changes. */
    method HandleBulkCategoryAssign() returns (alerted: bool)
      modifies this`selectedIds, this`bulkCategory, store
      ensures alerted <==> Trim(old(bulkCategory)) == []
      ensures alerted ==> selectedIds == old(selectedIds) && bulkCategory == old(bulkCategory)
      ensures alerted ==> store.cache == old(store.cache) && store.stored == old(store.stored)
      ensures !alerted ==> store.Synced()
      ensures !alerted ==> store.cache == Some(EditSelected(old(Expenses()), old(selectedIds), SetCategory(old(bulkCategory))))
      ensures !alerted ==> selectedIds == {} && bulkCategory == ""
    {
      if Trim(bulkCategory) == [] {
        return true;
      }
      alerted := false;
      store.SetExpenses(EditSelected(Expenses(), selectedIds, SetCategory(bulkCategory)));
      selectedIds := {};
      bulkCategory := "";
    }

    /** `handleBulkRecurringToggle`. */
    method HandleBulkRecurringToggle(r: bool)
      modifies this`selectedIds, store
      ensures store.Synced() && store.cache == Some(EditSelected(old(Expenses()), old(selectedIds), SetRecurring(r)))
      ensures selectedIds == {}
    {
      store.SetExpenses(EditSelected(Expenses(), selectedIds, SetRecurring(r)));
      selectedIds := {};
    }
  }
}
