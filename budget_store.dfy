/**
 * The monthly budget (`useBudget.ts`): the budget shown for a month that has
 * none yet, and the three ways the page rewrites a month's cached budget.
 * Query-cache entries never go stale, so the default is produced only for a
 * month with no entry.
 */
module BudgetStore {
  import opened Options

  datatype CategoryBudget = CategoryBudget(name: string, budget: real)

  /** `month` is the `YYYY-MM` text of the month; nothing checks its shape. */
  datatype Budget = Budget(month: string, amount: real, categories: seq<CategoryBudget>)

  /** The sum of the category budgets. */
  function CategoriesTotal(cats: seq<CategoryBudget>): real
  {
    if cats == [] then 0.0 else CategoriesTotal(cats[..|cats| - 1]) + cats[|cats| - 1].budget
  }

  /** The budget of a month with no entry. */
  function DefaultBudget(month: string): Budget
  {
    Budget(month, 2000.0, [
      CategoryBudget("Alimentation", 400.0),
      CategoryBudget("Transport", 200.0),
      CategoryBudget("Loisirs", 300.0),
      CategoryBudget("Abonnements", 150.0),
      CategoryBudget("Autre", 950.0)])
  }

  /** The default echoes the month, and its five category budgets add up to its amount of 2000. */
  lemma DefaultBudgetShape(month: string)
    ensures DefaultBudget(month).month == month
    ensures DefaultBudget(month).amount == 2000.0
    ensures |DefaultBudget(month).categories| == 5
    ensures CategoriesTotal(DefaultBudget(month).categories) == DefaultBudget(month).amount
  {
    var cats := DefaultBudget(month).categories;
    assert cats[..1][..0] == [];
    assert CategoriesTotal(cats[..1]) == 400.0;
    assert cats[..2][..1] == cats[..1];
    assert CategoriesTotal(cats[..2]) == 600.0;
    assert cats[..3][..2] == cats[..2];
    assert CategoriesTotal(cats[..3]) == 900.0;
    assert cats[..4][..3] == cats[..3];
    assert CategoriesTotal(cats[..4]) == 1050.0;
    assert cats[..4] == cats[..|cats| - 1];
  }

  // ---------------------------------------------------------------------
  // The updaters
  // ---------------------------------------------------------------------

  /** The updater of `updateBudgetAmount`: nothing without a budget, otherwise the new amount. */
  function WithAmount(prev: Option<Budget>, amount: real): Option<Budget>
  {
    match prev
    case None => None
    case Some(b) => Some(b.(amount := amount))
  }

  /** `categories.map(...)`: the categories named `name` get the budget `budget`. */
  function SetCategory(cats: seq<CategoryBudget>, name: string, budget: real): seq<CategoryBudget>
  {
    seq(|cats|, i requires 0 <= i < |cats| => if cats[i].name == name then cats[i].(budget := budget) else cats[i])
  }

  /** The updater of `updateCategoryBudget`. */
  function WithCategoryBudget(prev: Option<Budget>, name: string, budget: real): Option<Budget>
  {
    match prev
    case None => None
    case Some(b) => Some(b.(categories := SetCategory(b.categories, name, budget)))
  }

  /**
   * An absent budget stays absent; otherwise only the amount changes, and
   * the category list is untouched.
   */
  lemma WithAmountMeaning(prev: Option<Budget>, amount: real)
    ensures WithAmount(prev, amount).None? <==> prev.None?
    ensures prev.Some? ==>
      (WithAmount(prev, amount).value.amount == amount
       && WithAmount(prev, amount).value.month == prev.value.month
       && WithAmount(prev, amount).value.categories == prev.value.categories)
  {
  }

  /**
   * Only the categories with the matching name change, and only in their
   * budget; the list keeps its length, its order and every name.
   */
  lemma SetCategoryMeaning(cats: seq<CategoryBudget>, name: string, budget: real, i: nat)
    requires i < |cats|
    ensures |SetCategory(cats, name, budget)| == |cats|
    ensures SetCategory(cats, name, budget)[i].name == cats[i].name
    ensures SetCategory(cats, name, budget)[i].budget == if cats[i].name == name then budget else cats[i].budget
  {
  }

  /** A name no category has changes nothing, and setting the same category twice keeps the second value. */
  lemma SetCategoryTwice(cats: seq<CategoryBudget>, name: string, first: real, second: real)
    ensures (forall k :: 0 <= k < |cats| ==> cats[k].name != name) ==> SetCategory(cats, name, first) == cats
    ensures SetCategory(SetCategory(cats, name, first), name, second) == SetCategory(cats, name, second)
  {
  }

  /** With one category of that name, the categories' total moves by the difference of the two budgets. */
  lemma {:induction false} SetCategoryTotal(cats: seq<CategoryBudget>, name: string, budget: real, i: nat)
    requires i < |cats| && cats[i].name == name
    requires forall k :: 0 <= k < |cats| && k != i ==> cats[k].name != name
    ensures CategoriesTotal(SetCategory(cats, name, budget)) == CategoriesTotal(cats) - cats[i].budget + budget
  {
    var n := |cats| - 1;
    var r := SetCategory(cats, name, budget);
    assert r[..n] == SetCategory(cats[..n], name, budget);
    if i < n {
      SetCategoryTotal(cats[..n], name, budget, i);
      assert r[n] == cats[n];
    } else {
      assert SetCategory(cats[..n], name, budget) == cats[..n];
    }
  }

  /** An update through an updater: a `None` result leaves the entry as it was. */
  function Updated(entries: map<string, Budget>, month: string, result: Option<Budget>): map<string, Budget>
  {
    if result.None? then entries else entries[month := result.value]
  }

  // ---------------------------------------------------------------------
  // The cache
  // ---------------------------------------------------------------------

  /** The query-cache entries of the budget, one per month that has been read or written. */
  class BudgetCache {
    var entries: map<string, Budget>

    constructor()
      ensures entries == map[]
    {
      entries := map[];
    }

    function Entry(month: string): Option<Budget>
      reads this
    {
      if month in entries then Some(entries[month]) else None
    }

    /** `useBudget(month)`: the cached budget, or the default, which is then cached. */
    method Load(month: string) returns (b: Budget)
      modifies this
      ensures old(Entry(month)).Some? ==> b == old(Entry(month)).value && entries == old(entries)
      ensures old(Entry(month)).None? ==> b == DefaultBudget(month) && entries == old(entries)[month := b]
    {
      if month in entries {
        b := entries[month];
      } else {
        b := DefaultBudget(month);
        entries := entries[month := b];
      }
    }

    /** `setBudget`: only the entry of `month` is replaced. */
    method SetBudget(month: string, budget: Budget)
      modifies this
      ensures entries == old(entries)[month := budget]
    {
      entries := entries[month := budget];
    }

    /** `updateBudgetAmount`. */
    method UpdateBudgetAmount(month: string, amount: real)
      modifies this
      ensures entries == Updated(old(entries), month, WithAmount(old(Entry(month)), amount))
    {
      entries := Updated(entries, month, WithAmount(Entry(month), amount));
    }

    /** `updateCategoryBudget`. */
    method UpdateCategoryBudget(month: string, name: string, budget: real)
      modifies this
      ensures entries == Updated(old(entries), month, WithCategoryBudget(old(Entry(month)), name, budget))
    {
      entries := Updated(entries, month, WithCategoryBudget(Entry(month), name, budget));
    }
  }

  /** An update leaves every other month as it was, and an absent month absent. */
  lemma UpdatedMeaning(entries: map<string, Budget>, month: string, result: Option<Budget>, other: string)
    requires other != month
    ensures other in Updated(entries, month, result) <==> other in entries
    ensures other in entries ==> Updated(entries, month, result)[other] == entries[other]
    ensures month in Updated(entries, month, result) <==> month in entries || result.Some?
  {
  }
}
