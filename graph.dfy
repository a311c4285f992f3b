/**
 * The flow diagram (`Graph.tsx`): per-category totals folded from the list,
 * the node and link lists handed to the diagram, and the per-category summary
 * below it. The layout of the diagram is not part of this model.
 */
module FlowGraph {
  import opened Seqs
  import opened Entities
  import opened Tallies

  // ---------------------------------------------------------------------
  // Category totals
  // ---------------------------------------------------------------------

  /** `categoryTotals`: the `reduce` over the list. */
  function Totals(es: seq<Expense>): seq<Entry>
  {
    if es == [] then []
    else
      var n := |es| - 1;
      Bump(Totals(es[..n]), es[n].category, es[n].amount)
  }

  /** `Object.keys(categoryTotals)`. */
  function Keys(es: seq<Expense>): seq<string>
  {
    KeysOf(Totals(es))
  }

  /** The keys are the distinct categories in the order they first appear: the expenses page's category list. */
  lemma {:induction false} KeysAreDistinctCategories(es: seq<Expense>)
    ensures Keys(es) == Distinct(CategoriesOf(es))
    ensures NoDuplicates(Keys(es))
  {
    if es != [] {
      var n := |es| - 1;
      var cs := CategoriesOf(es);
      KeysAreDistinctCategories(es[..n]);
      BumpKeys(Totals(es[..n]), es[n].category, es[n].amount);
      assert cs[..n] == CategoriesOf(es[..n]);
      assert cs[n] == es[n].category;
    }
  }

  function HasCategory(c: string): Expense -> bool { (e: Expense) => e.category == c }

  function Amount(e: Expense): real { e.amount }

  /** The summary's total for `c`: the amounts of the records of category `c`, whatever their type. */
  function CategoryTotal(es: seq<Expense>, c: string): real
  {
    Sum(Filter(es, HasCategory(c)), Amount)
  }

  /** The value the fold holds for `c` is the sum of the amounts of its category's records. */
  lemma {:induction false} TotalsLookup(es: seq<Expense>, c: string)
    ensures Lookup(Totals(es), c) == CategoryTotal(es, c)
  {
    if es != [] {
      var n := |es| - 1;
      var init := es[..n];
      var e := es[n];
      TotalsLookup(init, c);
      BumpLookup(Totals(init), e.category, e.amount, c);
      assert es == init + [e];
      FilterConcat(init, [e], HasCategory(c));
      assert [e][..0] == [];
      if e.category == c {
        SumConcat(Filter(init, HasCategory(c)), [e], Amount);
        SumSingleton(e, Amount);
      }
    }
  }

  /** Entry `i` of the fold holds the summary total of its category. */
  lemma TotalsAgree(es: seq<Expense>, i: nat)
    requires i < |Totals(es)|
    ensures Totals(es)[i].total == CategoryTotal(es, Totals(es)[i].key)
  {
    KeysAreDistinctCategories(es);
    LookupAt(Totals(es), i);
    TotalsLookup(es, Totals(es)[i].key);
  }

  /** `totalExpenses`: `Object.values(categoryTotals)` added up in key order. */
  function TotalExpenses(es: seq<Expense>): real
  {
    Sum(Totals(es), EntryTotal)
  }

  /** The total is the sum of every amount of the list, whatever the record's type. */
  lemma {:induction false} TotalExpensesIsSum(es: seq<Expense>)
    ensures TotalExpenses(es) == Sum(es, Amount)
  {
    if es != [] {
      var n := |es| - 1;
      TotalExpensesIsSum(es[..n]);
      BumpSum(Totals(es[..n]), es[n].category, es[n].amount);
    }
  }

  // ---------------------------------------------------------------------
  // Nodes, links and the summary
  // ---------------------------------------------------------------------

  /** `nodes`: the income, the available budget, then one node per category. */
  function Nodes(es: seq<Expense>): (ns: seq<string>)
    ensures |ns| == 2 + |Keys(es)|
  {
    ["Revenus", "Budget disponible"] + Keys(es)
  }

  datatype Link = Link(source: nat, target: nat, value: real)

  /** The links from the budget: one per entry, to the entry's node, with its value. */
  function BudgetLinks(acc: seq<Entry>): (ls: seq<Link>)
    ensures |ls| == |acc|
    ensures forall i :: 0 <= i < |acc| ==> ls[i] == Link(1, i + 2, acc[i].total)
  {
    seq(|acc|, i requires 0 <= i < |acc| => Link(1, i + 2, acc[i].total))
  }

  /** `links`: income to budget with the total, then budget to each category with its total. */
  function Links(es: seq<Expense>): seq<Link>
  {
    [Link(0, 1, TotalExpenses(es))] + BudgetLinks(Totals(es))
  }

  /**
   * Every link joins two listed nodes; link `i` after the first runs from the
   * budget to node `i + 1`, a category, and carries that category's summary
   * total.
   */
  lemma LinksMeaning(es: seq<Expense>)
    ensures |Links(es)| == |Nodes(es)| - 1
    ensures forall l :: l in Links(es) ==> l.source < |Nodes(es)| && l.target < |Nodes(es)|
    ensures Links(es)[0] == Link(0, 1, TotalExpenses(es))
    ensures forall i :: 1 <= i < |Links(es)| ==>
      Links(es)[i].source == 1 && Links(es)[i].target == i + 1
      && Links(es)[i].value == CategoryTotal(es, Nodes(es)[i + 1])
  {
    var ls := Links(es);
    forall i | 1 <= i < |ls|
      ensures ls[i].value == CategoryTotal(es, Nodes(es)[i + 1])
    {
      TotalsAgree(es, i - 1);
    }
  }

  function From(n: nat): Link -> bool { (l: Link) => l.source == n }

  function Into(n: nat): Link -> bool { (l: Link) => l.target == n }

  function Value(l: Link): real { l.value }

  /** Every budget link leaves the budget, none enters it, and together they carry the sum of the entries. */
  lemma BudgetLinksFlow(acc: seq<Entry>)
    ensures Filter(BudgetLinks(acc), From(1)) == BudgetLinks(acc)
    ensures Filter(BudgetLinks(acc), Into(1)) == []
    ensures Sum(BudgetLinks(acc), Value) == Sum(acc, EntryTotal)
  {
    var out := BudgetLinks(acc);
    FilterAll(out, From(1));
    FilterNone(out, Into(1));
    SumPointwise(out, Value, acc, EntryTotal);
  }

  /** The links leaving the budget are the budget links; the only link entering it is the first. */
  lemma LinksAtBudget(es: seq<Expense>)
    ensures Filter(Links(es), From(1)) == BudgetLinks(Totals(es))
    ensures Filter(Links(es), Into(1)) == [Link(0, 1, TotalExpenses(es))]
  {
    var head := Link(0, 1, TotalExpenses(es));
    var out := BudgetLinks(Totals(es));
    assert Links(es) == [head] + out;
    FilterConcat([head], out, From(1));
    FilterConcat([head], out, Into(1));
    FilterSingleton(head, From(1));
    FilterSingleton(head, Into(1));
    BudgetLinksFlow(Totals(es));
  }

  /** What flows out of the budget node equals what flows into it, and both are the sum of all amounts. */
  lemma FlowConservation(es: seq<Expense>)
    ensures Sum(Filter(Links(es), From(1)), Value) == Sum(Filter(Links(es), Into(1)), Value)
    ensures Sum(Filter(Links(es), Into(1)), Value) == Sum(es, Amount)
  {
    LinksAtBudget(es);
    BudgetLinksFlow(Totals(es));
    SumSingleton(Link(0, 1, TotalExpenses(es)), Value);
    TotalExpensesIsSum(es);
  }
}
