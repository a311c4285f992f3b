/**
 * The transaction record every page of the tracker works on, and the partial
 * record that `updateExpense` merges into it.
 */
module Entities {
  import opened Options

  /**
   * The `type` field. Records built by the CSV import carry no `type` at all;
   * `Untyped` stands for that missing field.
   */
  datatype EntryType = ExpenseEntry | IncomeEntry | Untyped

  /**
   * One transaction. `amount` is an exact decimal in place of a JavaScript
   * number. `isGenerated` and `parentId` are only set on records produced by
   * the recurrence generator; elsewhere they are `false` and `None`.
   */
  datatype Expense = Expense(
    id: int,
    category: string,
    description: string,
    amount: real,
    date: string,
    recurring: bool,
    entryType: EntryType,
    isGenerated: bool,
    parentId: Option<int>)

  /** `Partial<Expense>`: every field may be present or absent. */
  datatype ExpensePatch = ExpensePatch(
    id: Option<int>,
    category: Option<string>,
    description: Option<string>,
    amount: Option<real>,
    date: Option<string>,
    recurring: Option<bool>,
    entryType: Option<EntryType>,
    isGenerated: Option<bool>,
    parentId: Option<Option<int>>)

  /** The patch that sets every field to the value it has in `e`. */
  function FullPatch(e: Expense): ExpensePatch
  {
    ExpensePatch(Some(e.id), Some(e.category), Some(e.description), Some(e.amount), Some(e.date),
      Some(e.recurring), Some(e.entryType), Some(e.isGenerated), Some(e.parentId))
  }

  /** The patch with no field present. */
  const EmptyPatch := ExpensePatch(None, None, None, None, None, None, None, None, None)

  /** `{ ...e, ...p }`: a field present in `p` replaces the one in `e`. */
  function Merge(e: Expense, p: ExpensePatch): (r: Expense)
    ensures p.id.Some? ==> r.id == p.id.value
    ensures p.id.None? ==> r.id == e.id
    ensures p.category.Some? ==> r.category == p.category.value
    ensures p.category.None? ==> r.category == e.category
    ensures p.amount.Some? ==> r.amount == p.amount.value
    ensures p.amount.None? ==> r.amount == e.amount
    ensures p.recurring.Some? ==> r.recurring == p.recurring.value
    ensures p.recurring.None? ==> r.recurring == e.recurring
    ensures p.description.Some? ==> r.description == p.description.value
    ensures p.description.None? ==> r.description == e.description
    ensures p.date.Some? ==> r.date == p.date.value
    ensures p.date.None? ==> r.date == e.date
    ensures p.entryType.Some? ==> r.entryType == p.entryType.value
    ensures p.entryType.None? ==> r.entryType == e.entryType
    ensures p.isGenerated.Some? ==> r.isGenerated == p.isGenerated.value
    ensures p.isGenerated.None? ==> r.isGenerated == e.isGenerated
    ensures p.parentId.Some? ==> r.parentId == p.parentId.value
    ensures p.parentId.None? ==> r.parentId == e.parentId
  {
    Expense(
      p.id.GetOr(e.id),
      p.category.GetOr(e.category),
      p.description.GetOr(e.description),
      p.amount.GetOr(e.amount),
      p.date.GetOr(e.date),
      p.recurring.GetOr(e.recurring),
      p.entryType.GetOr(e.entryType),
      p.isGenerated.GetOr(e.isGenerated),
      p.parentId.GetOr(e.parentId))
  }

  /** Merging a full patch yields the patch's record; merging the empty patch changes nothing. */
  lemma MergeFullAndEmpty(e: Expense, f: Expense)
    ensures Merge(e, FullPatch(f)) == f
    ensures Merge(e, EmptyPatch) == e
  {
  }

  /** `expenses.map(e => e.category)`. */
  function CategoriesOf(es: seq<Expense>): (cs: seq<string>)
    ensures |cs| == |es| && forall i :: 0 <= i < |es| ==> cs[i] == es[i].category
    ensures forall c :: c in cs <==> exists i :: 0 <= i < |es| && es[i].category == c
  {
    seq(|es|, i requires 0 <= i < |es| => es[i].category)
  }
}
