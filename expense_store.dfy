/**
 * The list of transactions (`useExpenses.ts`): the query-cache entry every
 * page reads, the copy saved in the browser's storage, the four records shown
 * while nothing is saved, and the mutators that compute a new list and write
 * it to both places.
 */
module ExpenseStore {
  import opened Options
  import opened Seqs
  import opened Entities

  /** The records `useExpenses` returns when nothing is saved. */
  const Seed: seq<Expense> := [
    Expense(1, "Alimentation", "Courses Carrefour", 45.5, "2025-11-30", false, ExpenseEntry, false, None),
    Expense(2, "Loisirs", "Cinéma", 24.0, "2025-11-29", false, ExpenseEntry, false, None),
    Expense(3, "Transport", "Essence", 65.0, "2025-11-28", false, ExpenseEntry, false, None),
    Expense(4, "Abonnements", "Netflix", 13.99, "2025-11-27", true, ExpenseEntry, false, None)]

  /** The seed holds ids 1 to 4, all expenses, and only the fourth (Netflix) is recurring. */
  lemma SeedShape()
    ensures |Seed| == 4
    ensures forall i :: 0 <= i < 4 ==> Seed[i].id == i + 1 && Seed[i].entryType == ExpenseEntry
    ensures forall i :: 0 <= i < 4 ==> (Seed[i].recurring <==> Seed[i].description == "Netflix")
    ensures NoDuplicates(Seed)
  {
  }

  // ---------------------------------------------------------------------
  // The new lists
  // ---------------------------------------------------------------------

  function IdIsNot(id: int): Expense -> bool { (e: Expense) => e.id != id }

  /** `updateExpense`'s list: `u` merged into every record whose id is `id`. */
  function Updated(es: seq<Expense>, id: int, u: ExpensePatch): (r: seq<Expense>)
    ensures |r| == |es|
  {
    seq(|es|, i requires 0 <= i < |es| => if es[i].id == id then Merge(es[i], u) else es[i])
  }

  /** `deleteExpense`'s list: every record whose id is not `id`. */
  function Deleted(es: seq<Expense>, id: int): (r: seq<Expense>)
    ensures |r| <= |es|
  {
    Filter(es, IdIsNot(id))
  }

  /**
   * An update leaves the records with other ids where they were; a record
   * with the id keeps its place and gets every field the patch carries.
   */
  lemma UpdatedMeaning(es: seq<Expense>, id: int, u: ExpensePatch, i: nat)
    requires i < |es|
    ensures es[i].id != id ==> Updated(es, id, u)[i] == es[i]
    ensures es[i].id == id ==> Updated(es, id, u)[i] == Merge(es[i], u)
    ensures es[i].id == id && u.id.None? ==> Updated(es, id, u)[i].id == id
  {
  }

  /** Updating with the empty patch changes nothing; updating with a full patch puts that record at every place the id held. */
  lemma UpdatedPatches(es: seq<Expense>, id: int, e: Expense)
    ensures Updated(es, id, EmptyPatch) == es
    ensures forall i :: 0 <= i < |es| && es[i].id == id ==> Updated(es, id, FullPatch(e))[i] == e
  {
    assert forall i :: 0 <= i < |es| ==> Merge(es[i], EmptyPatch) == es[i] && Merge(es[i], FullPatch(e)) == e;
  }

  /** A delete removes every record with the id and keeps the others in their order. */
  lemma DeletedMeaning(es: seq<Expense>, id: int, a: seq<Expense>, b: seq<Expense>)
    ensures forall k :: 0 <= k < |Deleted(es, id)| ==> Deleted(es, id)[k].id != id
    ensures forall k :: 0 <= k < |es| && es[k].id != id ==> es[k] in Deleted(es, id)
    ensures Deleted(a + b, id) == Deleted(a, id) + Deleted(b, id)
  {
    FilterConcat(a, b, IdIsNot(id));
  }

  /** Deleting the id of a record just added, when no other record had it, gives back the list before the add. */
  lemma DeleteUndoesAdd(es: seq<Expense>, e: Expense)
    requires forall k :: 0 <= k < |es| ==> es[k].id != e.id
    ensures Deleted(es + [e], e.id) == es
  {
    FilterConcat(es, [e], IdIsNot(e.id));
    FilterAll(es, IdIsNot(e.id));
    assert Filter([e], IdIsNot(e.id)) == [] by {
      assert [e][..0] == [];
    }
  }

  /** Deleting after an update that keeps ids is the same as deleting straight away. */
  lemma {:induction false} DeleteAfterUpdate(es: seq<Expense>, id: int, u: ExpensePatch)
    requires u.id.None?
    ensures Deleted(Updated(es, id, u), id) == Deleted(es, id)
  {
    if es != [] {
      var n := |es| - 1;
      var us := Updated(es, id, u);
      assert es == es[..n] + [es[n]];
      assert us == Updated(es[..n], id, u) + [us[n]];
      DeleteAfterUpdate(es[..n], id, u);
      FilterConcat(Updated(es[..n], id, u), [us[n]], IdIsNot(id));
      FilterConcat(es[..n], [es[n]], IdIsNot(id));
      assert [us[n]][..0] == [] && [es[n]][..0] == [];
      if es[n].id != id {
        assert us[n] == es[n];
      }
    }
  }

  // ---------------------------------------------------------------------
  // The cache and the saved copy
  // ---------------------------------------------------------------------

  /**
   * `cache` is the query-cache entry of the list, absent until it is first
   * read or written; `stored` is the list saved under the `expenses` storage
   * key, absent when nothing was ever saved. Saving and reading back are
   * taken to give the same list.
   */
  class Store {
    var cache: Option<seq<Expense>>
    var stored: Option<seq<Expense>>

    /** Both places hold the same list. */
    predicate Synced()
      reads this
    {
      cache.Some? && cache == stored
    }

    /** A fresh page load: nothing cached yet, `saved` in storage. */
    constructor(saved: Option<seq<Expense>>)
      ensures cache == None && stored == saved
    {
      cache := None;
      stored := saved;
    }

    /** `useExpenses`: the cached list, otherwise the saved one, otherwise the seed; the result is cached. */
    method Load() returns (list: seq<Expense>)
      modifies this`cache
      ensures old(cache).Some? ==> list == old(cache).value
      ensures old(cache).None? && stored.Some? ==> list == stored.value
      ensures old(cache).None? && stored.None? ==> list == Seed
      ensures cache == Some(list)
    {
      if cache.Some? {
        list := cache.value;
      } else {
        list := stored.GetOr(Seed);
        cache := Some(list);
      }
    }

    /** `setExpenses`. */
    method SetExpenses(es: seq<Expense>)
      modifies this
      ensures Synced() && cache == Some(es)
    {
      cache := Some(es);
      stored := Some(es);
    }

    /** `addExpense`: `e` goes after the cached records (none when nothing is cached). */
    method AddExpense(e: Expense)
      modifies this
      ensures Synced() && cache == Some(old(cache).GetOr([]) + [e])
    {
      var es := cache.GetOr([]) + [e];
      stored := Some(es);
      cache := Some(es);
    }

    /** `updateExpense`. */
    method UpdateExpense(id: int, u: ExpensePatch)
      modifies this
      ensures Synced() && cache == Some(Updated(old(cache).GetOr([]), id, u))
    {
      var es := Updated(cache.GetOr([]), id, u);
      stored := Some(es);
      cache := Some(es);
    }

    /** `deleteExpense`. */
    method DeleteExpense(id: int)
      modifies this
      ensures Synced() && cache == Some(Deleted(old(cache).GetOr([]), id))
    {
      var es := Deleted(cache.GetOr([]), id);
      stored := Some(es);
      cache := Some(es);
    }
  }
}
