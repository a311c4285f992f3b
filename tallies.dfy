/**
 * String-keyed running totals in insertion order: a JavaScript object or
 * `Map` whose values are only ever read with a 0 fallback and increased.
 */
module Tallies {
  import opened Seqs

  /**
   * One key and its value. Assigning an existing key keeps its place, a new
   * key goes at the end.
   */
  datatype Entry = Entry(key: string, total: real)

  function KeysOf(acc: seq<Entry>): (ks: seq<string>)
    ensures |ks| == |acc| && forall i :: 0 <= i < |acc| ==> ks[i] == acc[i].key
  {
    if acc == [] then [] else [acc[0].key] + KeysOf(acc[1..])
  }

  /** The value of `c`, with a missing key read as 0 (the `|| 0`). */
  function Lookup(acc: seq<Entry>, c: string): real
  {
    if acc == [] then 0.0
    else if acc[0].key == c then acc[0].total
    else Lookup(acc[1..], c)
  }

  /** `acc[c] = (acc[c] || 0) + a`, or the same through `get` and `set`. */
  function Bump(acc: seq<Entry>, c: string, a: real): seq<Entry>
  {
    if acc == [] then [Entry(c, a)]
    else if acc[0].key == c then [Entry(c, acc[0].total + a)] + acc[1..]
    else [acc[0]] + Bump(acc[1..], c, a)
  }

  function EntryTotal(x: Entry): real { x.total }

  /** A bump adds `a` to the entry of `c` and leaves every other key's value alone. */
  lemma {:induction false} BumpLookup(acc: seq<Entry>, c: string, a: real, k: string)
    ensures Lookup(Bump(acc, c, a), k) == Lookup(acc, k) + if k == c then a else 0.0
  {
    if acc != [] && acc[0].key != c {
      BumpLookup(acc[1..], c, a, k);
    }
  }

  /** A bump adds `a` to the sum of the values. */
  lemma {:induction false} BumpSum(acc: seq<Entry>, c: string, a: real)
    ensures Sum(Bump(acc, c, a), EntryTotal) == Sum(acc, EntryTotal) + a
  {
    if acc == [] {
      SumSingleton(Entry(c, a), EntryTotal);
    } else {
      assert acc == [acc[0]] + acc[1..];
      SumConcat([acc[0]], acc[1..], EntryTotal);
      SumSingleton(acc[0], EntryTotal);
      if acc[0].key == c {
        SumConcat([Entry(c, acc[0].total + a)], acc[1..], EntryTotal);
        SumSingleton(Entry(c, acc[0].total + a), EntryTotal);
      } else {
        BumpSum(acc[1..], c, a);
        SumConcat([acc[0]], Bump(acc[1..], c, a), EntryTotal);
      }
    }
  }

  /** A bump keeps the keys, adding `c` at the end when it is new. */
  lemma {:induction false} BumpKeys(acc: seq<Entry>, c: string, a: real)
    ensures KeysOf(Bump(acc, c, a)) == if c in KeysOf(acc) then KeysOf(acc) else KeysOf(acc) + [c]
  {
    if acc != [] && acc[0].key != c {
      var rest := KeysOf(acc[1..]);
      BumpKeys(acc[1..], c, a);
      assert (c in KeysOf(acc)) == (c in rest);
      if c !in rest {
        assert [acc[0].key] + (rest + [c]) == KeysOf(acc) + [c];
      }
    }
  }

  /** With distinct keys, the value read for a key is the one stored with it. */
  lemma {:induction false} LookupAt(acc: seq<Entry>, i: nat)
    requires i < |acc| && NoDuplicates(KeysOf(acc))
    ensures Lookup(acc, acc[i].key) == acc[i].total
  {
    if i > 0 {
      assert KeysOf(acc)[0] != KeysOf(acc)[i];
      assert KeysOf(acc[1..]) == KeysOf(acc)[1..];
      LookupAt(acc[1..], i - 1);
    }
  }

  /** A bump of a list keyed by the distinct values of `xs` is keyed by the distinct values of `xs + [c]`. */
  lemma BumpDistinct(acc: seq<Entry>, xs: seq<string>, c: string, a: real)
    requires KeysOf(acc) == Distinct(xs)
    ensures KeysOf(Bump(acc, c, a)) == Distinct(xs + [c])
  {
    BumpKeys(acc, c, a);
    assert (xs + [c])[..|xs|] == xs;
  }
}
