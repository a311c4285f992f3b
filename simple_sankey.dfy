/**
 * The data side of the simple Sankey chart (`SimpleSankeyChart.tsx`): the
 * node set collected from the links, the three columns of nodes (sources
 * only, both, targets only), and the value of every node. The drawing is
 * not part of this model.
 */
module SimpleSankey {
  import opened Seqs
  import opened Tallies

  datatype SankeyLink = SankeyLink(source: string, target: string, value: real)

  // ---------------------------------------------------------------------
  // The node set
  // ---------------------------------------------------------------------

  /** The source and then the target of every link, link after link: the order `nodeSet.add` sees them. */
  function Endpoints(links: seq<SankeyLink>): seq<string>
  {
    if links == [] then []
    else
      var n := |links| - 1;
      Endpoints(links[..n]) + [links[n].source, links[n].target]
  }

  /** `Array.from(nodeSet)`. */
  function NodeOrder(links: seq<SankeyLink>): seq<string>
  {
    Distinct(Endpoints(links))
  }

  ghost predicate IsSource(links: seq<SankeyLink>, n: string)
  {
    exists i :: 0 <= i < |links| && links[i].source == n
  }

  ghost predicate IsTarget(links: seq<SankeyLink>, n: string)
  {
    exists i :: 0 <= i < |links| && links[i].target == n
  }

  /** A name is an endpoint exactly when some link starts or ends there. */
  lemma {:induction false} EndpointsHas(links: seq<SankeyLink>, n: string)
    ensures n in Endpoints(links) <==> IsSource(links, n) || IsTarget(links, n)
  {
    if links != [] {
      var m := |links| - 1;
      var init := links[..m];
      EndpointsHas(init, n);
      assert Endpoints(links) == Endpoints(init) + [links[m].source, links[m].target];
      assert n in Endpoints(links) <==> n in Endpoints(init) || n == links[m].source || n == links[m].target;
      if IsSource(links, n) {
        var i :| 0 <= i < |links| && links[i].source == n;
        if i < m {
          assert init[i] == links[i];
        }
      }
      if IsTarget(links, n) {
        var i :| 0 <= i < |links| && links[i].target == n;
        if i < m {
          assert init[i] == links[i];
        }
      }
      if IsSource(init, n) {
        var i :| 0 <= i < m && init[i].source == n;
        assert links[i] == init[i];
      }
      if IsTarget(init, n) {
        var i :| 0 <= i < m && init[i].target == n;
        assert links[i] == init[i];
      }
    }
  }

  /** The `forEach` that adds both ends of every link to `nodeSet`. */
  method CollectNodes(links: seq<SankeyLink>) returns (nodes: seq<string>)
    ensures nodes == NodeOrder(links)
  {
    nodes := [];
    for i := 0 to |links|
      invariant nodes == Distinct(Endpoints(links[..i]))
    {
      var l := links[i];
      ghost var before := Endpoints(links[..i]);
      assert links[..i + 1][..i] == links[..i];
      assert Endpoints(links[..i + 1]) == before + [l.source] + [l.target];
      DistinctSnoc(before, l.source);
      if l.source !in nodes {
        nodes := nodes + [l.source];
      }
      DistinctSnoc(before + [l.source], l.target);
      if l.target !in nodes {
        nodes := nodes + [l.target];
      }
    }
    assert links[..|links|] == links;
  }

  /** The node set is exactly the names at either end of some link, each once. */
  lemma NodeSetIsUnion(links: seq<SankeyLink>, n: string)
    ensures n in NodeOrder(links) <==> IsSource(links, n) || IsTarget(links, n)
    ensures NoDuplicates(NodeOrder(links))
  {
    EndpointsHas(links, n);
  }

  // ---------------------------------------------------------------------
  // The columns
  // ---------------------------------------------------------------------

  function SourcesOf(links: seq<SankeyLink>): (r: seq<string>)
    ensures |r| == |links| && forall i :: 0 <= i < |links| ==> r[i] == links[i].source
    ensures forall x :: x in r <==> exists i :: 0 <= i < |links| && links[i].source == x
  {
    seq(|links|, i requires 0 <= i < |links| => links[i].source)
  }

  function TargetsOf(links: seq<SankeyLink>): (r: seq<string>)
    ensures |r| == |links| && forall i :: 0 <= i < |links| ==> r[i] == links[i].target
    ensures forall x :: x in r <==> exists i :: 0 <= i < |links| && links[i].target == x
  {
    seq(|links|, i requires 0 <= i < |links| => links[i].target)
  }

  /** `sources`, as the array `Array.from(sources)`. */
  function Sources(links: seq<SankeyLink>): seq<string> { Distinct(SourcesOf(links)) }

  /** `targets`, as the array `Array.from(targets)`. */
  function Targets(links: seq<SankeyLink>): seq<string> { Distinct(TargetsOf(links)) }

  function NotIn(xs: seq<string>): string -> bool { (x: string) => x !in xs }

  function InNeither(a: seq<string>, b: seq<string>): string -> bool { (x: string) => x !in a && x !in b }

  function SourceOnly(links: seq<SankeyLink>): seq<string>
  {
    Filter(Sources(links), NotIn(Targets(links)))
  }

  function TargetOnly(links: seq<SankeyLink>): seq<string>
  {
    Filter(Targets(links), NotIn(Sources(links)))
  }

  /** `middleNodes`: the nodes, in node-set order, that are in neither one-sided group. */
  function Middle(links: seq<SankeyLink>): seq<string>
  {
    Filter(NodeOrder(links), InNeither(SourceOnly(links), TargetOnly(links)))
  }

  function NonEmpty(col: seq<string>): bool { |col| > 0 }

  /** `columns`: the three groups in the order sources, middle, targets, without the empty ones. */
  function Columns(links: seq<SankeyLink>): seq<seq<string>>
  {
    Filter([SourceOnly(links), Middle(links), TargetOnly(links)], NonEmpty)
  }

  lemma SourcesHas(links: seq<SankeyLink>, n: string)
    ensures n in Sources(links) <==> IsSource(links, n)
    ensures n in Targets(links) <==> IsTarget(links, n)
  {
    if n in SourcesOf(links) {
      var i :| 0 <= i < |links| && SourcesOf(links)[i] == n;
    }
    if n in TargetsOf(links) {
      var i :| 0 <= i < |links| && TargetsOf(links)[i] == n;
    }
  }

  /**
   * Every node is in exactly one group: sources only when it never ends a
   * link, targets only when it never starts one, the middle when it does both.
   */
  lemma Partition(links: seq<SankeyLink>, n: string)
    ensures n in SourceOnly(links) <==> IsSource(links, n) && !IsTarget(links, n)
    ensures n in TargetOnly(links) <==> IsTarget(links, n) && !IsSource(links, n)
    ensures n in Middle(links) <==> IsSource(links, n) && IsTarget(links, n)
    ensures n in NodeOrder(links) <==> n in SourceOnly(links) || n in Middle(links) || n in TargetOnly(links)
  {
    SourcesHas(links, n);
    FilterHas(Sources(links), NotIn(Targets(links)), n);
    FilterHas(Targets(links), NotIn(Sources(links)), n);
    FilterHas(NodeOrder(links), InNeither(SourceOnly(links), TargetOnly(links)), n);
    NodeSetIsUnion(links, n);
  }

  /** No node is in two groups. */
  lemma GroupsDisjoint(links: seq<SankeyLink>, n: string)
    ensures !(n in SourceOnly(links) && n in Middle(links))
    ensures !(n in SourceOnly(links) && n in TargetOnly(links))
    ensures !(n in Middle(links) && n in TargetOnly(links))
  {
    Partition(links, n);
  }

  /** Filtering three groups keeps the non-empty ones in their order. */
  lemma KeepNonEmpty(a: seq<string>, b: seq<string>, c: seq<string>)
    ensures Filter([a, b, c], NonEmpty)
      == (if a != [] then [a] else []) + (if b != [] then [b] else []) + (if c != [] then [c] else [])
  {
    assert [a, b, c] == [a, b] + [c];
    assert [a, b] == [a] + [b];
    FilterConcat([a, b], [c], NonEmpty);
    FilterConcat([a], [b], NonEmpty);
    FilterSingleton(a, NonEmpty);
    FilterSingleton(b, NonEmpty);
    FilterSingleton(c, NonEmpty);
  }

  /**
   * At most three columns, none empty, each one of the groups; the
   * sources-only group comes first and the targets-only group last whenever
   * they are non-empty, and there is no column exactly when there is no link.
   */
  lemma ColumnsMeaning(links: seq<SankeyLink>)
    ensures |Columns(links)| <= 3
    ensures forall k :: 0 <= k < |Columns(links)| ==> |Columns(links)[k]| > 0
    ensures forall k :: 0 <= k < |Columns(links)| ==>
      Columns(links)[k] in [SourceOnly(links), Middle(links), TargetOnly(links)]
    ensures SourceOnly(links) != [] ==> |Columns(links)| > 0 && Columns(links)[0] == SourceOnly(links)
    ensures TargetOnly(links) != [] ==>
      |Columns(links)| > 0 && Columns(links)[|Columns(links)| - 1] == TargetOnly(links)
    ensures Middle(links) != [] ==> Middle(links) in Columns(links)
    ensures Columns(links) == [] <==> links == []
  {
    KeepNonEmpty(SourceOnly(links), Middle(links), TargetOnly(links));
    if links != [] {
      var n := links[0].source;
      Partition(links, n);
      assert IsSource(links, n);
    }
  }

  // ---------------------------------------------------------------------
  // Node values
  // ---------------------------------------------------------------------

  /** What one link adds to node `n`: its value once as the source and once more as the target. */
  function ShareOf(n: string): SankeyLink -> real
  {
    (l: SankeyLink) => (if l.source == n then l.value else 0.0) + (if l.target == n then l.value else 0.0)
  }

  /** The value of node `n`, link by link. */
  function NodeValue(links: seq<SankeyLink>, n: string): real
  {
    Sum(links, ShareOf(n))
  }

  function From(n: string): SankeyLink -> bool { (l: SankeyLink) => l.source == n }

  function Into(n: string): SankeyLink -> bool { (l: SankeyLink) => l.target == n }

  function Value(l: SankeyLink): real { l.value }

  /** A node's value is the total of the links leaving it plus the total of the links entering it. */
  lemma NodeValueMeaning(links: seq<SankeyLink>, n: string)
    ensures NodeValue(links, n)
      == Sum(Filter(links, From(n)), Value) + Sum(Filter(links, Into(n)), Value)
  {
    SumPlus(links, Gated(From(n), Value), Gated(Into(n), Value), ShareOf(n));
    SumFilter(links, From(n), Value);
    SumFilter(links, Into(n), Value);
  }

  /** One step of the `forEach`, for one node: the two updates for link `l` add that link's share. */
  lemma AddLinkAt(values: seq<Entry>, prefix: seq<SankeyLink>, l: SankeyLink, n: string)
    requires Lookup(values, n) == NodeValue(prefix, n)
    ensures Lookup(Bump(Bump(values, l.source, l.value), l.target, l.value), n) == NodeValue(prefix + [l], n)
  {
    assert (prefix + [l])[..|prefix|] == prefix;
    assert NodeValue(prefix + [l], n) == NodeValue(prefix, n) + ShareOf(n)(l);
    BumpLookup(values, l.source, l.value, n);
    BumpLookup(Bump(values, l.source, l.value), l.target, l.value, n);
  }

  /** One step of the `forEach`, for the keys: the ends of `l` join the keys when they are new. */
  lemma AddLinkKeys(values: seq<Entry>, prefix: seq<SankeyLink>, l: SankeyLink)
    requires KeysOf(values) == Distinct(Endpoints(prefix))
    ensures KeysOf(Bump(Bump(values, l.source, l.value), l.target, l.value)) == Distinct(Endpoints(prefix + [l]))
  {
    var ends := Endpoints(prefix);
    assert (prefix + [l])[..|prefix|] == prefix;
    assert Endpoints(prefix + [l]) == ends + [l.source] + [l.target];
    BumpDistinct(values, ends, l.source, l.value);
    BumpDistinct(Bump(values, l.source, l.value), ends + [l.source], l.target, l.value);
  }

  /** The `forEach` that fills `nodeValues`. */
  method NodeValues(links: seq<SankeyLink>) returns (values: seq<Entry>)
    ensures KeysOf(values) == NodeOrder(links)
    ensures forall n :: Lookup(values, n) == NodeValue(links, n)
  {
    values := [];
    for i := 0 to |links|
      invariant KeysOf(values) == Distinct(Endpoints(links[..i]))
      invariant forall n :: Lookup(values, n) == NodeValue(links[..i], n)
    {
      var l := links[i];
      AddLinkKeys(values, links[..i], l);
      forall n
        ensures Lookup(Bump(Bump(values, l.source, l.value), l.target, l.value), n) == NodeValue(links[..i] + [l], n)
      {
        AddLinkAt(values, links[..i], l, n);
      }
      assert links[..i + 1] == links[..i] + [l];
      values := Bump(values, l.source, l.value);
      values := Bump(values, l.target, l.value);
    }
    assert links[..|links|] == links;
  }

  /** The memoised computation: the columns, the links as given, and the node values. */
  method Layout(links: seq<SankeyLink>) returns (nodes: seq<seq<string>>, shown: seq<SankeyLink>, values: seq<Entry>)
    ensures nodes == Columns(links)
    ensures shown == links
    ensures KeysOf(values) == NodeOrder(links)
    ensures forall n :: Lookup(values, n) == NodeValue(links, n)
  {
    var nodeSet := CollectNodes(links);
    var sources := Distinct(SourcesOf(links));
    var targets := Distinct(TargetsOf(links));
    var sourceOnly := Filter(sources, NotIn(targets));
    var targetOnly := Filter(targets, NotIn(sources));
    var middle := Filter(nodeSet, InNeither(sourceOnly, targetOnly));
    nodes := Filter([sourceOnly, middle, targetOnly], NonEmpty);
    values := NodeValues(links);
    shown := links;
  }
}
