/**
 * Concrete two-plugin registries: the merged output and the pulls a
 * caller sees, derived from the contracts alone.
 */
module Scenarios {
  import opened Wrappers
  import opened Queries
  import opened Plugins
  import opened Iteration
  import opened ModelAccess

  /** A plugin whose monitoring-feature `list` yields `items` whatever the query, then `end`. */
  function ListingPlugin(id: string, prefix: string, items: seq<Option<DomainObject>>, end: ListEnd): (p: Plugin)
    ensures forall q: Query :: Open(p, MonitoringFeature, q) == Opened(Listing(items, end))
  {
    Plugin(Some(DataSource(id, prefix)),
           map[MonitoringFeature := View(Some((q: Query) => Listing(items, end)), None, (vs: seq<string>) => [])])
  }

  const A1 := DomainObject("A-1")
  const A2 := DomainObject("A-2")
  const B1 := DomainObject("B-1")
  const B2 := DomainObject("B-2")

  const Beta := ListingPlugin("Beta", "B", [Some(B1), Some(B2)], Exhausted)

  /** Plugin `a` under prefix A and plugin Beta under prefix B, registered in that order. */
  function TwoPlugins(a: Plugin): (reg: Registry)
    ensures reg.Valid()
    ensures SelectPlugins(reg, None) == [a, Beta]
    ensures SelectPlugins(reg, Some(["B"])) == [Beta]
  {
    var reg := Registry(["A", "B"], map["A" := a, "B" := Beta]);
    assert SelectedNames(reg, Some(["B"])) == ["B"];
    reg
  }

  const AnyFeatures := MonitoringFeatureQuery(None, None, None)

  /** The merged output of two plugins is the first one's contribution, then the second's. */
  lemma MergedPair(a: Plugin, b: Plugin, model: SynthesisModel, q: Query)
    ensures Merged([a, b], model, q) == Contribution(a, model, q) + Contribution(b, model, q)
  {
    assert [a, b][1..] == [b];
    assert [b][1..] == [];
    assert Merged([b], model, q) == Contribution(b, model, q) + Merged([], model, q);
  }

  /** Unfiltered, the output is A's items then B's; filtered to B, only B's. */
  lemma TwoPluginMerge()
    ensures var reg := TwoPlugins(ListingPlugin("Alpha", "A", [Some(A1), Some(A2)], Exhausted));
      && Merged(SelectPlugins(reg, None), MonitoringFeature, AnyFeatures) == [A1, A2, B1, B2]
      && Merged(SelectPlugins(reg, Some(["B"])), MonitoringFeature, AnyFeatures) == [B1, B2]
  {
    var m, q := MonitoringFeature, AnyFeatures;
    TakeAllGiven([Some(B1), Some(B2)]);
    assert Contribution(Beta, m, q) == [B1, B2];
    var alpha := ListingPlugin("Alpha", "A", [Some(A1), Some(A2)], Exhausted);
    TakeAllGiven([Some(A1), Some(A2)]);
    assert Contribution(alpha, m, q) == [A1, A2];
    MergedPair(alpha, Beta, m, q);
    assert [Beta][1..] == [];
    assert Merged([Beta], m, q) == Contribution(Beta, m, q) + Merged([], m, q);
  }

  /** A credential failure in A, or a falsy item in A, cuts A short; B's items still follow. */
  lemma TwoPluginMergeCutShort()
    ensures var reg := TwoPlugins(ListingPlugin("Alpha", "A", [Some(A1)], Raising(InvalidOrMissingCredentials)));
      Merged(SelectPlugins(reg, None), MonitoringFeature, AnyFeatures) == [A1, B1, B2]
    ensures var reg := TwoPlugins(ListingPlugin("Alpha", "A", [Some(A1), None, Some(A2)], Exhausted));
      Merged(SelectPlugins(reg, None), MonitoringFeature, AnyFeatures) == [A1, B1, B2]
  {
    var m, q := MonitoringFeature, AnyFeatures;
    TakeAllGiven([Some(B1), Some(B2)]);
    assert Contribution(Beta, m, q) == [B1, B2];
    var failing := ListingPlugin("Alpha", "A", [Some(A1)], Raising(InvalidOrMissingCredentials));
    TakeAllGiven([Some(A1)]);
    assert Contribution(failing, m, q) == [A1];
    MergedPair(failing, Beta, m, q);
    var falsy := ListingPlugin("Alpha", "A", [Some(A1), None, Some(A2)], Exhausted);
    FalsyEndsContribution([Some(A1)], [Some(A2)]);
    assert [Some(A1)] + [None] + [Some(A2)] == [Some(A1), None, Some(A2)];
    assert Contribution(falsy, m, q) == Unwrap([Some(A1)]) == [A1];
    MergedPair(falsy, Beta, m, q);
  }

  /** A sequence without a falsy item is yielded whole. */
  lemma TakeAllGiven(items: seq<Option<DomainObject>>)
    requires AllGiven(items)
    ensures TakeObjects(items) == Unwrap(items)
  {
    assert items[..|items|] == items && items[|items|..] == [];
    TakeObjectsSplit(items, |items|);
  }

  /** The results of two plugins are the first one's results, then the second's. */
  lemma OutcomesPair(a: Plugin, b: Plugin, model: SynthesisModel, q: Query)
    ensures Outcomes([a, b], model, q) == PluginOutcomes(a, model, q) + PluginOutcomes(b, model, q)
  {
    assert [a, b][1..] == [b];
    assert [b][1..] == [];
    assert Outcomes([b], model, q) == PluginOutcomes(b, model, q) + Outcomes([], model, q);
  }

  const Down := PluginError("down")

  /**
   * What a caller of `__next__` receives from A then B: A's items; a failure
   * of A's sequence other than a credential failure is raised between A's
   * items and B's; a credential failure is not raised at all.
   */
  lemma TwoPluginOutcomes()
    ensures Outcomes([ListingPlugin("Alpha", "A", [Some(A1), Some(A2)], Exhausted), Beta], MonitoringFeature, AnyFeatures)
            == [Yielded(A1), Yielded(A2), Yielded(B1), Yielded(B2)]
    ensures Outcomes([ListingPlugin("Alpha", "A", [Some(A1)], Raising(Down)), Beta], MonitoringFeature, AnyFeatures)
            == [Yielded(A1), Raised(Down), Yielded(B1), Yielded(B2)]
    ensures Outcomes([ListingPlugin("Alpha", "A", [Some(A1)], Raising(InvalidOrMissingCredentials)), Beta],
                     MonitoringFeature, AnyFeatures)
            == [Yielded(A1), Yielded(B1), Yielded(B2)]
  {
    var m, q := MonitoringFeature, AnyFeatures;
    TakeAllGiven([Some(B1), Some(B2)]);
    assert PluginOutcomes(Beta, m, q) == [Yielded(B1), Yielded(B2)];
    var alpha := ListingPlugin("Alpha", "A", [Some(A1), Some(A2)], Exhausted);
    TakeAllGiven([Some(A1), Some(A2)]);
    assert PluginOutcomes(alpha, m, q) == [Yielded(A1), Yielded(A2)];
    OutcomesPair(alpha, Beta, m, q);
    TakeAllGiven([Some(A1)]);
    var failing := ListingPlugin("Alpha", "A", [Some(A1)], Raising(Down));
    assert PluginOutcomes(failing, m, q) == [Yielded(A1), Raised(Down)];
    OutcomesPair(failing, Beta, m, q);
    var refused := ListingPlugin("Alpha", "A", [Some(A1)], Raising(InvalidOrMissingCredentials));
    assert PluginOutcomes(refused, m, q) == [Yielded(A1)];
    OutcomesPair(refused, Beta, m, q);
  }

  /** Extending a taken prefix by the next element. */
  lemma PrefixStep(xs: seq<Pull>, i: nat)
    requires i < |xs|
    ensures xs[..i] + [xs[i]] == xs[..i + 1]
  {
  }

  /** A caller pulling from a fresh iterator receives `expected`, in order, then StopIteration on every call. */
  method PullExpecting(it: DataSourceModelIterator, expected: seq<Pull>)
    requires it.Valid() && it.history == [] && Outcomes(it.plugins, it.model, it.query) == expected
    modifies it
  {
    var i := 0;
    while i < |expected|
      invariant 0 <= i <= |expected|
      invariant it.Valid() && it.history == expected[..i]
    {
      OutcomesWellFormed(it.plugins, it.model, it.query);
      assert !expected[i].StopIteration? by { assert expected[i] in expected; }
      var r := it.Next();
      PrefixStep(expected, i);
      i := i + 1;
    }
    assert expected[..i] == expected;
    var r := it.Next();
    assert r == StopIteration;
    r := it.Next();
    assert r == StopIteration;
  }

  /** A caller pulling from `list` on plugins A and B sees A-1, A-2, B-1, B-2, then StopIteration for good. */
  method PullAll()
  {
    var alpha := ListingPlugin("Alpha", "A", [Some(A1), Some(A2)], Exhausted);
    var reg := TwoPlugins(alpha);
    TwoPluginOutcomes();
    var it := List(DataSourceModelAccess(MonitoringFeature, reg), AnyFeatures);
    PullExpecting(it, [Yielded(A1), Yielded(A2), Yielded(B1), Yielded(B2)]);
  }

  /**
   * A failure of A's sequence reaches the caller after A's items, and the
   * next call goes on with B: A-1, the failure, B-1, B-2, StopIteration.
   */
  method PullThroughFailure()
  {
    var alpha := ListingPlugin("Alpha", "A", [Some(A1)], Raising(Down));
    var reg := TwoPlugins(alpha);
    TwoPluginOutcomes();
    var it := List(DataSourceModelAccess(MonitoringFeature, reg), AnyFeatures);
    PullExpecting(it, [Yielded(A1), Raised(Down), Yielded(B1), Yielded(B2)]);
  }
}
