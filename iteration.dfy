/**
 * The cross-plugin merge (`DataSourceModelIterator`): which plugins a list
 * call visits, what each contributes, and the iterator whose successive
 * `Next` calls pull the merged sequence one item at a time.
 */
module Iteration {
  import opened Wrappers
  import opened Sequences
  import opened Queries
  import opened Plugins
  import opened Synthesis

  /** The model access a list call is made on: the synthesized model and the registered plugins. */
  datatype DataSourceModelAccess = DataSourceModelAccess(model: SynthesisModel, plugins: Registry)

  // ---------------------------------------------------------------- plugin selection

  /** `[d for d in names if d in table]`: the known names, in the order given. */
  function KnownNames(names: seq<string>, table: map<string, Plugin>): (r: seq<string>)
    ensures |r| <= |names|
    ensures forall n :: n in r <==> n in names && n in table
    ensures (forall i :: 0 <= i < |names| ==> names[i] !in table) ==> r == []
  {
    if names == [] then []
    else (if names[0] in table then [names[0]] else []) + KnownNames(names[1..], table)
  }

  /** Known names are kept in filter order: the selection distributes over concatenation. */
  lemma {:induction false} KnownNamesAppend(a: seq<string>, b: seq<string>, table: map<string, Plugin>)
    ensures KnownNames(a + b, table) == KnownNames(a, table) + KnownNames(b, table)
  {
    if a != [] {
      assert (a + b)[0] == a[0] && (a + b)[1..] == a[1..] + b;
      KnownNamesAppend(a[1..], b, table);
      ConcatAssoc(if a[0] in table then [a[0]] else [], KnownNames(a[1..], table), KnownNames(b, table));
    } else {
      assert a + b == b;
    }
  }

  /**
   * The keys of the plugins a list call visits: every registered plugin in
   * registration order when the query names no data source; otherwise the
   * named ones that are registered, in the order named, unknown names dropped.
   */
  function SelectedNames(reg: Registry, filter: Option<seq<string>>): (r: seq<string>)
    requires reg.Valid()
    ensures forall n :: n in r ==> n in reg.table
    ensures !Given(filter) ==> r == reg.order
    ensures Given(filter) ==> |r| <= |filter.value|
    ensures Given(filter) ==> forall n :: n in r <==> n in filter.value && n in reg.table
  {
    if !Given(filter) then reg.order else KnownNames(filter.value, reg.table)
  }

  /** The plugins a list call visits, in visiting order. */
  function SelectPlugins(reg: Registry, filter: Option<seq<string>>): seq<Plugin>
    requires reg.Valid()
  {
    var names := SelectedNames(reg, filter);
    seq(|names|, i requires 0 <= i < |names| => reg.table[names[i]])
  }

  /**
   * A filter naming one registered plugin visits exactly that plugin; a
   * non-empty filter naming only unregistered data sources visits none
   * (whereas an empty filter visits all).
   */
  lemma SelectionEdgeCases(reg: Registry, name: string, unknown: seq<string>)
    requires reg.Valid()
    requires unknown != [] && forall i :: 0 <= i < |unknown| ==> unknown[i] !in reg.table
    ensures name in reg.table ==> SelectedNames(reg, Some([name])) == [name]
    ensures SelectPlugins(reg, Some(unknown)) == []
    ensures SelectPlugins(reg, Some([])) == SelectPlugins(reg, None)
  {
  }

  // ---------------------------------------------------------------- what each plugin contributes

  /** What visiting a plugin does before any item is pulled. */
  datatype Opening = Skipped | Raises(failure: Failure) | Opened(listing: Listing)

  /**
   * Visiting a plugin: without a view of the model, or without `list` on it,
   * the plugin is skipped; without a data source the synthesis raises;
   * otherwise `list` is called with the plugin's query.
   */
  function Open(p: Plugin, model: SynthesisModel, q: Query): (r: Opening)
    ensures r.Skipped? <==> model !in p.views || p.views[model].list.None?
    ensures r.Raises? <==> !r.Skipped? && p.datasource.None?
    ensures r.Raises? ==> r.failure == AttributeMissing("id_prefix")
    ensures r.Opened? ==>
      r.listing == p.views[model].list.value(PluginQuery(p.datasource.value, p.views[model], q))
  {
    if model !in p.views || p.views[model].list.None? then Skipped
    else if p.datasource.None? then Raises(AttributeMissing("id_prefix"))
    else
      var view := p.views[model];
      Opened(view.list.value(PluginQuery(p.datasource.value, view, q)))
  }

  /** Every item is truthy. */
  predicate AllGiven(items: seq<Option<DomainObject>>)
  {
    forall i :: 0 <= i < |items| ==> items[i].Some?
  }

  /** The objects of a run of truthy items. */
  function Unwrap(items: seq<Option<DomainObject>>): seq<DomainObject>
    requires AllGiven(items)
  {
    seq(|items|, i requires 0 <= i < |items| => items[i].value)
  }

  /** The objects a plugin's sequence yields before its first falsy item. */
  function TakeObjects(items: seq<Option<DomainObject>>): seq<DomainObject>
  {
    if items == [] || items[0].None? then [] else [items[0].value] + TakeObjects(items[1..])
  }

  /**
   * The objects yielded are the longest truthy head of the sequence: each
   * one is the item at its position, and the item after the last one, if
   * any, is falsy.
   */
  lemma {:induction false} TakeObjectsIsTruthyHead(items: seq<Option<DomainObject>>)
    ensures var r := TakeObjects(items);
      && |r| <= |items|
      && (forall i :: 0 <= i < |r| ==> items[i] == Some(r[i]))
      && (|r| < |items| ==> items[|r|].None?)
  {
    if items != [] && items[0].Some? {
      TakeObjectsIsTruthyHead(items[1..]);
      var r := TakeObjects(items);
      assert r == [items[0].value] + TakeObjects(items[1..]);
      forall i | 0 < i < |r| ensures items[i] == Some(r[i]) {
        assert items[1..][i - 1] == items[i];
      }
    }
  }

  /** A run of truthy items is yielded in full, and yielding continues after it. */
  lemma {:induction false} TakeObjectsSplit(items: seq<Option<DomainObject>>, j: nat)
    requires j <= |items| && AllGiven(items[..j])
    ensures TakeObjects(items) == Unwrap(items[..j]) + TakeObjects(items[j..])
  {
    if j > 0 {
      assert items[..j][0] == items[0];
      assert items[1..][..j - 1] == items[1..j] == items[..j][1..];
      TakeObjectsSplit(items[1..], j - 1);
      assert items[1..][j - 1..] == items[j..];
      assert Unwrap(items[..j]) == [items[0].value] + Unwrap(items[1..j]);
    } else {
      assert items[..0] == [] && items[0..] == items;
    }
  }

  /** A falsy item ends a plugin's contribution: nothing after it is yielded. */
  lemma FalsyEndsContribution(before: seq<Option<DomainObject>>, after: seq<Option<DomainObject>>)
    requires AllGiven(before)
    ensures TakeObjects(before + [None] + after) == Unwrap(before)
  {
    var items := before + [None] + after;
    assert items[..|before|] == before;
    TakeObjectsSplit(items, |before|);
    assert items[|before|..][0] == None;
  }

  /** What one plugin contributes to the merged output: the truthy head of its sequence, if it is opened. */
  function Contribution(p: Plugin, model: SynthesisModel, q: Query): seq<DomainObject>
  {
    match Open(p, model, q)
    case Opened(listing) => TakeObjects(listing.items)
    case _ => []
  }

  /** The merged output: the contributions of the plugins, plugin by plugin. */
  function Merged(ps: seq<Plugin>, model: SynthesisModel, q: Query): seq<DomainObject>
  {
    if ps == [] then [] else Contribution(ps[0], model, q) + Merged(ps[1..], model, q)
  }

  /** Every merged object was contributed by one of the plugins visited. */
  lemma {:induction false} MergedFromContributions(ps: seq<Plugin>, model: SynthesisModel, q: Query)
    ensures forall x :: x in Merged(ps, model, q) ==> exists i :: 0 <= i < |ps| && x in Contribution(ps[i], model, q)
  {
    if ps != [] {
      MergedFromContributions(ps[1..], model, q);
      forall x | x in Merged(ps, model, q) ensures exists i :: 0 <= i < |ps| && x in Contribution(ps[i], model, q) {
        if x !in Contribution(ps[0], model, q) {
          assert x in Merged(ps[1..], model, q);
          var j :| 0 <= j < |ps[1..]| && x in Contribution(ps[1..][j], model, q);
          assert ps[1..][j] == ps[j + 1];
        }
      }
    }
  }

  /** Merging is order-preserving concatenation: earlier plugins' items all come first. */
  lemma {:induction false} MergedAppend(a: seq<Plugin>, b: seq<Plugin>, model: SynthesisModel, q: Query)
    ensures Merged(a + b, model, q) == Merged(a, model, q) + Merged(b, model, q)
  {
    if a != [] {
      assert (a + b)[0] == a[0] && (a + b)[1..] == a[1..] + b;
      MergedAppend(a[1..], b, model, q);
      assert Merged(a + b, model, q) == Contribution(a[0], model, q) + Merged(a[1..] + b, model, q);
      ConcatAssoc(Contribution(a[0], model, q), Merged(a[1..], model, q), Merged(b, model, q));
    } else {
      assert a + b == b;
    }
  }

  // ---------------------------------------------------------------- what the caller of `__next__` sees

  /** What one `__next__` call does: return an item, raise StopIteration, or raise a plugin failure. */
  datatype Pull = Yielded(item: DomainObject) | StopIteration | Raised(failure: Failure)

  /** One `Yielded` result per object, in order. */
  function Yields(xs: seq<DomainObject>): seq<Pull>
  {
    seq(|xs|, i requires 0 <= i < |xs| => Yielded(xs[i]))
  }

  /**
   * What the caller sees of the end of a plugin's sequence, which is reached
   * only when no falsy item came first: a failure is raised to the caller,
   * unless it is a credential failure, which is logged and swallowed.
   */
  function EndOutcome(listing: Listing): seq<Pull>
  {
    if AllGiven(listing.items) && listing.end.Raising? && listing.end.failure != InvalidOrMissingCredentials
    then [Raised(listing.end.failure)]
    else []
  }

  /**
   * The results of `__next__` that visiting one plugin produces: nothing when
   * it is skipped, the failure when opening it raises, otherwise the truthy
   * head of its sequence followed by what its end raises.
   */
  function PluginOutcomes(p: Plugin, model: SynthesisModel, q: Query): seq<Pull>
  {
    match Open(p, model, q)
    case Skipped => []
    case Raises(failure) => [Raised(failure)]
    case Opened(listing) => Yields(TakeObjects(listing.items)) + EndOutcome(listing)
  }

  /** Every result a caller of `__next__` receives before StopIteration, in order, plugin by plugin. */
  function Outcomes(ps: seq<Plugin>, model: SynthesisModel, q: Query): seq<Pull>
  {
    if ps == [] then [] else PluginOutcomes(ps[0], model, q) + Outcomes(ps[1..], model, q)
  }

  /** No result of a plugin is StopIteration, and no credential failure reaches the caller. */
  lemma PluginOutcomesWellFormed(p: Plugin, model: SynthesisModel, q: Query)
    ensures forall x :: x in PluginOutcomes(p, model, q) ==> !x.StopIteration? && x != Raised(InvalidOrMissingCredentials)
  {
  }

  /**
   * Before StopIteration the caller receives only items and failures, never
   * a credential failure: those are logged and swallowed.
   */
  lemma {:induction false} OutcomesWellFormed(ps: seq<Plugin>, model: SynthesisModel, q: Query)
    ensures forall x :: x in Outcomes(ps, model, q) ==> !x.StopIteration? && x != Raised(InvalidOrMissingCredentials)
  {
    if ps != [] {
      PluginOutcomesWellFormed(ps[0], model, q);
      OutcomesWellFormed(ps[1..], model, q);
      assert Outcomes(ps, model, q) == PluginOutcomes(ps[0], model, q) + Outcomes(ps[1..], model, q);
    }
  }

  /** The objects among a run of results. */
  function Items(pulls: seq<Pull>): seq<DomainObject>
  {
    if pulls == [] then [] else (if pulls[0].Yielded? then [pulls[0].item] else []) + Items(pulls[1..])
  }

  /** Collecting objects distributes over concatenation. */
  lemma {:induction false} ItemsAppend(a: seq<Pull>, b: seq<Pull>)
    ensures Items(a + b) == Items(a) + Items(b)
  {
    if a != [] {
      assert (a + b)[0] == a[0] && (a + b)[1..] == a[1..] + b;
      ItemsAppend(a[1..], b);
      ConcatAssoc(if a[0].Yielded? then [a[0].item] else [], Items(a[1..]), Items(b));
    } else {
      assert a + b == b;
    }
  }

  /** The objects of the results of a plugin are its contribution: failures carry no object. */
  lemma ItemsOfPluginOutcomes(p: Plugin, model: SynthesisModel, q: Query)
    ensures Items(PluginOutcomes(p, model, q)) == Contribution(p, model, q)
  {
    match Open(p, model, q)
    case Skipped =>
    case Raises(failure) =>
      assert Items([Raised(failure)]) == [] + Items([]);
    case Opened(listing) =>
      var xs := TakeObjects(listing.items);
      ItemsAppend(Yields(xs), EndOutcome(listing));
      ItemsOfYields(xs);
      var e := EndOutcome(listing);
      if e != [] {
        assert Items(e) == [] + Items([]);
      }
  }

  /** Collecting the objects of `Yields(xs)` gives back `xs`. */
  lemma {:induction false} ItemsOfYields(xs: seq<DomainObject>)
    ensures Items(Yields(xs)) == xs
  {
    if xs != [] {
      assert Yields(xs)[1..] == Yields(xs[1..]);
      ItemsOfYields(xs[1..]);
      assert [xs[0]] + xs[1..] == xs;
    }
  }

  /** The objects among all results are exactly the merged output. */
  lemma {:induction false} ItemsOfOutcomes(ps: seq<Plugin>, model: SynthesisModel, q: Query)
    ensures Items(Outcomes(ps, model, q)) == Merged(ps, model, q)
  {
    if ps != [] {
      ItemsAppend(PluginOutcomes(ps[0], model, q), Outcomes(ps[1..], model, q));
      ItemsOfPluginOutcomes(ps[0], model, q);
      ItemsOfOutcomes(ps[1..], model, q);
    }
  }

  /** Results are produced plugin by plugin, in order. */
  lemma {:induction false} OutcomesAppend(a: seq<Plugin>, b: seq<Plugin>, model: SynthesisModel, q: Query)
    ensures Outcomes(a + b, model, q) == Outcomes(a, model, q) + Outcomes(b, model, q)
  {
    if a != [] {
      assert (a + b)[0] == a[0] && (a + b)[1..] == a[1..] + b;
      OutcomesAppend(a[1..], b, model, q);
      assert Outcomes(a + b, model, q) == PluginOutcomes(a[0], model, q) + Outcomes(a[1..] + b, model, q);
      ConcatAssoc(PluginOutcomes(a[0], model, q), Outcomes(a[1..], model, q), Outcomes(b, model, q));
    } else {
      assert a + b == b;
    }
  }

  /** The results of the first `k + 1` plugins extend those of the first `k` by plugin `k`'s results. */
  lemma OutcomesStep(ps: seq<Plugin>, k: nat, model: SynthesisModel, q: Query)
    requires k < |ps|
    ensures Outcomes(ps[..k + 1], model, q) == Outcomes(ps[..k], model, q) + PluginOutcomes(ps[k], model, q)
  {
    assert ps[..k + 1] == ps[..k] + [ps[k]];
    OutcomesAppend(ps[..k], [ps[k]], model, q);
    assert [ps[k]][1..] == [];
  }

  /** The results of the first `n` plugins are a prefix of all results. */
  lemma OutcomesPrefix(ps: seq<Plugin>, n: nat, model: SynthesisModel, q: Query)
    requires n <= |ps|
    ensures Outcomes(ps[..n], model, q) <= Outcomes(ps, model, q)
  {
    assert ps == ps[..n] + ps[n..];
    OutcomesAppend(ps[..n], ps[n..], model, q);
  }

  /** The results of an opened plugin: the truthy head of its sequence, then what its end raises. */
  lemma PluginOutcomesOpened(p: Plugin, model: SynthesisModel, q: Query, listing: Listing, m: nat)
    requires Open(p, model, q) == Opened(listing)
    requires m <= |listing.items| && AllGiven(listing.items[..m])
    ensures PluginOutcomes(p, model, q)
            == Yields(Unwrap(listing.items[..m])) + Yields(TakeObjects(listing.items[m..])) + EndOutcome(listing)
  {
    var items := listing.items;
    TakeObjectsSplit(items, m);
    var head := Unwrap(items[..m]);
    var rest := TakeObjects(items[m..]);
    assert Yields(head + rest) == Yields(head) + Yields(rest);
  }

  /**
   * The results of the plugins before `k`, followed by a run of truthy items
   * from the head of plugin `k`'s sequence (and, once that sequence has been
   * drained, what its end raises) are a prefix of all results.
   */
  lemma PartialOutcomesArePrefix(ps: seq<Plugin>, k: nat, model: SynthesisModel, q: Query, listing: Listing, m: nat, ended: bool)
    requires k < |ps| && Open(ps[k], model, q) == Opened(listing)
    requires m <= |listing.items| && AllGiven(listing.items[..m])
    requires ended ==> m == |listing.items|
    ensures Outcomes(ps[..k], model, q) + Yields(Unwrap(listing.items[..m])) + (if ended then EndOutcome(listing) else [])
            <= Outcomes(ps, model, q)
  {
    var items := listing.items;
    var part := Outcomes(ps[..k], model, q) + Yields(Unwrap(items[..m])) + (if ended then EndOutcome(listing) else []);
    PluginOutcomesOpened(ps[k], model, q, listing, m);
    OutcomesStep(ps, k, model, q);
    if ended {
      assert items[m..] == [];
    }
    PrefixOfParts(Outcomes(ps[..k], model, q), Yields(Unwrap(items[..m])), Yields(TakeObjects(items[m..])),
                  EndOutcome(listing), ended);
    assert part <= Outcomes(ps[..k + 1], model, q);
    OutcomesPrefix(ps, k + 1, model, q);
    PrefixTransitive(part, Outcomes(ps[..k + 1], model, q), Outcomes(ps, model, q));
  }

  /** Leaving out the tail of a four-part concatenation, or only its third part when that is empty, gives a prefix. */
  lemma PrefixOfParts<T>(a: seq<T>, b: seq<T>, c: seq<T>, d: seq<T>, ended: bool)
    requires ended ==> c == []
    ensures a + b + (if ended then d else []) <= a + (b + c + d)
  {
    if ended {
      assert a + (b + c + d) == a + b + d;
    } else {
      PrefixOfConcat(a + b, c + d);
      assert (a + b) + (c + d) == a + (b + c + d);
    }
  }

  /**
   * Plugin `k` is finished after its truthy run `items[..m]`, ended by a
   * falsy item (its end is then never reached) or by the end of its sequence.
   */
  lemma PluginOutcomesComplete(ps: seq<Plugin>, k: nat, model: SynthesisModel, q: Query, listing: Listing, m: nat)
    requires k < |ps| && Open(ps[k], model, q) == Opened(listing)
    requires m <= |listing.items| && AllGiven(listing.items[..m])
    requires m == |listing.items| || listing.items[m].None?
    ensures m < |listing.items| ==> EndOutcome(listing) == []
    ensures Outcomes(ps[..k], model, q) + Yields(Unwrap(listing.items[..m])) + EndOutcome(listing)
            == Outcomes(ps[..k + 1], model, q)
  {
    var items := listing.items;
    PluginOutcomesOpened(ps[k], model, q, listing, m);
    if m < |items| {
      assert items[m..][0] == items[m];
      assert TakeObjects(items[m..]) == [];
      assert !AllGiven(items) by { assert items[m].None?; }
    } else {
      assert items[m..] == [];
    }
    assert Yields(TakeObjects(items[m..])) == [];
    assert Yields(Unwrap(items[..m])) + [] == Yields(Unwrap(items[..m]));
    OutcomesStep(ps, k, model, q);
    ConcatAssoc(Outcomes(ps[..k], model, q), Yields(Unwrap(items[..m])), EndOutcome(listing));
  }

  // ---------------------------------------------------------------- the iterator

  /**
   * An open per-plugin sequence: the position of the next pull, and whether
   * its end has already been pulled (it raised).
   */
  datatype Cursor = Cursor(listing: Listing, pos: nat, ended: bool)

  /**
   * What was returned while cursor `c` is open: `before`, then the items
   * pulled so far (all truthy) and, once the sequence has ended, what that
   * end raised.
   */
  ghost predicate ReturnedAt(before: seq<Pull>, c: Cursor, history: seq<Pull>)
  {
    && c.pos <= |c.listing.items|
    && (c.ended ==> c.pos == |c.listing.items|)
    && AllGiven(c.listing.items[..c.pos])
    && history == before + Yields(Unwrap(c.listing.items[..c.pos])) + (if c.ended then EndOutcome(c.listing) else [])
  }

  /**
   * A sequence is finished once a falsy item is pulled, or once its end is
   * reached and it has nothing (more) to raise: what was returned is then
   * all the results of the plugins up to and including this one.
   */
  lemma FinishStep(ps: seq<Plugin>, k: nat, model: SynthesisModel, q: Query, c: Cursor, history: seq<Pull>)
    requires k < |ps| && Open(ps[k], model, q) == Opened(c.listing)
    requires ReturnedAt(Outcomes(ps[..k], model, q), c, history)
    requires if c.pos < |c.listing.items| then c.listing.items[c.pos].None? else c.ended || !c.listing.end.Raising?
    ensures history == Outcomes(ps[..k + 1], model, q)
  {
    PluginOutcomesComplete(ps, k, model, q, c.listing, c.pos);
  }

  /** Visiting plugin `k` adds nothing when it is skipped, and only the failure when opening it raises. */
  lemma OpenStep(ps: seq<Plugin>, k: nat, model: SynthesisModel, q: Query)
    requires k < |ps|
    ensures Open(ps[k], model, q).Skipped? ==> Outcomes(ps[..k + 1], model, q) == Outcomes(ps[..k], model, q)
    ensures Open(ps[k], model, q).Raises? ==>
      Outcomes(ps[..k + 1], model, q) == Outcomes(ps[..k], model, q) + [Raised(Open(ps[k], model, q).failure)]
  {
    OutcomesStep(ps, k, model, q);
  }

  /** Nothing is returned from a sequence when it is opened. */
  lemma OpenedStart(before: seq<Pull>, listing: Listing)
    ensures ReturnedAt(before, Cursor(listing, 0, false), before)
  {
    assert listing.items[..0] == [];
    assert Yields(Unwrap([])) == [];
  }

  /** Pulling a truthy item returns it. */
  lemma YieldStep(before: seq<Pull>, c: Cursor, history: seq<Pull>)
    requires ReturnedAt(before, c, history) && c.pos < |c.listing.items| && c.listing.items[c.pos].Some?
    ensures !c.ended
    ensures ReturnedAt(before, Cursor(c.listing, c.pos + 1, false), history + [Yielded(c.listing.items[c.pos].value)])
  {
    var items := c.listing.items;
    assert items[..c.pos + 1] == items[..c.pos] + [items[c.pos]];
  }

  /** Pulling the raising end of a sequence whose items were all truthy returns what `EndOutcome` says. */
  lemma EndStep(before: seq<Pull>, c: Cursor, history: seq<Pull>)
    requires ReturnedAt(before, c, history) && c.pos == |c.listing.items| && !c.ended && c.listing.end.Raising?
    ensures ReturnedAt(before, Cursor(c.listing, c.pos, true), history + EndOutcome(c.listing))
    ensures EndOutcome(c.listing)
            == if c.listing.end.failure == InvalidOrMissingCredentials then [] else [Raised(c.listing.end.failure)]
  {
    assert c.listing.items[..c.pos] == c.listing.items;
  }

  function Min(a: int, b: int): int { if a < b then a else b }

  /** `DataSourceModelIterator` */
  class DataSourceModelIterator {
    /** The caller's query, unsynthesized; the response echoes it. */
    const query: Query
    const model: SynthesisModel
    /** The plugins to visit, chosen at construction. */
    const plugins: seq<Plugin>
    /** `_plugin_index`: the plugin visited last. */
    var pluginIndex: int
    /** `_model_access_iterator`: the open per-plugin sequence, if any. */
    var cursor: Option<Cursor>
    /** `_next`: the last item pulled from a plugin. */
    var next: Option<DomainObject>
    /** The results returned so far (items and raised failures; StopIteration aside). */
    ghost var history: seq<Pull>

    /** Every plugin up to `pluginIndex` has produced all its results. */
    ghost predicate Settled()
      reads this
    {
      && pluginIndex >= -1
      && history == Outcomes(plugins[..Min(pluginIndex + 1, |plugins|)], model, query)
    }

    /**
     * Plugin `pluginIndex` is open at cursor `c`: what was returned is the
     * earlier plugins' results followed by the items pulled from it and,
     * once its sequence has ended, what that end raised.
     */
    ghost predicate Draining(c: Cursor)
      reads this
    {
      && 0 <= pluginIndex < |plugins|
      && Open(plugins[pluginIndex], model, query) == Opened(c.listing)
      && ReturnedAt(Outcomes(plugins[..pluginIndex], model, query), c, history)
    }

    /** The iterator invariant. */
    ghost predicate Valid()
      reads this
    {
      match cursor
      case None => Settled()
      case Some(c) => Draining(c)
    }

    /** Pulls left in the open per-plugin sequence, its end included. */
    ghost function PullsLeft(): int
      reads this
    {
      match cursor
      case None => 0
      case Some(c) => |c.listing.items| - c.pos + (if c.ended then 0 else 1)
    }

    /** `__init__`: chooses the plugins; nothing is pulled yet. */
    constructor (q: Query, access: DataSourceModelAccess)
      requires access.plugins.Valid()
      ensures query == q && model == access.model
      ensures plugins == SelectPlugins(access.plugins, q.datasource)
      ensures pluginIndex == -1 && cursor == None && next == None && history == []
      ensures Valid()
    {
      query := q;
      model := access.model;
      plugins := SelectPlugins(access.plugins, q.datasource);
      pluginIndex := -1;
      cursor := None;
      next := None;
      history := [];
    }

    /** What has been returned is always a prefix of all the results. */
    lemma HistoryIsPrefix()
      requires Valid()
      ensures history <= Outcomes(plugins, model, query)
    {
      match cursor
      case None =>
        OutcomesPrefix(plugins, Min(pluginIndex + 1, |plugins|), model, query);
      case Some(c) =>
        PartialOutcomesArePrefix(plugins, pluginIndex, model, query, c.listing, c.pos, c.ended);
    }

    /**
     * The inner `try` of `__next__`: one pull from the open plugin sequence.
     * A truthy item is returned; the end of the sequence raises its failure,
     * if any; a falsy item or the plain end (`None` here) finishes the plugin.
     */
    method PullOpen() returns (r: Option<Pull>)
      requires cursor.Some? && Draining(cursor.value)
      modifies this`cursor, this`next, this`history
      ensures r.None? ==> Settled() && history == old(history)
      ensures r.Some? ==> cursor.Some? && Draining(cursor.value) && PullsLeft() < old(PullsLeft())
      ensures r.Some? ==> r.value.Yielded? || r.value.Raised?
      ensures r.Some? && r.value.Yielded? ==> history == old(history) + [r.value] && next == Some(r.value.item)
      ensures r.Some? && r.value.Raised? ==>
        && old(cursor.value.listing.end) == Raising(r.value.failure)
        && history == old(history) + (if r.value.failure == InvalidOrMissingCredentials then [] else [r.value])
      ensures (r.Some? && r.value.Raised?) <==>
        && !old(cursor.value.ended)
        && old(cursor.value.pos) == |old(cursor.value.listing.items)|
        && old(cursor.value.listing.end.Raising?)
    {
      var c := cursor.value;
      var items := c.listing.items;
      if c.pos < |items| {
        next := items[c.pos];
        cursor := Some(Cursor(c.listing, c.pos + 1, false));
        if next.Some? {
          YieldStep(Outcomes(plugins[..pluginIndex], model, query), c, history);
          history := history + [Yielded(next.value)];
          return Some(Yielded(next.value));
        }
        // A falsy item: the plugin is finished.
        FinishStep(plugins, pluginIndex, model, query, c, history);
        assert Min(pluginIndex + 1, |plugins|) == pluginIndex + 1;
        return None;
      } else if !c.ended && c.listing.end.Raising? {
        // The sequence raises; afterwards it is finished.
        EndStep(Outcomes(plugins[..pluginIndex], model, query), c, history);
        cursor := Some(Cursor(c.listing, c.pos, true));
        history := history + EndOutcome(c.listing);
        return Some(Raised(c.listing.end.failure));
      } else {
        // StopIteration from the plugin's sequence.
        FinishStep(plugins, pluginIndex, model, query, c, history);
        assert Min(pluginIndex + 1, |plugins|) == pluginIndex + 1;
        return None;
      }
    }

    /**
     * The rest of the loop body of `__next__`: move to the next plugin; skip it
     * when it has no `list` view of the model, otherwise open its sequence on
     * the plugin's query; past the last plugin, raise StopIteration.
     */
    method Advance() returns (r: Option<Pull>)
      requires Settled()
      modifies this`pluginIndex, this`cursor, this`history
      ensures pluginIndex == old(pluginIndex) + 1 && Valid()
      ensures r.None? ==> pluginIndex < |plugins| && history == old(history)
      ensures r.Some? ==> r.value.StopIteration? || r.value.Raised?
      ensures r.Some? ==> (r.value.StopIteration? <==> pluginIndex >= |plugins|)
      ensures r.Some? && r.value.StopIteration? ==> history == old(history) == Outcomes(plugins, model, query)
      ensures (r.Some? && r.value.Raised?) <==> pluginIndex < |plugins| && Open(plugins[pluginIndex], model, query).Raises?
      ensures r.Some? && r.value.Raised? ==>
        && cursor.None?
        && r.value == Raised(Open(plugins[pluginIndex], model, query).failure)
        && history == old(history) + [r.value]
    {
      pluginIndex := pluginIndex + 1;
      cursor := None;
      if pluginIndex < |plugins| {
        var visit := Open(plugins[pluginIndex], model, query);
        OpenStep(plugins, pluginIndex, model, query);
        assert Min(pluginIndex, |plugins|) == pluginIndex && Min(pluginIndex + 1, |plugins|) == pluginIndex + 1;
        match visit
        case Skipped =>
          return None;
        case Raises(failure) =>
          history := history + [Raised(failure)];
          return Some(Raised(failure));
        case Opened(listing) =>
          OpenedStart(history, listing);
          cursor := Some(Cursor(listing, 0, false));
          return None;
      } else {
        assert plugins[..|plugins|] == plugins;
        return Some(StopIteration);
      }
    }

    /**
     * `__next__`: drains the open plugin sequence, then moves on to the next
     * plugin that has a `list` view. A credential failure ends that plugin's
     * contribution and iteration goes on; any other failure is raised to the
     * caller, and the next call goes on after it. Each call returns the next
     * of all the results (`Outcomes`), and StopIteration once they are all
     * returned, on every call from then on.
     */
    method Next() returns (r: Pull)
      requires Valid()
      modifies this
      ensures Valid()
      ensures var out := Outcomes(plugins, model, query);
        r == if |old(history)| < |out| then out[|old(history)|] else StopIteration
      ensures history == if r.StopIteration? then old(history) else old(history) + [r]
      ensures r.Yielded? ==> next == Some(r.item)
      ensures r.StopIteration? ==> Items(history) == Merged(plugins, model, query)
    {
      ghost var h0 := history;
      while true
        invariant Valid() && history == h0
        decreases |plugins| - pluginIndex, PullsLeft()
      {
        if cursor.Some? {
          var pulled := PullOpen();
          if pulled.Some? {
            if pulled.value.Raised? && pulled.value.failure == InvalidOrMissingCredentials {
              // Logged and swallowed; the plugin's sequence is finished.
              continue;
            }
            r := pulled.value;
            HistoryIsPrefix();
            assert (h0 + [r])[|h0|] == r;
            return;
          }
        }
        var advanced := Advance();
        if advanced.Some? {
          r := advanced.value;
          HistoryIsPrefix();
          if r.StopIteration? {
            ItemsOfOutcomes(plugins, model, query);
          } else {
            assert (h0 + [r])[|h0|] == r;
          }
          return;
        }
      }
    }
  }
}
