# basin3d synthesis core, modelled in Dafny

BASIN-3D is a broker. It exposes data from several registered data source plugins as one set of synthesized models: monitoring features, and measurement timeseries in time-value-pair form. This project models the broker's synthesis core:

- **Broker ids.** Every object the broker returns is identified by `<id_prefix>-<local id>`. When a query is sent on to one plugin, its id filters are narrowed to that plugin's ids and stripped of the prefix (`_synthesize_query_identifiers`). Module `Identifiers` models this, together with the Python string operations it relies on: `split`, `replace(…, 1)` and `startswith`. The code never calls `find`; `Identifiers.Find` models the search for the first occurrence that `replace(…, 1)` performs (basin3d/core/synthesis.py:51).
- **Query synthesis.** `MonitoringFeatureAccess.synthesize_query` and `MeasurementTimeseriesTVPObservationAccess.synthesize_query` build a plugin's query (module `Synthesis`). The timeseries variant also translates broker variables into the plugin's variable names and always sets the aggregation to DAY.
- **Iteration across plugins.** `DataSourceModelIterator` walks the selected plugins one by one (module `Iteration`). It yields each plugin's items, moves on at a falsy item or the end of a listing, swallows credential failures, and raises `StopIteration` at the end. It is a class whose fields are updated in place. `Next` is proved against a pure specification, `Outcomes`: every result a caller of `__next__` receives, plugin by plugin, in the order of the selected plugins: registry order without a datasource filter, the filter's order with one. A plugin whose opening raises contributes just that failure, unless it is a credential failure, which is swallowed like one raised by the listing. Otherwise a plugin's results are the leading run of truthy items of its listing; when every item was truthy, they are followed by the failure the listing ends in, unless that failure is a credential failure. A listing cut short by a falsy item is never pulled further, so its ending is never reached. A ghost `history` records what has been returned; each call returns the next element of `Outcomes`, and `StopIteration` once `history` is all of it. The objects among the results are `Merged`, the concatenation of every plugin's contribution.
- **Model access.** `DataSourceModelAccess.list` builds the iterator and `DataSourceModelAccess.retrieve` fetches one object by its broker id (module `ModelAccess`). `retrieve`'s failures are modelled as a `Result`, with the texts of the three exceptions it raises itself.
- **Enumerations.** Module `Enums` models the enumerations of `schema/enum.py` and its two lookup tables, the pandas frequency map and the feature-shape table.

Plugins themselves are not modelled. A plugin is a record whose capabilities (`list`, `get`, `get_observed_properties`) are function-valued fields, so every property below holds whatever a plugin returns. Module `Scenarios` instantiates two concrete plugins and drives the iterator through them.

## Model

| member | source | states |
|---|---|---|
| Identifiers.Split | basin3d/core/synthesis.py:41 | `str.split(sep)` returns at least one piece, and no piece contains the separator |
| Identifiers.SplitJoin | basin3d/core/synthesis.py:41 | Joining the pieces of a split with the separator gives back the original string |
| Identifiers.JoinSplit | basin3d/core/synthesis.py:41 | Splitting a join of separator-free pieces gives back the pieces |
| Identifiers.Find | basin3d/core/synthesis.py:51-52 | The search inside `replace(…, 1)` finds the first occurrence: the pattern occurs there and at no earlier position; `None` means it occurs nowhere |
| Identifiers.ReplaceFirst | basin3d/core/synthesis.py:51-52 | `replace(pat, repl, 1)` on a string that starts with `pat` swaps that prefix for `repl`; a string without `pat` is returned unchanged |
| Identifiers.FirstToken | basin3d/core/synthesis.py:50 | `split("-")[0]` is the longest dash-free prefix: it is followed by a dash exactly when the string contains one |
| Identifiers.FirstTokenOfComposed | basin3d/core/synthesis.py:50 | The first token of `prefix-local` is `prefix` when the prefix has no dash |
| Identifiers.ExtractId | basin3d/core/synthesis.py:43-53 | `extract_id` keeps exactly the text after the first dash of an id that has one, and returns an id without a dash (the empty id included) unchanged |
| Identifiers.ExtractComposed | basin3d/core/synthesis.py:43-53 | `extract_id` of `prefix-local` is `local` for a dash-free prefix, whatever `local` contains |
| Identifiers.ComposeInjective | basin3d/core/synthesis.py:55-57 | Distinct local ids give distinct broker ids under one prefix |
| Identifiers.TaggedIsComposed | basin3d/core/synthesis.py:55-57 | An id that passes the `startswith("prefix-")` test is `prefix-` followed by its extracted local id, for a dash-free prefix |
| Identifiers.TagMatchesOnlyOwnPrefix | basin3d/core/synthesis.py:57 | With dash-free prefixes, an id composed under one prefix passes another prefix's `startswith` test exactly when the prefixes are equal |
| Identifiers.ExtractMatching | basin3d/core/synthesis.py:55-57 | The filter keeps no more ids than it is given; for a dash-free prefix, `y` is in the result exactly when `prefix-y` is among the inputs |
| Identifiers.ExtractMatchingAppend | basin3d/core/synthesis.py:55-57 | Filtering works item by item: filtering a concatenation concatenates the filtered parts, in order |
| Identifiers.SynthesizeIdentifiers | basin3d/core/synthesis.py:31-57 | For a comma-joined string or a list of ids and a dash-free prefix, `y` is synthesized exactly when `prefix-y` was asked for |
| Identifiers.ComposeAll | basin3d/core/synthesis.py:55-57 | Composing (prefix, local) pairs gives, position by position, the broker id `prefix-local` of each pair |
| Identifiers.ExtractMatchingComposed | basin3d/core/synthesis.py:31-57 | Given broker ids built from dash-free prefixes, synthesis returns exactly the local ids under the plugin's own prefix, in query order |
| Identifiers.JoinedLikeListed | basin3d/core/synthesis.py:40-41 | A comma-joined string of comma-free ids synthesizes to the same list as the list itself |
| Identifiers.ExtractWithDashedPrefix | basin3d/core/synthesis.py:50-52 | With a prefix that contains a dash, extraction cuts at the first dash, not after the prefix: `A-B-7` under `A-B` gives `B-7` |
| Enums.Values | basin3d/core/schema/enum.py:37-40 | `values()` lists one value per member, in declaration order |
| Enums.TimeFrequencyOf | basin3d/core/schema/enum.py:46-57 | Looking up a time frequency by its value only ever returns a member with that value |
| Enums.TimeFrequencyMembersComplete | basin3d/core/schema/enum.py:46-57 | There are six distinct frequencies, every member is listed, and `values()` lists their values in order |
| Enums.TimeFrequencyLookupInverts | basin3d/core/schema/enum.py:46-57 | Each frequency's value equals its name, and looking up a frequency's value gives back that frequency |
| Enums.PandasTimeFrequencyMapInjective | basin3d/core/schema/enum.py:23-30 | The pandas map's keys are exactly the frequency names, and no two keys share an alias |
| Enums.FeatureTypeOf | basin3d/core/schema/enum.py:60-72 | Looking up a feature type by its value only ever returns a member with that value |
| Enums.FeatureTypeMembersComplete | basin3d/core/schema/enum.py:60-72 | There are eleven feature types, each listed once |
| Enums.FeatureTypeValuesDistinct | basin3d/core/schema/enum.py:60-72 | Feature type values are pairwise distinct and lookup inverts them; values equal names except the two path types, whose values hold a space |
| Enums.FeatureShapeTypesPartition | basin3d/core/schema/enum.py:75-83 | The shape table covers every shape without repeats and places each feature type under exactly one shape; SOLID is empty, POINT holds POINT, CURVE holds the two paths |
| Enums.QualityAndStatisticMembersComplete | basin3d/core/schema/enum.py:86-105 | Three result qualities and five statistics, every member listed, values distinct |
| Synthesis.SynthesizeIds | basin3d/core/synthesis.py:251-258 | A falsy id filter is kept as it is; a given one becomes a list, which for a dash-free prefix holds exactly the local ids whose broker ids were asked for |
| Synthesis.SynthesizeMonitoringFeatureQuery | basin3d/core/synthesis.py:237-260 | The monitoring feature query keeps its kind and its datasource filter |
| Synthesis.DatasourceVariables | basin3d/core/synthesis.py:327-330 | One plugin variable per mapping returned by `get_observed_properties`, in the same order |
| Synthesis.SynthesizeTimeseriesQuery | basin3d/core/synthesis.py:301-334 | The timeseries query always asks for DAY aggregation; statistic, result quality, dates and datasource pass through |
| Synthesis.SynthesizeQuery | basin3d/core/synthesis.py:122-124 | The model's synthesizer keeps the kind of query and its datasource filter; a timeseries query asks for DAY |
| Synthesis.PluginQuery | basin3d/core/synthesis.py:122-125 | The query a plugin's `list` receives is of the caller's kind and names exactly that plugin's data source |
| Synthesis.MonitoringFeatureQueryScoped | basin3d/core/synthesis.py:119-125 | The plugin's monitoring feature query names only its data source, and both feature filters hold exactly the local ids under its prefix; falsy filters are kept |
| Synthesis.TimeseriesQueryScoped | basin3d/core/synthesis.py:119-125 | The plugin's timeseries query names only its data source, uses DAY, carries the plugin's variable names in mapping order, and keeps statistic, quality and dates |
| Iteration.KnownNames | basin3d/core/synthesis.py:84-85 | Filtering names by the registry keeps no more names than given; a name is kept exactly when it was given and is registered |
| Iteration.KnownNamesAppend | basin3d/core/synthesis.py:84-85 | The filter keeps the order of the requested names |
| Iteration.SelectedNames | basin3d/core/synthesis.py:80-85 | A falsy datasource filter selects every plugin in registration order; a given one selects exactly the requested names that are registered |
| Iteration.SelectionEdgeCases | basin3d/core/synthesis.py:80-85 | A single registered name selects that plugin; only unknown names select nothing; an empty filter selects every plugin |
| Iteration.Open | basin3d/core/synthesis.py:115-129 | A plugin is skipped exactly when it has no view of the model or its view has no `list`; otherwise opening raises exactly when the plugin has no data source, and else the listing is what `list` returns for the plugin's query |
| Iteration.TakeObjectsIsTruthyHead | basin3d/core/synthesis.py:101-105 | What a plugin contributes is the objects of the leading items of its listing, in order, stopping only at a falsy item or the end |
| Iteration.TakeObjectsSplit | basin3d/core/synthesis.py:101-108 | A plugin's contribution is its leading run of truthy items, whatever point the iterator has reached inside that run |
| Iteration.FalsyEndsContribution | basin3d/core/synthesis.py:104-112 | A falsy item ends a plugin's contribution: later items of that plugin are never returned |
| Iteration.MergedFromContributions | basin3d/core/synthesis.py:92-131 | Every merged object was contributed by one of the visited plugins |
| Iteration.MergedAppend | basin3d/core/synthesis.py:92-131 | The merged output is order-preserving concatenation across plugins |
| Iteration.OutcomesWellFormed | basin3d/core/synthesis.py:92-134 | Before `StopIteration` the caller receives only items and failures, never `StopIteration` itself and never a credential failure |
| Iteration.ItemsOfOutcomes | basin3d/core/synthesis.py:92-134 | The objects among all results are exactly the merged output: raised failures carry no object |
| Iteration.OutcomesAppend | basin3d/core/synthesis.py:92-134 | The results of a run of plugins are those of its first part followed by those of the rest |
| Iteration.OutcomesPrefix | basin3d/core/synthesis.py:92-134 | The results of the first plugins are a prefix of all results |
| Iteration.PluginOutcomesOpened | basin3d/core/synthesis.py:101-108 | An opened plugin's results are the items already pulled, then the rest of its truthy run, then what its end raises |
| Iteration.PartialOutcomesArePrefix | basin3d/core/synthesis.py:92-134 | Earlier plugins' results followed by part of the current plugin's truthy run (and its end, once pulled) are a prefix of all results |
| Iteration.PluginOutcomesComplete | basin3d/core/synthesis.py:101-112 | When the current listing reaches a falsy item or its end, what was returned is exactly the results of the plugins visited |
| Iteration.FinishStep | basin3d/core/synthesis.py:101-112 | After the listing has ended, or at a falsy item, the returned results are all results of the plugins up to the current one |
| Iteration.YieldStep | basin3d/core/synthesis.py:101-105 | Pulling a truthy item returns exactly that item next |
| Iteration.EndStep | basin3d/core/synthesis.py:101-108 | A listing whose items were all truthy, pulled at its raising end, returns its failure unless that is a credential failure |
| Iteration.OpenStep | basin3d/core/synthesis.py:111-129 | A skipped plugin adds no results; a plugin whose opening raises adds exactly that failure |
| Iteration.DataSourceModelIterator.constructor | basin3d/core/synthesis.py:70-90 | The iterator starts before the first selected plugin, with nothing returned and the plugins chosen by the datasource filter |
| Iteration.DataSourceModelIterator.HistoryIsPrefix | basin3d/core/synthesis.py:92-134 | Whatever the iterator has returned so far is a prefix of all results |
| Iteration.DataSourceModelIterator.PullOpen | basin3d/core/synthesis.py:98-108 | One pull from the open listing: a truthy item is returned and recorded; a falsy item or the end of the listing finishes the plugin; the listing's failure is raised exactly when the listing ends in one and its items were all pulled, and it is recorded unless it is a credential failure |
| Iteration.DataSourceModelIterator.Advance | basin3d/core/synthesis.py:110-131 | Moves to the next plugin: past the last one it is `StopIteration`, with all results returned; otherwise it raises exactly when opening that plugin raises, and otherwise opens or skips it |
| Iteration.DataSourceModelIterator.Next | basin3d/core/synthesis.py:92-134 | `__next__` returns the next of all results (`Outcomes`), recording it, or `StopIteration` once all have been returned, on every later call; a yield sets `_next`; at `StopIteration` the objects returned are the merged output |
| ModelAccess.List | basin3d/core/synthesis.py:167-173 | `list` returns a fresh iterator at its start, with nothing returned, over the plugins chosen by the query's datasource filter |
| ModelAccess.Message | basin3d/core/synthesis.py:202-206 | `retrieve` composes a text for exactly its own three exceptions |
| ModelAccess.MessageInjective | basin3d/core/synthesis.py:202-206 | The three texts tell the errors and their ids apart |
| ModelAccess.Retrieve | basin3d/core/synthesis.py:175-207 | An empty id gives a response without data. An unregistered first token gives "Invalid id", a plugin without a data source "DataSource not not found", a plugin without a view "There is no detail", and a view without `get` the failure of the missing attribute (each exactly when its condition holds). Every success echoes the query |
| ModelAccess.RetrieveComposed | basin3d/core/synthesis.py:185-200 | Retrieving `prefix-local` calls the plugin's `get` with the local id and the plugin's own datasource |
| ModelAccess.RetrieveConsultsOnePlugin | basin3d/core/synthesis.py:185-200 | The result depends only on the plugin named by the id's first token |
| ModelAccess.RetrieveDashlessId | basin3d/core/synthesis.py:185-200 | An id without a dash is looked up as a whole and passed to `get` unchanged, scoped to that data source |
| Scenarios.ListingPlugin | tests/testplugins/alpha.py:131-190 | A stand-in plugin whose view of monitoring features always lists the given items and ending |
| Scenarios.TwoPlugins | basin3d/core/synthesis.py:80-85 | A two-plugin registry: without a filter both plugins are selected in order, and filtering by "B" selects only the second |
| Scenarios.MergedPair | basin3d/core/synthesis.py:92-131 | Two plugins merge to the first one's contribution followed by the second's |
| Scenarios.TwoPluginMerge | basin3d/core/synthesis.py:92-131 | Plugins A and B yield A-1, A-2, B-1, B-2; filtered to B they yield B-1, B-2 |
| Scenarios.TwoPluginMergeCutShort | basin3d/core/synthesis.py:101-134 | A credentials failure or a falsy item in A's listing ends A's contribution, and B's items still follow |
| Scenarios.TakeAllGiven | basin3d/core/synthesis.py:101-105 | A listing without a falsy item contributes all its objects |
| Scenarios.OutcomesPair | basin3d/core/synthesis.py:92-134 | Two plugins' results are the first one's followed by the second's |
| Scenarios.TwoPluginOutcomes | basin3d/core/synthesis.py:92-134 | A caller pulling from A then B sees A-1, A-2, B-1, B-2; if A's listing fails after A-1 with a failure other than a credential failure, the caller sees A-1, that failure, B-1, B-2; with a credential failure instead, A-1, B-1, B-2 |

## Left out

- Logging: the `logger.error` call on swallowed credential failures is not modelled.
- Laziness: a plugin's `list` result is modelled as a finite listing (its items and how it ends), not as a lazy generator. An infinite plugin generator is not represented.
- A failure raised while a plugin is opened, by the `list` call itself, by `get_plugin_access`, by the view's `get_observed_properties` during timeseries query synthesis (basin3d/core/synthesis.py:329) or by `get_datasource()` (basin3d/core/synthesis.py:125), is represented as a listing with no items that ends in that failure; the model's `get_observed_properties` and data source are total. Callers observe the same pulls either way.
- Iteration.Open: a plugin view without a data source raises a stand-in `AttributeMissing("id_prefix")`; the exact Python exception text is not modelled.
- ModelAccess.Retrieve: a `KeyError` raised inside a plugin's `get` is turned into "Invalid id" by the source's `except KeyError`. The model treats `get` as total, so it only captures a `KeyError` from the registry lookup. Other exceptions raised by `get` are not modelled.
- The `if query:` guards in both `synthesize_query` methods are always taken, because a query object is always truthy. A `None` query fails at `query.copy()` before the guard, and the model does not represent it.
- `DataSourceModelAccess.synthesis_model` and the base `synthesize_query` raise `NotImplementedError`. The model has only the two concrete access classes, selected by `SynthesisModel` and by the query variant.
- The `synthesis_response` property and `__iter__` are plumbing and are not modelled separately; the response wraps the query unchanged.
- Query fields that synthesis never reads or writes (for example the timeseries `fields` restriction) are not part of `Query`.
- Plugin registration and the catalog (`DataSourceModelAccess.__init__`'s `catalog`) are not part of this model. The registry is given as an ordered map.
- The code writes no synthesis messages, emits no WARN/ERROR diagnostics, has no NONE aggregation value and does not translate statistics.
- `SpatialSamplingShapes` lives in `basin3d/core/types.py`, which defines exactly four shapes (basin3d/core/types.py:19-36); all four are modelled, and that file is otherwise not part of this model.
- Identifiers.ExtractComposed: stated only for dash-free prefixes. With a dashed prefix, `extract_id` cuts at the first dash; `ExtractWithDashedPrefix` shows this.
- The data source a plugin view reports (`plugin_access.datasource`, basin3d/core/synthesis.py:250 and 317) is taken to be the plugin's own (`get_datasource()`, basin3d/core/synthesis.py:125 and 189): the model has one data source per plugin.
- ModelAccess.Message: the failure of a view without `get` is raised by the Python runtime with its own text, so the model gives it no text.
