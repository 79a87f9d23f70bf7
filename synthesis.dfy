/**
 * Query synthesis: the translation of the caller's query into the query one
 * plugin receives (`synthesize_query` of the two model accesses).
 */
module Synthesis {
  import opened Wrappers
  import opened Enums
  import opened Identifiers
  import opened Queries
  import opened Plugins

  /** The ids of a rewritten id filter. */
  function Ids(v: Option<IdValues>): seq<string>
  {
    match v
    case Some(Listed(ids)) => ids
    case _ => []
  }

  /** A given id filter becomes the list of the local ids under `prefix`; an absent or empty one is kept. */
  function SynthesizeIds(v: Option<IdValues>, prefix: string): (r: Option<IdValues>)
    ensures !IdsGiven(v) ==> r == v
    ensures IdsGiven(v) ==> r.Some? && r.value.Listed?
    ensures IdsGiven(v) && Dash !in prefix ==>
      forall y :: y in Ids(r) <==> Compose(prefix, y) in Entries(v.value)
  {
    if IdsGiven(v) then Some(Listed(SynthesizeIdentifiers(v.value, prefix))) else v
  }

  /** `MonitoringFeatureAccess.synthesize_query` */
  function SynthesizeMonitoringFeatureQuery(ds: DataSource, q: Query): (r: Query)
    requires q.MonitoringFeatureQuery?
    ensures r.MonitoringFeatureQuery? && r.datasource == q.datasource
  {
    q.(monitoringFeatures := SynthesizeIds(q.monitoringFeatures, ds.idPrefix),
       parentFeatures := SynthesizeIds(q.parentFeatures, ds.idPrefix))
  }

  /** `[o.datasource_variable for o in mappings]` */
  function DatasourceVariables(mappings: seq<ObservedPropertyMapping>): (r: seq<string>)
    ensures |r| == |mappings|
    ensures forall i :: 0 <= i < |r| ==> r[i] == mappings[i].datasourceVariable
  {
    if mappings == [] then [] else [mappings[0].datasourceVariable] + DatasourceVariables(mappings[1..])
  }

  /** `MeasurementTimeseriesTVPObservationAccess.synthesize_query` */
  function SynthesizeTimeseriesQuery(ds: DataSource, view: View, q: Query): (r: Query)
    requires q.TimeseriesQuery?
    ensures r.TimeseriesQuery?
    ensures r.aggregationDuration == Some(DAY)
    ensures r.statistic == q.statistic && r.resultQuality == q.resultQuality
    ensures r.startDate == q.startDate && r.endDate == q.endDate && r.datasource == q.datasource
  {
    var opv := q.observedPropertyVariables;
    q.(monitoringFeatures := SynthesizeIds(q.monitoringFeatures, ds.idPrefix),
       observedPropertyVariables :=
         if Given(opv) then Some(DatasourceVariables(view.observedProperties(opv.value))) else opv,
       aggregationDuration := Some(DAY))
  }

  /** The synthesizer of the query's model. */
  function SynthesizeQuery(ds: DataSource, view: View, q: Query): (r: Query)
    ensures r.MonitoringFeatureQuery? <==> q.MonitoringFeatureQuery?
    ensures r.datasource == q.datasource
    ensures r.TimeseriesQuery? ==> r.aggregationDuration == Some(DAY)
  {
    match q
    case MonitoringFeatureQuery(_, _, _) => SynthesizeMonitoringFeatureQuery(ds, q)
    case TimeseriesQuery(_, _, _, _, _, _, _, _) => SynthesizeTimeseriesQuery(ds, view, q)
  }

  /**
   * The query a plugin's `list` receives: the synthesized query with its
   * data source filter set to exactly that plugin's data source id.
   */
  function PluginQuery(ds: DataSource, view: View, q: Query): (r: Query)
    ensures r.MonitoringFeatureQuery? <==> q.MonitoringFeatureQuery?
    ensures r.datasource == Some([ds.id])
  {
    SynthesizeQuery(ds, view, q).(datasource := Some([ds.id]))
  }

  /**
   * A monitoring-feature plugin query is scoped to the plugin: it names only
   * that data source, its feature filters hold exactly the local ids of the
   * caller's ids under the plugin's (dash-free) prefix, and absent or empty
   * filters stay as the caller gave them.
   */
  lemma MonitoringFeatureQueryScoped(ds: DataSource, view: View, q: Query)
    requires q.MonitoringFeatureQuery?
    requires Dash !in ds.idPrefix
    ensures var r := PluginQuery(ds, view, q);
      && r.MonitoringFeatureQuery?
      && r.datasource == Some([ds.id])
      && (IdsGiven(q.monitoringFeatures) ==>
            forall y :: y in Ids(r.monitoringFeatures) <==> Compose(ds.idPrefix, y) in Entries(q.monitoringFeatures.value))
      && (IdsGiven(q.parentFeatures) ==>
            forall y :: y in Ids(r.parentFeatures) <==> Compose(ds.idPrefix, y) in Entries(q.parentFeatures.value))
      && (!IdsGiven(q.monitoringFeatures) ==> r.monitoringFeatures == q.monitoringFeatures)
      && (!IdsGiven(q.parentFeatures) ==> r.parentFeatures == q.parentFeatures)
  {
  }

  /**
   * A timeseries plugin query names only the plugin's data source, always
   * asks for DAY aggregation, carries the plugin's own variable names in the
   * order the plugin's mapping returned them, and passes statistic, result
   * quality and dates through untouched.
   */
  lemma TimeseriesQueryScoped(ds: DataSource, view: View, q: Query)
    requires q.TimeseriesQuery?
    requires Dash !in ds.idPrefix
    ensures var r := PluginQuery(ds, view, q);
      && r.TimeseriesQuery?
      && r.datasource == Some([ds.id])
      && r.aggregationDuration == Some(DAY)
      && r.statistic == q.statistic && r.resultQuality == q.resultQuality
      && r.startDate == q.startDate && r.endDate == q.endDate
      && (IdsGiven(q.monitoringFeatures) ==>
            forall y :: y in Ids(r.monitoringFeatures) <==> Compose(ds.idPrefix, y) in Entries(q.monitoringFeatures.value))
      && (Given(q.observedPropertyVariables) ==>
            var ms := view.observedProperties(q.observedPropertyVariables.value);
            r.observedPropertyVariables.Some? && |r.observedPropertyVariables.value| == |ms|
            && forall i :: 0 <= i < |ms| ==> r.observedPropertyVariables.value[i] == ms[i].datasourceVariable)
      && (!Given(q.observedPropertyVariables) ==> r.observedPropertyVariables == q.observedPropertyVariables)
  {
  }
}
