/**
 * The broker's query records. A query is a value: "copying" it and
 * assigning fields on the copy is a record update that leaves the caller's
 * query as it was.
 */
module Queries {
  import opened Wrappers
  import opened Enums
  import opened Identifiers

  /** A lookup of one object by its broker id. */
  datatype QueryById = QueryById(id: string, datasource: Option<seq<string>>)

  /** The list queries of the two synthesized models. */
  datatype Query =
    | MonitoringFeatureQuery(
        monitoringFeatures: Option<IdValues>,
        parentFeatures: Option<IdValues>,
        datasource: Option<seq<string>>)
    | TimeseriesQuery(
        monitoringFeatures: Option<IdValues>,
        observedPropertyVariables: Option<seq<string>>,
        startDate: string,
        endDate: Option<string>,
        aggregationDuration: Option<TimeFrequency>,
        statistic: Option<seq<Statistic>>,
        resultQuality: Option<ResultQuality>,
        datasource: Option<seq<string>>)

  /** Python truthiness of an optional id filter: present and not empty. */
  predicate IdsGiven(v: Option<IdValues>)
  {
    match v
    case None => false
    case Some(Joined(text)) => text != ""
    case Some(Listed(ids)) => ids != []
  }

  /** Python truthiness of an optional list: present and not empty. */
  predicate Given<T>(v: Option<seq<T>>)
  {
    v.Some? && v.value != []
  }
}
