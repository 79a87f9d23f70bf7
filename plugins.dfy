/**
 * The data source plugins as the synthesis engine sees them. Plugin code is
 * not part of this model: each capability is a function-valued field, so
 * what a plugin returns is left arbitrary.
 */
module Plugins {
  import opened Wrappers
  import opened Queries

  /** The synthesized models, which key a plugin's views. */
  datatype SynthesisModel = MonitoringFeature | MeasurementTimeseriesTVPObservation

  /** A domain object produced by a plugin; only its broker id is modelled. */
  datatype DomainObject = DomainObject(id: string)

  /** What a plugin call can raise. */
  datatype Failure =
    | InvalidOrMissingCredentials
    | AttributeMissing(name: string)
    | PluginError(message: string)

  /** How the sequence returned by a plugin's `list` ends. */
  datatype ListEnd = Exhausted | Raising(failure: Failure)

  /**
   * The sequence a plugin's `list` produces: its items in order (`None` for a
   * falsy item) and how it ends. A failure raised by the `list` call itself is
   * a listing with no items that ends in that failure.
   */
  datatype Listing = Listing(items: seq<Option<DomainObject>>, end: ListEnd)

  /** One entry returned by `get_observed_properties`. */
  datatype ObservedPropertyMapping = ObservedPropertyMapping(basin3dVariable: string, datasourceVariable: string)

  /** A plugin's view of one synthesized model; `list` and `get` may be missing. */
  datatype View = View(
    list: Option<Query -> Listing>,
    get: Option<QueryById -> Option<DomainObject>>,
    observedProperties: seq<string> -> seq<ObservedPropertyMapping>)

  /** The data source record of a plugin. */
  datatype DataSource = DataSource(id: string, idPrefix: string)

  /** A registered plugin: its data source (possibly missing) and its views by model. */
  datatype Plugin = Plugin(datasource: Option<DataSource>, views: map<SynthesisModel, View>)

  /** The registered plugins, keyed by id prefix, in registration order. */
  datatype Registry = Registry(order: seq<string>, table: map<string, Plugin>)
  {
    /** A Python dict: `order` lists each key of `table` once. */
    ghost predicate Valid()
    {
      && (forall k :: k in order <==> k in table)
      && (forall i, j :: 0 <= i < j < |order| ==> order[i] != order[j])
    }
  }
}
