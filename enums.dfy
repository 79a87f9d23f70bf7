/**
 * The controlled vocabularies of the broker: time frequencies, feature
 * types, result qualities, statistics and spatial sampling shapes, with the
 * two lookup tables built on them.
 */
module Enums {
  import opened Wrappers

  /**
   * `BaseEnum.values()` / `BaseEnum.names()`: one string per member, in
   * declaration order.
   */
  function Values<E>(members: seq<E>, value: E -> string): (r: seq<string>)
    ensures |r| == |members|
    ensures forall i :: 0 <= i < |members| ==> r[i] == value(members[i])
  {
    if members == [] then [] else [value(members[0])] + Values(members[1..], value)
  }

  /** Every element of `xs` occurs once. */
  predicate Distinct<T(==)>(xs: seq<T>)
  {
    forall i, j :: 0 <= i < j < |xs| ==> xs[i] != xs[j]
  }

  // ---------------------------------------------------------------- time frequency

  /** `TimeFrequencyEnum`; there is no NONE member. */
  datatype TimeFrequency = YEAR | MONTH | DAY | HOUR | MINUTE | SECOND
  {
    function Name(): string
    {
      match this
      case YEAR => "YEAR"
      case MONTH => "MONTH"
      case DAY => "DAY"
      case HOUR => "HOUR"
      case MINUTE => "MINUTE"
      case SECOND => "SECOND"
    }

    function Value(): string
    {
      match this
      case YEAR => "YEAR"
      case MONTH => "MONTH"
      case DAY => "DAY"
      case HOUR => "HOUR"
      case MINUTE => "MINUTE"
      case SECOND => "SECOND"
    }
  }

  /** The members of `TimeFrequencyEnum` in declaration order. */
  const TimeFrequencyMembers: seq<TimeFrequency> := [YEAR, MONTH, DAY, HOUR, MINUTE, SECOND]

  /** `TimeFrequencyEnum` value lookup: the member with the given value, if any. */
  function TimeFrequencyOf(value: string): (r: Option<TimeFrequency>)
    ensures r.Some? ==> r.value.Value() == value
  {
    if value == "YEAR" then Some(YEAR)
    else if value == "MONTH" then Some(MONTH)
    else if value == "DAY" then Some(DAY)
    else if value == "HOUR" then Some(HOUR)
    else if value == "MINUTE" then Some(MINUTE)
    else if value == "SECOND" then Some(SECOND)
    else None
  }

  /** Six members, each listed once, each with its name as value; value lookup inverts `Value`. */
  lemma TimeFrequencyMembersComplete()
    ensures |TimeFrequencyMembers| == 6 && Distinct(TimeFrequencyMembers)
    ensures forall f: TimeFrequency :: f in TimeFrequencyMembers
    ensures Values(TimeFrequencyMembers, (f: TimeFrequency) => f.Value())
         == Values(TimeFrequencyMembers, (f: TimeFrequency) => f.Name())
         == ["YEAR", "MONTH", "DAY", "HOUR", "MINUTE", "SECOND"]
  {
    forall f: TimeFrequency ensures f in TimeFrequencyMembers {
      match f
      case YEAR =>
      case MONTH =>
      case DAY =>
      case HOUR =>
      case MINUTE =>
      case SECOND =>
    }
  }

  /** Each value equals its member's name, and lookup by value inverts `Value`. */
  lemma TimeFrequencyLookupInverts()
    ensures forall f: TimeFrequency :: f.Value() == f.Name()
    ensures forall f: TimeFrequency :: TimeFrequencyOf(f.Value()) == Some(f)
  {
    forall f: TimeFrequency ensures f.Value() == f.Name() && TimeFrequencyOf(f.Value()) == Some(f) {
      match f
      case YEAR =>
      case MONTH =>
      case DAY =>
      case HOUR =>
      case MINUTE =>
      case SECOND =>
    }
  }

  /** The pandas offset aliases of the time frequencies, keyed by member name. */
  const PandasTimeFrequencyMap: map<string, string> :=
    map["YEAR" := "A", "MONTH" := "M", "DAY" := "D", "HOUR" := "H", "MINUTE" := "T", "SECOND" := "S"]

  /** The alias table is defined on exactly the six member names and maps them to distinct aliases. */
  lemma PandasTimeFrequencyMapInjective()
    ensures forall k :: k in PandasTimeFrequencyMap <==> exists f: TimeFrequency :: f.Name() == k
    ensures forall a, b :: a in PandasTimeFrequencyMap && b in PandasTimeFrequencyMap && a != b
              ==> PandasTimeFrequencyMap[a] != PandasTimeFrequencyMap[b]
  {
    forall k | k in PandasTimeFrequencyMap ensures exists f: TimeFrequency :: f.Name() == k {
      var f := TimeFrequencyOf(k).value;
      assert f.Name() == k;
    }
    forall k, f: TimeFrequency | f.Name() == k ensures k in PandasTimeFrequencyMap {
      match f
      case YEAR =>
      case MONTH =>
      case DAY =>
      case HOUR =>
      case MINUTE =>
      case SECOND =>
    }
  }

  // ---------------------------------------------------------------- feature type

  /** `FeatureTypeEnum` */
  datatype FeatureType =
    | REGION | SUBREGION | BASIN | SUBBASIN | WATERSHED | SUBWATERSHED | SITE | PLOT
    | HORIZONTAL_PATH | VERTICAL_PATH | POINT
  {
    function Name(): string
    {
      match this
      case REGION => "REGION"
      case SUBREGION => "SUBREGION"
      case BASIN => "BASIN"
      case SUBBASIN => "SUBBASIN"
      case WATERSHED => "WATERSHED"
      case SUBWATERSHED => "SUBWATERSHED"
      case SITE => "SITE"
      case PLOT => "PLOT"
      case HORIZONTAL_PATH => "HORIZONTAL_PATH"
      case VERTICAL_PATH => "VERTICAL_PATH"
      case POINT => "POINT"
    }

    function Value(): string
    {
      match this
      case REGION => "REGION"
      case SUBREGION => "SUBREGION"
      case BASIN => "BASIN"
      case SUBBASIN => "SUBBASIN"
      case WATERSHED => "WATERSHED"
      case SUBWATERSHED => "SUBWATERSHED"
      case SITE => "SITE"
      case PLOT => "PLOT"
      case HORIZONTAL_PATH => "HORIZONTAL PATH"
      case VERTICAL_PATH => "VERTICAL PATH"
      case POINT => "POINT"
    }
  }

  /** The members of `FeatureTypeEnum` in declaration order. */
  const FeatureTypeMembers: seq<FeatureType> :=
    [REGION, SUBREGION, BASIN, SUBBASIN, WATERSHED, SUBWATERSHED, SITE, PLOT, HORIZONTAL_PATH, VERTICAL_PATH, POINT]

  /** `FeatureTypeEnum` value lookup. */
  function FeatureTypeOf(value: string): (r: Option<FeatureType>)
    ensures r.Some? ==> r.value.Value() == value
  {
    if value == "REGION" then Some(REGION)
    else if value == "SUBREGION" then Some(SUBREGION)
    else if value == "BASIN" then Some(BASIN)
    else if value == "SUBBASIN" then Some(SUBBASIN)
    else if value == "WATERSHED" then Some(WATERSHED)
    else if value == "SUBWATERSHED" then Some(SUBWATERSHED)
    else if value == "SITE" then Some(SITE)
    else if value == "PLOT" then Some(PLOT)
    else if value == "HORIZONTAL PATH" then Some(HORIZONTAL_PATH)
    else if value == "VERTICAL PATH" then Some(VERTICAL_PATH)
    else if value == "POINT" then Some(POINT)
    else None
  }

  /** Eleven members, each listed once. */
  lemma FeatureTypeMembersComplete()
    ensures |FeatureTypeMembers| == 11 && Distinct(FeatureTypeMembers)
    ensures forall f: FeatureType :: f in FeatureTypeMembers
  {
    forall f: FeatureType ensures f in FeatureTypeMembers {
      match f
      case REGION =>
      case SUBREGION =>
      case BASIN =>
      case SUBBASIN =>
      case WATERSHED =>
      case SUBWATERSHED =>
      case SITE =>
      case PLOT =>
      case HORIZONTAL_PATH =>
      case VERTICAL_PATH =>
      case POINT =>
    }
  }

  /**
   * Values are pairwise distinct (value lookup inverts `Value`) and equal
   * the names except for the two path types, whose values hold a space.
   */
  lemma FeatureTypeValuesDistinct()
    ensures forall f: FeatureType :: FeatureTypeOf(f.Value()) == Some(f)
    ensures forall f: FeatureType, g: FeatureType :: f.Value() == g.Value() ==> f == g
    ensures forall f: FeatureType :: f.Value() == f.Name() <==> f != HORIZONTAL_PATH && f != VERTICAL_PATH
  {
    forall f: FeatureType
      ensures FeatureTypeOf(f.Value()) == Some(f)
      ensures f.Value() == f.Name() <==> f != HORIZONTAL_PATH && f != VERTICAL_PATH
    {
      match f
      case REGION =>
      case SUBREGION =>
      case BASIN =>
      case SUBBASIN =>
      case WATERSHED =>
      case SUBWATERSHED =>
      case SITE =>
      case PLOT =>
      case HORIZONTAL_PATH =>
      case VERTICAL_PATH =>
      case POINT =>
    }
    forall f: FeatureType, g: FeatureType | f.Value() == g.Value() ensures f == g {
      assert Some(f) == FeatureTypeOf(f.Value()) == FeatureTypeOf(g.Value()) == Some(g);
    }
  }

  // ---------------------------------------------------------------- spatial sampling shapes

  /** `SpatialSamplingShapes` */
  datatype SpatialSamplingShape = SHAPE_SOLID | SHAPE_SURFACE | SHAPE_CURVE | SHAPE_POINT
  {
    function Value(): string
    {
      match this
      case SHAPE_SOLID => "SOLID"
      case SHAPE_SURFACE => "SURFACE"
      case SHAPE_CURVE => "CURVE"
      case SHAPE_POINT => "POINT"
    }
  }

  /** The feature types of each shape. */
  const FeatureShapeTypes: map<SpatialSamplingShape, seq<FeatureType>> := map[
    SHAPE_POINT := [POINT],
    SHAPE_CURVE := [HORIZONTAL_PATH, VERTICAL_PATH],
    SHAPE_SURFACE := [REGION, SUBREGION, BASIN, SUBBASIN, WATERSHED, SUBWATERSHED, SITE, PLOT],
    SHAPE_SOLID := []
  ]

  /** The shape of a feature type, stated case by case. */
  function ShapeOf(f: FeatureType): SpatialSamplingShape
  {
    match f
    case POINT => SHAPE_POINT
    case HORIZONTAL_PATH | VERTICAL_PATH => SHAPE_CURVE
    case REGION | SUBREGION | BASIN | SUBBASIN | WATERSHED | SUBWATERSHED | SITE | PLOT => SHAPE_SURFACE
  }

  /**
   * The shape table partitions the feature types: it has every shape as a
   * key, lists each feature type under exactly one shape, and never twice.
   */
  lemma FeatureShapeTypesPartition()
    ensures forall s: SpatialSamplingShape :: s in FeatureShapeTypes && Distinct(FeatureShapeTypes[s])
    ensures forall s: SpatialSamplingShape, f: FeatureType :: f in FeatureShapeTypes[s] <==> ShapeOf(f) == s
    ensures FeatureShapeTypes[SHAPE_SOLID] == []
    ensures FeatureShapeTypes[SHAPE_POINT] == [POINT]
    ensures FeatureShapeTypes[SHAPE_CURVE] == [HORIZONTAL_PATH, VERTICAL_PATH]
  {
    forall s: SpatialSamplingShape ensures s in FeatureShapeTypes && Distinct(FeatureShapeTypes[s]) {
      match s
      case SHAPE_SOLID =>
      case SHAPE_SURFACE =>
        var surface := FeatureShapeTypes[SHAPE_SURFACE];
        assert forall i, j :: 0 <= i < j < |surface| ==> surface[i].Value() != surface[j].Value();
      case SHAPE_CURVE =>
      case SHAPE_POINT =>
    }
    forall s: SpatialSamplingShape, f: FeatureType
      ensures f in FeatureShapeTypes[s] <==> ShapeOf(f) == s
    {
      match s
      case SHAPE_SOLID =>
      case SHAPE_SURFACE =>
      case SHAPE_CURVE =>
      case SHAPE_POINT =>
    }
  }

  // ---------------------------------------------------------------- result quality and statistic

  /** `ResultQualityEnum` */
  datatype ResultQuality = CHECKED | UNCHECKED | PARTIALLY_CHECKED
  {
    function Value(): string
    {
      match this
      case CHECKED => "CHECKED"
      case UNCHECKED => "UNCHECKED"
      case PARTIALLY_CHECKED => "PARTIALLY_CHECKED"
    }
  }

  const ResultQualityMembers: seq<ResultQuality> := [CHECKED, UNCHECKED, PARTIALLY_CHECKED]

  /** `StatisticEnum` */
  datatype Statistic = INSTANT | MEAN | MIN | MAX | TOTAL
  {
    function Value(): string
    {
      match this
      case INSTANT => "INSTANT"
      case MEAN => "MEAN"
      case MIN => "MIN"
      case MAX => "MAX"
      case TOTAL => "TOTAL"
    }
  }

  const StatisticMembers: seq<Statistic> := [INSTANT, MEAN, MIN, MAX, TOTAL]

  /** Three result qualities and five statistics, every member listed once with a distinct value. */
  lemma QualityAndStatisticMembersComplete()
    ensures |ResultQualityMembers| == 3 && Distinct(Values(ResultQualityMembers, (q: ResultQuality) => q.Value()))
    ensures forall q: ResultQuality :: q in ResultQualityMembers
    ensures |StatisticMembers| == 5 && Distinct(Values(StatisticMembers, (s: Statistic) => s.Value()))
    ensures forall s: Statistic :: s in StatisticMembers
  {
    forall q: ResultQuality ensures q in ResultQualityMembers {
      match q
      case CHECKED =>
      case UNCHECKED =>
      case PARTIALLY_CHECKED =>
    }
    forall s: Statistic ensures s in StatisticMembers {
      match s
      case INSTANT =>
      case MEAN =>
      case MIN =>
      case MAX =>
      case TOTAL =>
    }
  }
}
