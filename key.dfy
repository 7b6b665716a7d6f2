/** The `key` argument of the chart: which record fields are stacked. */
module Key {

  /** `key.metric`: an array of metric field names (one segment each in a
      stack), or a single metric field name. `key.dimension` only feeds the
      category axis, which is not part of this model. */
  datatype Metric = Names(names: seq<string>) | Name(name: string)

  /** The metric field names the key selects, in key order. */
  function MetricFields(metric: Metric): seq<string>
  {
    match metric
    case Names(names) => names
    case Name(name) => [name]
  }
}
