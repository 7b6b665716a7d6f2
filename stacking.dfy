/** The stacking callback of the bar chart: one stack (one category) becomes
    the list of segments drawn as rectangles, one above the other. */
module Stacking {
  import opened Numbers
  import opened Key

  /** One rectangle of a stack: metric name `x`, drawn from value `y0` up to
      value `y1`. */
  datatype Segment = Segment(x: string, y0: real, y1: real)

  /** `d.values.metric` for one stack: one value per metric when the key
      names an array of metrics, or the single metric's value. */
  datatype MetricValues = Many(values: seq<real>) | One(value: real)

  /** The values have the shape the callback reads: a value for every metric
      it indexes, or a single number for a single metric. */
  predicate Fits(metric: Metric, vals: MetricValues)
  {
    match metric
    case Names(keys) => vals.Many? && |keys| <= |vals.values|
    case Name(_) => vals.One?
  }

  /** Every value the callback reads is non-negative. */
  predicate NonNegativeValues(metric: Metric, vals: MetricValues)
    requires Fits(metric, vals)
  {
    match metric
    case Names(keys) => NonNegative(vals.values[..|keys|])
    case Name(_) => 0.0 <= vals.value
  }

  /** Reference definition of an array-metric stack: segment `i` is metric
      `keys[i]`, from the sum of the values before it to the sum through it. */
  function Segments(keys: seq<string>, values: seq<real>): (r: seq<Segment>)
    requires |keys| <= |values|
    ensures |r| == |keys|
  {
    seq(|keys|, i requires 0 <= i < |keys| =>
      Segment(keys[i], Sum(values[..i]), Sum(values[..i + 1])))
  }

  /** The segments of one stack, for either shape of metric. */
  function Stacked(metric: Metric, vals: MetricValues): (r: seq<Segment>)
    requires Fits(metric, vals)
  {
    match metric
    case Names(keys) => Segments(keys, vals.values)
    case Name(name) => [Segment(name, 0.0, vals.value)]
  }

  /** The height a stack reaches: the sum of the metric values it stacks. */
  function StackTotal(metric: Metric, vals: MetricValues): real
    requires Fits(metric, vals)
  {
    match metric
    case Names(keys) => Sum(vals.values[..|keys|])
    case Name(_) => vals.value
  }

  /** The callback itself: a running sum over the metric array pushes one
      segment per metric; a single metric gives the one segment [0, value]. */
  method StackRecord(metric: Metric, vals: MetricValues) returns (arr: seq<Segment>)
    requires Fits(metric, vals)
    ensures arr == Stacked(metric, vals)
  {
    if metric.Names? {
      var keys, values := metric.names, vals.values;
      arr := [];
      var sum := 0.0;
      for i := 0 to |keys|
        invariant sum == Sum(values[..i])
        invariant arr == Segments(keys[..i], values)
      {
        PrefixSumStep(values, i);
        var segment := Segment(keys[i], sum, sum + values[i]);
        assert arr + [segment] == Segments(keys[..i + 1], values);
        arr := arr + [segment];
        sum := sum + values[i];
      }
      assert keys[..|keys|] == keys;
    } else {
      arr := [Segment(metric.name, 0.0, vals.value)];
    }
  }

  /** With an array of metrics the stack has one segment per metric, in key
      order and named by it; each segment is exactly as tall as its metric's
      value; the first starts at zero and each later one starts where the
      previous one ends. */
  lemma {:induction false} ArrayStackIsContiguous(keys: seq<string>, values: seq<real>)
    requires |keys| <= |values|
    ensures var r := Stacked(Names(keys), Many(values));
      |r| == |keys|
      && (forall i :: 0 <= i < |r| ==> r[i].x == keys[i] && r[i].y1 - r[i].y0 == values[i])
      && (|r| > 0 ==> r[0].y0 == 0.0)
      && (forall i :: 0 < i < |r| ==> r[i].y0 == r[i - 1].y1)
  {
    forall i | 0 <= i < |keys|
      ensures Segments(keys, values)[i].y1 - Segments(keys, values)[i].y0 == values[i]
    {
      PrefixSumStep(values, i);
    }
    assert values[..0] == [];
  }

  /** Whatever the metric shape, a stack starts at zero and its last segment
      ends at the stack total; a single metric gives exactly one segment. */
  lemma StackReachesTotal(metric: Metric, vals: MetricValues)
    requires Fits(metric, vals)
    ensures var r := Stacked(metric, vals);
      (metric.Name? ==> r == [Segment(metric.name, 0.0, vals.value)])
      && (|r| > 0 ==> r[0].y0 == 0.0 && r[|r| - 1].y1 == StackTotal(metric, vals))
  {
  }

  /** With non-negative values every segment is upright (y0 <= y1) and lies
      between zero and the stack total. */
  lemma {:induction false} StackWithinTotal(metric: Metric, vals: MetricValues)
    requires Fits(metric, vals)
    requires NonNegativeValues(metric, vals)
    ensures forall s :: s in Stacked(metric, vals) ==>
      0.0 <= s.y0 <= s.y1 <= StackTotal(metric, vals)
  {
    if metric.Names? {
      var keys, values := metric.names, vals.values;
      var prefix := values[..|keys|];
      forall s | s in Stacked(metric, vals)
        ensures 0.0 <= s.y0 <= s.y1 <= StackTotal(metric, vals)
      {
        var i :| 0 <= i < |keys| && Segments(keys, values)[i] == s;
        assert prefix[..i] == values[..i];
        assert prefix[..i + 1] == values[..i + 1];
        assert prefix[..|keys|] == prefix;
        PrefixSumMonotone(prefix, i, i + 1);
        PrefixSumMonotone(prefix, i + 1, |keys|);
      }
    }
  }
}
