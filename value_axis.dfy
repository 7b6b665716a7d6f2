/** The value (Y) axis: the extent callback that totals one record's metric
    fields, and the axis domain built from the extent's upper value. */
module ValueAxis {
  import opened Numbers
  import opened Key
  import opened Stacking

  /** One input record, `d[0]` in the extent callback (the first element of
      what the extent passes in): field name to numeric value. A field the
      record does not have reads as `undefined`. */
  type Record = map<string, real>

  /** `record[name]`: the value, or NaN once `undefined` takes part in a sum. */
  function Field(record: Record, name: string): (r: Num)
    ensures r.Real? <==> name in record
    ensures r.Real? ==> r.value == record[name]
  {
    if name in record then Real(record[name]) else NaN
  }

  /** The value a running sum from 0 over `fields` ends with. */
  function Total(record: Record, fields: seq<string>): Num
  {
    if |fields| == 0 then Real(0.0)
    else Plus(Total(record, fields[..|fields| - 1]), Field(record, fields[|fields| - 1]))
  }

  /** The record's values for `fields`, in order (defined when it has them all). */
  function FieldValues(record: Record, fields: seq<string>): (r: seq<real>)
    requires forall i :: 0 <= i < |fields| ==> fields[i] in record
    ensures |r| == |fields|
    ensures forall i :: 0 <= i < |fields| ==> r[i] == record[fields[i]]
  {
    seq(|fields|, i requires 0 <= i < |fields| => record[fields[i]])
  }

  /** The loop of the extent callback: `sum += d[0][field]` for each field. */
  method SumFields(record: Record, fields: seq<string>) returns (sum: Num)
    ensures sum == Total(record, fields)
  {
    sum := Real(0.0);
    for i := 0 to |fields|
      invariant sum == Total(record, fields[..i])
    {
      assert fields[..i + 1][..i] == fields[..i];
      sum := Plus(sum, Field(record, fields[i]));
    }
    assert fields[..|fields|] == fields;
  }

  /** The running sum is a number exactly when the record has every field,
      and it is then the sum of those fields' values. */
  lemma {:induction false} TotalIsSum(record: Record, fields: seq<string>)
    ensures Total(record, fields).Real? <==> forall i :: 0 <= i < |fields| ==> fields[i] in record
    ensures Total(record, fields).Real? ==>
      Total(record, fields).value == Sum(FieldValues(record, fields))
  {
    if |fields| > 0 {
      var init := fields[..|fields| - 1];
      TotalIsSum(record, init);
      if forall i :: 0 <= i < |fields| ==> fields[i] in record {
        assert FieldValues(record, fields)[..|fields| - 1] == FieldValues(record, init);
      }
    }
  }

  /** The fields the extent callback visits AS WRITTEN: `key.metric[i]` for
      `i < key.metric.length`. For an array of names these are the names; for
      a single name (a string) they are its one-character substrings. */
  function VisitedFieldsAsWritten(metric: Metric): (r: seq<string>)
    ensures metric.Names? ==> r == metric.names
    ensures metric.Name? ==>
      |r| == |metric.name| && forall i :: 0 <= i < |r| ==> r[i] == [metric.name[i]]
  {
    match metric
    case Names(names) => names
    case Name(name) => seq(|name|, i requires 0 <= i < |name| => [name[i]])
  }

  /** A single metric named "sales" on a record holding just that field: the
      callback as written sums the fields "s", "a", "l", "e", "s", none of which
      exist, and yields NaN; summing the metric's own field yields its value. */
  lemma SingleMetricExtentIsNaN()
    ensures Total(map["sales" := 5.0], VisitedFieldsAsWritten(Name("sales"))) == NaN
    ensures Total(map["sales" := 5.0], MetricFields(Name("sales"))) == Real(5.0)
  {
  }

  /** The stacking callback's values for a record: its metric fields. */
  function StackValues(record: Record, metric: Metric): (r: MetricValues)
    requires forall f :: f in MetricFields(metric) ==> f in record
    ensures Fits(metric, r)
  {
    match metric
    case Names(names) => Many(FieldValues(record, names))
    case Name(name) => One(record[name])
  }

  /** Corrected extent callback (summing `MetricFields`): for a record that
      has every metric field, the extent value is the total its stack reaches,
      for an array of metrics and for a single metric alike. */
  lemma ExtentIsStackTotal(record: Record, metric: Metric)
    requires forall f :: f in MetricFields(metric) ==> f in record
    ensures Total(record, MetricFields(metric)) == Real(StackTotal(metric, StackValues(record, metric)))
  {
    var fields := MetricFields(metric);
    TotalIsSum(record, fields);
    assert FieldValues(record, fields)[..|fields|] == FieldValues(record, fields);
    if metric.Name? {
      assert FieldValues(record, fields) == [record[metric.name]];
      assert [record[metric.name]][..0] == [];
    }
  }

  /** The value-axis domain `[lo, hi]`; `hi` is NaN when the extent is. */
  datatype Domain = Domain(lo: real, hi: Num)

  /** `[0, yRange[1] * 1.1]`: zero up to the extent's upper value with 10%
      headroom. An `undefined` upper value (no numeric total) gives NaN. */
  function YDomain(upper: Num): (d: Domain)
    ensures d.lo == 0.0
    ensures d.hi.Real? <==> upper.Real?
    ensures upper.Real? ==> d.hi == Real(upper.value * 1.1)
  {
    match upper
    case Real(v) => Domain(0.0, Real(v * 1.1))
    case NaN => Domain(0.0, NaN)
  }

  /** When the extent's upper value bounds every stack total and the values
      are non-negative, every segment of every stack lies inside the domain,
      and the domain's top sits 10% above that upper value. */
  lemma {:induction false} StacksFitDomain(metric: Metric, stacks: seq<MetricValues>, upper: real)
    requires forall k :: 0 <= k < |stacks| ==> Fits(metric, stacks[k])
    requires forall k :: 0 <= k < |stacks| ==> NonNegativeValues(metric, stacks[k])
    requires forall k :: 0 <= k < |stacks| ==> StackTotal(metric, stacks[k]) <= upper
    ensures YDomain(Real(upper)).hi == Real(upper * 1.1)
    ensures 0.0 <= upper ==> upper <= YDomain(Real(upper)).hi.value
    ensures forall k, s :: 0 <= k < |stacks| && s in Stacked(metric, stacks[k]) ==>
      YDomain(Real(upper)).lo <= s.y0 <= s.y1 <= YDomain(Real(upper)).hi.value
  {
    forall k, s | 0 <= k < |stacks| && s in Stacked(metric, stacks[k])
      ensures 0.0 <= s.y0 <= s.y1 <= upper * 1.1
    {
      StackWithinTotal(metric, stacks[k]);
    }
  }

  /** From records to the axis: when the upper extent bounds the corrected
      extent value of every record, and every record holds all metric fields
      with non-negative values, each segment stacked from any record lies
      inside the value-axis domain. */
  lemma {:induction false} RecordsFitDomain(metric: Metric, records: seq<Record>, upper: real)
    requires forall k, f :: 0 <= k < |records| && f in MetricFields(metric) ==> f in records[k] && 0.0 <= records[k][f]
    requires forall k :: 0 <= k < |records| ==>
      Total(records[k], MetricFields(metric)).Real? && Total(records[k], MetricFields(metric)).value <= upper
    ensures forall k, s :: 0 <= k < |records| && s in Stacked(metric, StackValues(records[k], metric)) ==>
      0.0 <= s.y0 <= s.y1 <= YDomain(Real(upper)).hi.value
  {
    var stacks := seq(|records|, k requires 0 <= k < |records| => StackValues(records[k], metric));
    forall k | 0 <= k < |records|
      ensures StackTotal(metric, stacks[k]) <= upper
      ensures NonNegativeValues(metric, stacks[k])
    {
      ExtentIsStackTotal(records[k], metric);
      assert stacks[k] == StackValues(records[k], metric);
      var fields := MetricFields(metric);
      match metric
      case Name(name) =>
        assert fields[0] == name && fields[0] in fields;
      case Names(names) =>
        var values := FieldValues(records[k], names);
        assert values[..|names|] == values;
        forall i | 0 <= i < |values| ensures 0.0 <= values[i] {
          assert fields[i] in fields;
        }
    }
    StacksFitDomain(metric, stacks, upper);
    forall k, s | 0 <= k < |records| && s in Stacked(metric, StackValues(records[k], metric))
      ensures 0.0 <= s.y0 <= s.y1 <= YDomain(Real(upper)).hi.value
    {
      assert stacks[k] == StackValues(records[k], metric);
    }
  }

  /** Two months with metrics "a" and "b": January {a: 2, b: 3} stacks as
      [a: 0..2, b: 2..5], February {a: 1, b: 4} as [a: 0..1, b: 1..5]; both
      totals are 5, so the value axis runs from 0 to 5.5. */
  lemma TwoMonthExample()
    ensures Stacked(Names(["a", "b"]), Many([2.0, 3.0])) == [Segment("a", 0.0, 2.0), Segment("b", 2.0, 5.0)]
    ensures Stacked(Names(["a", "b"]), Many([1.0, 4.0])) == [Segment("a", 0.0, 1.0), Segment("b", 1.0, 5.0)]
    ensures Total(map["a" := 2.0, "b" := 3.0], MetricFields(Names(["a", "b"]))) == Real(5.0)
    ensures Total(map["a" := 1.0, "b" := 4.0], MetricFields(Names(["a", "b"]))) == Real(5.0)
    ensures YDomain(Real(5.0)) == Domain(0.0, Real(5.5))
  {
    var jan, feb := [2.0, 3.0], [1.0, 4.0];
    assert jan[..0] == [] && jan[..1] == [2.0] && jan[..2] == jan && [2.0][..0] == [];
    assert Sum(jan[..1]) == 2.0 && Sum(jan[..2]) == 5.0;
    assert feb[..0] == [] && feb[..1] == [1.0] && feb[..2] == feb && [1.0][..0] == [];
    assert Sum(feb[..1]) == 1.0 && Sum(feb[..2]) == 5.0;
    var fields := MetricFields(Names(["a", "b"]));
    assert fields[..1] == ["a"] && fields[..1][..0] == [];
  }
}
