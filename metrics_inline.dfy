/** `src/components/CurrentMetricsInline.tsx`: the compact bar chart of a model's latest
    metrics. Unlike the full chart, an invalid value is skipped rather than shown as 0. */
module MetricsInline {
  import opened Common
  import MetricsChart

  /** One `addMetric` call: the metric's key, its display name and its bar colour. */
  datatype InlineKey = InlineKey(key: string, name: string, color: string)

  /** The `addMetric` calls in their order. */
  function InlineKeys(isRegression: bool): (r: seq<InlineKey>)
    ensures isRegression ==> |r| == 2 && r[0].key == "rmse" && r[1].key == "r2_score"
    ensures !isRegression ==> |r| == 3 && r[0].key == "accuracy" && r[1].key == "f1_score" && r[2].key == "auc"
  {
    if isRegression then
      [InlineKey("rmse", "RMSE", "#E53E3E"), InlineKey("r2_score", "R² Score", "#38A169")]
    else
      [InlineKey("accuracy", "Accuracy", "#8B5CF6"), InlineKey("f1_score", "F1 Score", "#3B82F6"),
       InlineKey("auc", "AUC", "#10B981")]
  }

  datatype InlinePoint = InlinePoint(name: string, value: real, color: string)

  predicate Valid(m: Metrics, k: InlineKey) {
    IsValidNumber(Lookup(m, k.key))
  }

  /** The point `addMetric` pushes for a valid value. */
  function PointFor(m: Metrics, k: InlineKey): InlinePoint {
    InlinePoint(k.name, NumberOrZero(Lookup(m, k.key)), k.color)
  }

  /** What `addMetric` appends: a point for a valid number, nothing otherwise. */
  function Step(m: Metrics, k: InlineKey): seq<InlinePoint> {
    if Valid(m, k) then [PointFor(m, k)] else []
  }

  /** The points of a run of `addMetric` calls. */
  function Points(m: Metrics, keys: seq<InlineKey>): seq<InlinePoint> {
    Collect(keys, (k: InlineKey) => Step(m, k))
  }

  /** The chart shows exactly the keys whose value is a non-NaN number, in the keys' order. */
  lemma PointsAreValidKeys(m: Metrics, keys: seq<InlineKey>)
    ensures Points(m, keys) == MapSeq(Filter(keys, (k: InlineKey) => Valid(m, k)), (k: InlineKey) => PointFor(m, k))
  {
    CollectIsFilterMap(keys, (k: InlineKey) => Step(m, k), (k: InlineKey) => Valid(m, k), (k: InlineKey) => PointFor(m, k));
  }

  /** Every point carries the value stored under one of the keys, with that key's name and
      colour: invalid entries are dropped, never replaced by 0. */
  lemma PointsHoldStoredValues(m: Metrics, keys: seq<InlineKey>)
    ensures forall p | p in Points(m, keys) ::
      exists k | k in keys :: k.key in m && m[k.key] == Num(p.value) && p == InlinePoint(k.name, p.value, k.color)
  {
    PointsAreValidKeys(m, keys);
    var kept := Filter(keys, (k: InlineKey) => Valid(m, k));
    var pts := MapSeq(kept, (k: InlineKey) => PointFor(m, k));
    forall p | p in pts
      ensures exists k | k in keys :: k.key in m && m[k.key] == Num(p.value) && p == InlinePoint(k.name, p.value, k.color)
    {
      var i :| 0 <= i < |pts| && pts[i] == p;
      var k := kept[i];
      assert k in keys && Valid(m, k);
      assert p == PointFor(m, k);
    }
  }

  /** No point at all exactly when none of the keys holds a valid number. */
  lemma PointsEmptyIff(m: Metrics, keys: seq<InlineKey>)
    ensures Points(m, keys) == [] <==> forall i | 0 <= i < |keys| :: !IsValidNumber(Lookup(m, keys[i].key))
  {
    CollectEmptyIff(keys, (k: InlineKey) => Step(m, k));
  }

  /** One `addMetric` call: a non-NaN number is pushed, anything else is only warned about. */
  method AddMetric(data: seq<InlinePoint>, m: Metrics, k: InlineKey) returns (r: seq<InlinePoint>)
    ensures r == data + Step(m, k)
  {
    r := data;
    var value := Lookup(m, k.key);
    if value.Some? && value.value.Num? {
      r := r + [InlinePoint(k.name, value.value.v, k.color)];
    }
  }

  /** `chartData` for metrics that are not null: the points of the task's key list. The
      closing `filter(Boolean)` keeps every point, since points are objects. */
  method ChartData(m: Metrics) returns (data: seq<InlinePoint>)
    ensures data == Points(m, InlineKeys(MetricsChart.IsRegression(Some(m))))
    ensures |data| <= |InlineKeys(MetricsChart.IsRegression(Some(m)))|
  {
    var isRegression := MetricsChart.IsRegression(Some(m));
    var keys := InlineKeys(isRegression);
    data := [];
    data := AddMetric(data, m, keys[0]);
    data := AddMetric(data, m, keys[1]);
    if !isRegression {
      data := AddMetric(data, m, keys[2]);
      Collect3(keys, (k: InlineKey) => Step(m, k));
    } else {
      Collect2(keys, (k: InlineKey) => Step(m, k));
    }
  }

  /** What the component renders. */
  datatype View = NoMetrics | NoValidMetrics | Chart(title: string)

  /** Null metrics give "No metrics available", an empty chart the "No valid metrics"
      error, anything else the chart under its task's title. */
  function Render(latest: Option<Metrics>, chartData: seq<InlinePoint>): (v: View)
    ensures v == NoMetrics <==> latest.None?
    ensures v == NoValidMetrics <==> latest.Some? && chartData == []
    ensures v.Chart? ==> v.title == if MetricsChart.IsRegression(latest) then "Current Regression Metrics"
                                    else "Current Classification Metrics"
  {
    if latest.None? then NoMetrics
    else if |chartData| == 0 then NoValidMetrics
    else Chart(if MetricsChart.IsRegression(latest) then "Current Regression Metrics"
               else "Current Classification Metrics")
  }

  /** The error branch appears exactly when metrics exist but none of the task's keys holds a
      valid number, even when some of those keys are present with NaN or null. */
  lemma NoValidMetricsIff(m: Metrics)
    ensures var keys := InlineKeys(MetricsChart.IsRegression(Some(m)));
      Render(Some(m), Points(m, keys)) == NoValidMetrics <==> forall i | 0 <= i < |keys| :: !IsValidNumber(Lookup(m, keys[i].key))
  {
    PointsEmptyIff(m, InlineKeys(MetricsChart.IsRegression(Some(m))));
  }
}
