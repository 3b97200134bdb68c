/** `src/components/CurrentMetricsChart.tsx`: grading each metric of a model, and building
    the bar chart's and the radar chart's data from the model's latest metrics. The
    radar's `1 / (1 + x)` transform is kept symbolic rather than evaluated. */
module MetricsChart {
  import opened Common

  datatype Level = Excellent | Good | Fair | NeedsImprovement | Unknown

  /** The first colour of the palette each level uses. */
  function LevelColor(l: Level): string {
    match l
    case Excellent => "#10B981"
    case Good => "#3B82F6"
    case Fair => "#F59E0B"
    case NeedsImprovement => "#EF4444"
    case Unknown => "#8B5CF6"
  }

  datatype Performance = Performance(level: Level, color: string)

  /** The first of the three bands that holds, else "needs improvement". */
  function Band(excellent: bool, good: bool, fair: bool): Level {
    if excellent then Excellent else if good then Good else if fair then Fair else NeedsImprovement
  }

  /** `getPerformanceLevel`. Metric names are compared after lower-casing; classification
      metrics all share one scale, regression metrics each have their own and an unknown
      regression metric is graded "unknown". */
  function PerformanceLevel(metric: string, value: real, isRegression: bool): (p: Performance)
    ensures p.color == LevelColor(p.level)
    ensures !isRegression ==> p.level == Band(value >= 0.9, value >= 0.8, value >= 0.7)
    ensures isRegression && ToLower(metric) == "r2_score" ==> p.level == Band(value >= 0.95, value >= 0.85, value >= 0.7)
    ensures isRegression && ToLower(metric) == "rmse" ==> p.level == Band(value <= 0.1, value <= 0.5, value <= 1.0)
    ensures isRegression && ToLower(metric) == "mae" ==> p.level == Band(value <= 0.05, value <= 0.2, value <= 0.5)
    ensures isRegression && ToLower(metric) == "mse" ==> p.level == Band(value <= 0.01, value <= 0.1, value <= 0.25)
    ensures p.level == Unknown <==> isRegression && ToLower(metric) !in {"r2_score", "rmse", "mae", "mse"}
  {
    var level :=
      if isRegression then
        var name := ToLower(metric);
        if name == "r2_score" then Band(value >= 0.95, value >= 0.85, value >= 0.7)
        else if name == "rmse" then Band(value <= 0.1, value <= 0.5, value <= 1.0)
        else if name == "mae" then Band(value <= 0.05, value <= 0.2, value <= 0.5)
        else if name == "mse" then Band(value <= 0.01, value <= 0.1, value <= 0.25)
        else Unknown
      else Band(value >= 0.9, value >= 0.8, value >= 0.7);
    Performance(level, LevelColor(level))
  }

  /** How good a level is; "unknown" ranks with "needs improvement". */
  function Rank(l: Level): nat {
    match l
    case Excellent => 3
    case Good => 2
    case Fair => 1
    case NeedsImprovement => 0
    case Unknown => 0
  }

  /** For every classification metric and for r2, a higher value never gets a worse
      level. */
  lemma HigherIsBetter(metric: string, v1: real, v2: real, isRegression: bool)
    requires !isRegression || ToLower(metric) == "r2_score"
    requires v1 <= v2
    ensures Rank(PerformanceLevel(metric, v1, isRegression).level) <= Rank(PerformanceLevel(metric, v2, isRegression).level)
  {
  }

  /** For the error metrics of regression, a larger error never gets a better level. */
  lemma LowerIsBetter(metric: string, v1: real, v2: real)
    requires ToLower(metric) in {"rmse", "mae", "mse"}
    requires v1 <= v2
    ensures Rank(PerformanceLevel(metric, v1, true).level) >= Rank(PerformanceLevel(metric, v2, true).level)
  {
  }

  /** Lower-casing makes the grading case-insensitive: "RMSE" is graded as "rmse". */
  lemma CaseInsensitive(metric: string, value: real, isRegression: bool)
    ensures PerformanceLevel(metric, value, isRegression) == PerformanceLevel(ToLower(metric), value, isRegression)
  {
    ToLowerIdempotent(metric);
  }

  lemma ToLowerIdempotent(s: string)
    ensures ToLower(ToLower(s)) == ToLower(s)
  {
    var t := ToLower(s);
    assert forall i | 0 <= i < |t| :: LowerChar(t[i]) == t[i];
  }

  /** `isRegression`: the metrics object has an `rmse` key. */
  function IsRegression(latest: Option<Metrics>): (r: bool)
    ensures r <==> latest.Some? && "rmse" in latest.value
  {
    latest.Some? && "rmse" in latest.value
  }

  /** One `addMetric` call: the metric's key, its display name and its category. */
  datatype ChartKey = ChartKey(key: string, name: string, category: string)

  /** The `addMetric` calls in their order. */
  function ChartKeys(isRegression: bool): (r: seq<ChartKey>)
    ensures isRegression ==> |r| == 4 && r[0].key == "rmse"
    ensures !isRegression ==> |r| == 5
  {
    if isRegression then
      [ChartKey("rmse", "RMSE", "Error"), ChartKey("r2_score", "R² Score", "Performance"),
       ChartKey("mae", "MAE", "Error"), ChartKey("mse", "MSE", "Error")]
    else
      [ChartKey("accuracy", "Accuracy", "Performance"), ChartKey("f1_score", "F1 Score", "Performance"),
       ChartKey("auc", "AUC", "Performance"), ChartKey("precision", "Precision", "Performance"),
       ChartKey("recall", "Recall", "Performance")]
  }

  datatype ChartPoint = ChartPoint(name: string, value: real, color: string, category: string, level: Level)

  /** The point `addMetric` pushes for a key that is present. */
  function PointFor(m: Metrics, isRegression: bool, k: ChartKey): ChartPoint {
    var value := NumberOrZero(Lookup(m, k.key));
    var perf := PerformanceLevel(k.key, value, isRegression);
    ChartPoint(k.name, value, perf.color, k.category, perf.level)
  }

  /** The point for a present key: a valid number is shown as it is, anything else as 0,
      and either is graded on the metric's scale. */
  lemma PointForMeaning(m: Metrics, isRegression: bool, k: ChartKey)
    ensures var p := PointFor(m, isRegression, k);
      && p.name == k.name && p.category == k.category
      && p.value == (if IsValidNumber(Lookup(m, k.key)) then Lookup(m, k.key).value.v else 0.0)
      && p.level == PerformanceLevel(k.key, p.value, isRegression).level && p.color == LevelColor(p.level)
  {
  }

  /** What `addMetric` appends: nothing for an absent key. */
  function Step(m: Metrics, isRegression: bool, k: ChartKey): seq<ChartPoint> {
    if k.key in m then [PointFor(m, isRegression, k)] else []
  }

  /** The points of a run of `addMetric` calls. */
  function Points(m: Metrics, isRegression: bool, keys: seq<ChartKey>): seq<ChartPoint> {
    Collect(keys, (k: ChartKey) => Step(m, isRegression, k))
  }

  predicate Present(m: Metrics, k: ChartKey) {
    k.key in m
  }

  /** The chart data are the points of exactly the present keys, in the keys' order:
      absent keys are skipped, nothing is reordered, and there is at most one point per
      key. */
  lemma PointsArePresentKeys(m: Metrics, isRegression: bool, keys: seq<ChartKey>)
    ensures Points(m, isRegression, keys) == MapSeq(Filter(keys, (k: ChartKey) => Present(m, k)), (k: ChartKey) => PointFor(m, isRegression, k))
    ensures |Points(m, isRegression, keys)| <= |keys|
  {
    CollectIsFilterMap(keys, (k: ChartKey) => Step(m, isRegression, k), (k: ChartKey) => Present(m, k), (k: ChartKey) => PointFor(m, isRegression, k));
  }

  /** No point at all exactly when none of the keys is present. */
  lemma PointsEmptyIff(m: Metrics, isRegression: bool, keys: seq<ChartKey>)
    ensures Points(m, isRegression, keys) == [] <==> forall i | 0 <= i < |keys| :: keys[i].key !in m
  {
    CollectEmptyIff(keys, (k: ChartKey) => Step(m, isRegression, k));
    assert forall i | 0 <= i < |keys| :: Step(m, isRegression, keys[i]) == [] <==> keys[i].key !in m;
  }

  /** One `addMetric` call. */
  method AddMetric(data: seq<ChartPoint>, m: Metrics, isRegression: bool, k: ChartKey)
    returns (r: seq<ChartPoint>)
    ensures r == data + Step(m, isRegression, k)
  {
    r := data;
    var value := Lookup(m, k.key);
    if value.Some? && value.value.Num? {
      var perf := PerformanceLevel(k.key, value.value.v, isRegression);
      r := r + [ChartPoint(k.name, value.value.v, perf.color, k.category, perf.level)];
    } else if value.Some? {
      var perf := PerformanceLevel(k.key, 0.0, isRegression);
      r := r + [ChartPoint(k.name, 0.0, perf.color, k.category, perf.level)];
    }
  }

  /** The bar chart's data: nothing without metrics, otherwise one point per present key
      of the task's key list. */
  method ChartData(latest: Option<Metrics>) returns (data: seq<ChartPoint>)
    ensures latest.None? ==> data == []
    ensures latest.Some? ==> data == Points(latest.value, IsRegression(latest), ChartKeys(IsRegression(latest)))
  {
    if latest.None? {
      return [];
    }
    var m := latest.value;
    var isRegression := IsRegression(latest);
    var keys := ChartKeys(isRegression);
    data := [];
    data := AddMetric(data, m, isRegression, keys[0]);
    data := AddMetric(data, m, isRegression, keys[1]);
    data := AddMetric(data, m, isRegression, keys[2]);
    data := AddMetric(data, m, isRegression, keys[3]);
    if !isRegression {
      data := AddMetric(data, m, isRegression, keys[4]);
    }
    if isRegression {
      Collect4(keys, (k: ChartKey) => Step(m, isRegression, k));
    } else {
      Collect5(keys, (k: ChartKey) => Step(m, isRegression, k));
    }
  }

  /** A regression model's chart always starts with its RMSE point. */
  lemma RegressionChartStartsWithRmse(m: Metrics)
    requires "rmse" in m
    ensures var data := Points(m, true, ChartKeys(true)); data != [] && data[0].name == "RMSE"
  {
    Collect4(ChartKeys(true), (k: ChartKey) => Step(m, true, k));
  }

  /** What the component renders. */
  datatype View = Nothing | NoMetricsButton | ChartButton

  /** Null metrics render nothing, an empty chart the disabled "No Metrics Available"
      button, anything else the chart button. */
  function Render(latest: Option<Metrics>, chartData: seq<ChartPoint>): (v: View)
    ensures v == Nothing <==> latest.None?
    ensures v == NoMetricsButton <==> latest.Some? && chartData == []
  {
    if latest.None? then Nothing else if |chartData| == 0 then NoMetricsButton else ChartButton
  }

  /** The disabled button appears exactly when metrics exist but none of the task's keys
      is among them. */
  lemma NoMetricsButtonIff(m: Metrics)
    ensures var isR := IsRegression(Some(m)); var keys := ChartKeys(isR);
      Render(Some(m), Points(m, isR, keys)) == NoMetricsButton <==> forall i | 0 <= i < |keys| :: keys[i].key !in m
  {
    PointsEmptyIff(m, IsRegression(Some(m)), ChartKeys(IsRegression(Some(m))));
  }

  // ---------------------------------------------------------------------------
  // The radar chart
  // ---------------------------------------------------------------------------

  /** The normalisation an `addRadarMetric` call applies. */
  datatype Normalizer = AsIs | ClampUnit | Inverse

  /** A normalised value: exact, or `1 / (1 + x)` left unevaluated. */
  datatype RadarValue = Exact(x: real) | InverseOfOnePlus(x: real)

  /** `Math.max(0, Math.min(1, v))` */
  function Clamp(v: real): (r: real)
    ensures 0.0 <= r <= 1.0
    ensures 0.0 <= v <= 1.0 ==> r == v
    ensures v < 0.0 ==> r == 0.0
    ensures v > 1.0 ==> r == 1.0
  {
    var upper := if 1.0 < v then 1.0 else v;
    if 0.0 > upper then 0.0 else upper
  }

  function Normalize(n: Normalizer, v: real): RadarValue {
    match n
    case AsIs => Exact(v)
    case ClampUnit => Exact(Clamp(v))
    case Inverse => InverseOfOnePlus(v)
  }

  datatype RadarKey = RadarKey(key: string, metric: string, normalizer: Normalizer)

  function RadarKeys(isRegression: bool): (r: seq<RadarKey>)
    ensures isRegression ==> |r| == 3 && r[0] == RadarKey("r2_score", "R² Score", ClampUnit)
    ensures !isRegression ==> |r| == 5 && forall i | 0 <= i < 5 :: r[i].normalizer == AsIs
  {
    if isRegression then
      [RadarKey("r2_score", "R² Score", ClampUnit), RadarKey("rmse", "RMSE Quality", Inverse),
       RadarKey("mae", "MAE Quality", Inverse)]
    else
      [RadarKey("accuracy", "Accuracy", AsIs), RadarKey("f1_score", "F1 Score", AsIs),
       RadarKey("auc", "AUC", AsIs), RadarKey("precision", "Precision", AsIs),
       RadarKey("recall", "Recall", AsIs)]
  }

  datatype RadarPoint = RadarPoint(metric: string, value: RadarValue, originalValue: real)

  /** The point `addRadarMetric` pushes for a valid value. */
  function RadarPointFor(m: Metrics, k: RadarKey): RadarPoint {
    var value := NumberOrZero(Lookup(m, k.key));
    RadarPoint(k.metric, Normalize(k.normalizer, value), value)
  }

  /** What `addRadarMetric` appends: a point for a valid number only; an invalid value is
      skipped, unlike in the bar chart. */
  function RadarStep(m: Metrics, k: RadarKey): seq<RadarPoint> {
    if IsValidNumber(Lookup(m, k.key)) then [RadarPointFor(m, k)] else []
  }

  function RadarPoints(m: Metrics, keys: seq<RadarKey>): seq<RadarPoint> {
    Collect(keys, (k: RadarKey) => RadarStep(m, k))
  }

  /** The radar shows exactly the keys with a valid number, in order, at most one point
      each; a point keeps the original value beside the normalised one. */
  lemma RadarPointsAreValidKeys(m: Metrics, keys: seq<RadarKey>)
    ensures RadarPoints(m, keys)
         == MapSeq(Filter(keys, (k: RadarKey) => IsValidNumber(Lookup(m, k.key))), (k: RadarKey) => RadarPointFor(m, k))
    ensures forall i | 0 <= i < |keys| && IsValidNumber(Lookup(m, keys[i].key)) ::
      RadarPointFor(m, keys[i]) == RadarPoint(keys[i].metric, Normalize(keys[i].normalizer, m[keys[i].key].v), m[keys[i].key].v)
  {
    CollectIsFilterMap(keys, (k: RadarKey) => RadarStep(m, k), (k: RadarKey) => IsValidNumber(Lookup(m, k.key)),
                       (k: RadarKey) => RadarPointFor(m, k));
  }

  /** Every exact value on a regression radar lies in [0, 1]: the r2 score is clamped, and
      the error metrics are shown only through `1 / (1 + x)`. */
  lemma RegressionRadarInUnit(m: Metrics, keys: seq<RadarKey>)
    requires forall i | 0 <= i < |keys| :: keys[i].normalizer != AsIs
    ensures forall i | 0 <= i < |RadarPoints(m, keys)| ::
      RadarPoints(m, keys)[i].value.Exact? ==> 0.0 <= RadarPoints(m, keys)[i].value.x <= 1.0
  {
    RadarPointsAreValidKeys(m, keys);
    var valid := Filter(keys, (k: RadarKey) => IsValidNumber(Lookup(m, k.key)));
    forall i | 0 <= i < |valid|
      ensures valid[i].normalizer != AsIs
    {
      assert valid[i] in keys;
    }
  }

  /** One `addRadarMetric` call. */
  method AddRadarMetric(data: seq<RadarPoint>, m: Metrics, k: RadarKey) returns (r: seq<RadarPoint>)
    ensures r == data + RadarStep(m, k)
  {
    r := data;
    var value := Lookup(m, k.key);
    if value.Some? && value.value.Num? {
      var normalizedValue := Normalize(k.normalizer, value.value.v);
      r := r + [RadarPoint(k.metric, normalizedValue, value.value.v)];
    }
  }

  /** The radar chart's data: nothing without metrics, otherwise one point per key of the
      task's list whose value is a valid number. */
  method RadarData(latest: Option<Metrics>) returns (data: seq<RadarPoint>)
    ensures latest.None? ==> data == []
    ensures latest.Some? ==> data == RadarPoints(latest.value, RadarKeys(IsRegression(latest)))
  {
    if latest.None? {
      return [];
    }
    var m := latest.value;
    var keys := RadarKeys(IsRegression(latest));
    data := [];
    data := AddRadarMetric(data, m, keys[0]);
    data := AddRadarMetric(data, m, keys[1]);
    data := AddRadarMetric(data, m, keys[2]);
    if !IsRegression(latest) {
      data := AddRadarMetric(data, m, keys[3]);
      data := AddRadarMetric(data, m, keys[4]);
    }
    if |keys| == 3 {
      Collect3(keys, (k: RadarKey) => RadarStep(m, k));
    } else {
      Collect5(keys, (k: RadarKey) => RadarStep(m, k));
    }
  }
}
