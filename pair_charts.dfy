/** `src/components/ModelComparisonChart.tsx` and `src/components/ModelRadarChart.tsx`: the
    two charts that set two models side by side. Both build the same rows (one per compared
    metric, a value for each model) and differ only in how they draw them and in naming the
    row's caption `metric` or `subject`; the rows are modelled once. */
module PairCharts {
  import opened Common
  import Compare

  /** `modelA.task_type === 'regression'`: the second model's task type plays no part. */
  function ChartIsRegression(modelA: Model): (r: bool)
    ensures r <==> modelA.taskType == Some(Regression)
  {
    modelA.taskType == Some(Regression)
  }

  /** One row of `data`: the metric's label and the two validated values. */
  datatype Row = Row(caption: string, valueA: real, valueB: real)

  /** `(typeof v === 'number' && !isNaN(v)) ? v : 0` on `model.latest_metrics?.[key]` */
  function Validated(m: Model, key: string): (r: real)
    ensures IsValidNumber(LookupIn(m.latestMetrics, key)) ==> r == m.latestMetrics.value[key].v
    ensures !IsValidNumber(LookupIn(m.latestMetrics, key)) ==> r == 0.0
  {
    NumberOrZero(LookupIn(m.latestMetrics, key))
  }

  function RowFor(modelA: Model, modelB: Model, k: MetricKey): Row {
    Row(k.caption, Validated(modelA, k.key), Validated(modelB, k.key))
  }

  /** `data`: `metrics.map(...)` (or `subjects.map(...)`) over the list of the first model's
      task type. */
  function Rows(modelA: Model, modelB: Model): (r: seq<Row>)
    ensures var metrics := ComparedMetrics(ChartIsRegression(modelA));
      && |r| == |metrics|
      && forall i | 0 <= i < |metrics| ::
           && r[i].caption == metrics[i].caption
           && r[i].valueA == Validated(modelA, metrics[i].key)
           && r[i].valueB == Validated(modelB, metrics[i].key)
  {
    MapSeq(ComparedMetrics(ChartIsRegression(modelA)), (k: MetricKey) => RowFor(modelA, modelB, k))
  }

  /** The rows follow the fixed metric list: RMSE and R² for a regression model, accuracy,
      F1 and AUC otherwise. */
  lemma RowCaptions(modelA: Model, modelB: Model)
    ensures var r := Rows(modelA, modelB);
      ChartIsRegression(modelA) ==> (|r| == 2 && r[0].caption == "RMSE" && r[1].caption == "R² Score")
    ensures var r := Rows(modelA, modelB);
      !ChartIsRegression(modelA) ==> (|r| == 3 && r[0].caption == "Accuracy" && r[1].caption == "F1 Score" && r[2].caption == "AUC")
  {
  }

  /** Exchanging two models of the same task type exchanges the two values of every row. */
  lemma RowsSwap(modelA: Model, modelB: Model)
    requires ChartIsRegression(modelA) == ChartIsRegression(modelB)
    ensures |Rows(modelB, modelA)| == |Rows(modelA, modelB)|
    ensures forall i | 0 <= i < |Rows(modelA, modelB)| ::
      Rows(modelB, modelA)[i] == Row(Rows(modelA, modelB)[i].caption, Rows(modelA, modelB)[i].valueB, Rows(modelA, modelB)[i].valueA)
  {
  }

  /** A model whose value is NaN is charted at 0 while the comparison table, which keeps
      NaN, calls that metric a tie; for every other value the chart shows the number the
      table compares. */
  lemma RowsAgreeWithTable(modelA: Model, modelB: Model, i: nat)
    requires i < |Rows(modelA, modelB)|
    ensures var key := ComparedMetrics(ChartIsRegression(modelA))[i].key;
      && (LookupIn(modelA.latestMetrics, key) != Some(NaN) ==>
            Compare.ValueOf(Some(modelA), key) == Compare.Finite(Rows(modelA, modelB)[i].valueA))
      && (LookupIn(modelA.latestMetrics, key) == Some(NaN) ==>
            Rows(modelA, modelB)[i].valueA == 0.0 && Compare.WinnerOn(ComparedMetrics(ChartIsRegression(modelA))[i], Some(modelA), Some(modelB)) == Compare.Tie)
  {
    var key := ComparedMetrics(ChartIsRegression(modelA))[i].key;
    if LookupIn(modelA.latestMetrics, key) == Some(NaN) {
      Compare.TieCases(key, 0.0, Compare.ValueOf(Some(modelB), key));
    }
  }

  /** What the component renders: the error fallback for no rows, else the chart. */
  datatype View = Fallback | Chart(rows: seq<Row>)

  function Render(rows: seq<Row>): (v: View)
    ensures v == Fallback <==> rows == []
    ensures v.Chart? ==> v.rows == rows
  {
    if |rows| == 0 then Fallback else Chart(rows)
  }

  /** The metric list is never empty, so the "No Data/Invalid Models" fallback is never
      shown for two models. */
  lemma FallbackNeverShown(modelA: Model, modelB: Model)
    ensures Render(Rows(modelA, modelB)).Chart?
    ensures |Rows(modelA, modelB)| >= 2
  {
  }
}
