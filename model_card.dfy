/** `src/components/ModelCard.tsx`: a model's card on the dashboard. It decides the
    model's task kind and headline score, colours that score, and deletes the model
    through a confirmation dialog. The delete request is an opaque outcome passed in. */
module ModelCard {
  import opened Common
  import MetricsChart

  /** `latest_metrics?.hasOwnProperty('rmse') || task_type === 'regression'` */
  function IsRegression(m: Model): (r: bool)
    ensures r <==> (m.latestMetrics.Some? && "rmse" in m.latestMetrics.value) || m.taskType == Some(Regression)
  {
    MetricsChart.IsRegression(m.latestMetrics) || m.taskType == Some(Regression)
  }

  /** The card counts a model as regression whenever its metrics chart does, and also when
      only its task type says so. */
  lemma CardRegressionCoversChart(m: Model)
    ensures MetricsChart.IsRegression(m.latestMetrics) ==> IsRegression(m)
    ensures m.taskType == Some(Regression) ==> IsRegression(m)
  {
  }

  /** A regression model whose metrics lack `rmse` gets a regression card but a
      classification metrics chart. */
  lemma CardAndChartCanDisagree()
    ensures var m := Model(1, "m", "1", Some(Regression), Some(map["r2_score" := Num(0.5)]));
      IsRegression(m) && !MetricsChart.IsRegression(m.latestMetrics)
  {
  }

  /** `performanceScore`: `r2_score || 0` for regression and `accuracy || 0` otherwise, so
      a missing, null or NaN value scores 0. */
  function PerformanceScore(m: Model): (s: real)
    ensures var v := LookupIn(m.latestMetrics, if IsRegression(m) then "r2_score" else "accuracy");
      && (IsValidNumber(v) ==> s == v.value.v)
      && (!IsValidNumber(v) ==> s == 0.0)
  {
    if IsRegression(m) then NumberOrZero(LookupIn(m.latestMetrics, "r2_score"))
    else NumberOrZero(LookupIn(m.latestMetrics, "accuracy"))
  }

  datatype ScoreColor = Green | Blue | Orange | Red

  /** `performanceColor`: the first of the thresholds 0.9, 0.8 and 0.7 that the score
      reaches, else red. */
  function PerformanceColor(score: real): (c: ScoreColor)
    ensures c == Green <==> score >= 0.9
    ensures c == Blue <==> 0.8 <= score < 0.9
    ensures c == Orange <==> 0.7 <= score < 0.8
    ensures c == Red <==> score < 0.7
  {
    if score >= 0.9 then Green
    else if score >= 0.8 then Blue
    else if score >= 0.7 then Orange
    else Red
  }

  function ColorRank(c: ScoreColor): nat {
    match c
    case Green => 3
    case Blue => 2
    case Orange => 1
    case Red => 0
  }

  /** A higher score never gets a worse colour. */
  lemma PerformanceColorMonotone(s1: real, s2: real)
    requires s1 <= s2
    ensures ColorRank(PerformanceColor(s1)) <= ColorRank(PerformanceColor(s2))
  {
  }

  const DeletedToast := Toast("Model deleted successfully", None, SuccessToast)
  const DeleteFailedToast := Toast("Failed to delete model", Some("Please try again later"), ErrorToast)

  /** The `DELETE /models/{id}` request with the user id as a parameter. */
  datatype DeleteRequest = DeleteRequest(modelId: int, userId: Option<string>)

  /** The card's state. `refreshes` counts the calls of `refreshModels`; `requests` and
      `toasts` record what was sent and shown. */
  class ModelCardState {
    const model: Model
    const userId: Option<string>
    var isDeleting: bool
    var isAlertOpen: bool
    var refreshes: nat
    var requests: seq<DeleteRequest>
    var toasts: seq<Toast>

    constructor (model: Model, userId: Option<string>)
      ensures this.model == model && this.userId == userId
      ensures !isDeleting && !isAlertOpen && refreshes == 0 && requests == [] && toasts == []
    {
      this.model := model;
      this.userId := userId;
      isDeleting, isAlertOpen, refreshes := false, false, 0;
      requests, toasts := [], [];
    }

    /** The delete icon: `onOpen`. */
    method OpenDialog()
      modifies this`isAlertOpen
      ensures isAlertOpen
    {
      isAlertOpen := true;
    }

    /** The dialog's Cancel button: `onAlertClose`. */
    method CloseDialog()
      modifies this`isAlertOpen
      ensures !isAlertOpen
    {
      isAlertOpen := false;
    }

    /** `handleDelete`: one delete request; on success a success toast and a refresh of
      the list, on failure an error toast and no refresh; on every path deleting stops and
      the dialog closes. */
    method HandleDelete(succeeded: bool)
      modifies this
      ensures !isDeleting && !isAlertOpen
      ensures requests == old(requests) + [DeleteRequest(model.id, userId)]
      ensures succeeded ==> refreshes == old(refreshes) + 1 && toasts == old(toasts) + [DeletedToast]
      ensures !succeeded ==> refreshes == old(refreshes) && toasts == old(toasts) + [DeleteFailedToast]
    {
      isDeleting := true;
      requests := requests + [DeleteRequest(model.id, userId)];
      if succeeded {
        toasts := toasts + [DeletedToast];
        refreshes := refreshes + 1;
      } else {
        toasts := toasts + [DeleteFailedToast];
      }
      isDeleting := false;
      isAlertOpen := false;
    }
  }
}
