/** `src/components/DashboardContent.tsx`: the task-type and search filter over the user's
    models, the summary statistics (count, average score, best model), and `fetchModels`
    with its guard and its handling of the two response shapes. The HTTP call is an opaque
    outcome passed in; the average is an exact rational, not a float. */
module Dashboard {
  import opened Common

  predicate OfTaskType(t: TaskType, m: Model) {
    m.taskType == Some(t)
  }

  /** `m.name && m.name.toLowerCase().includes(searchTerm.toLowerCase())` */
  predicate MatchesSearch(searchTerm: string, m: Model) {
    m.name != "" && Includes(ToLower(m.name), ToLower(searchTerm))
  }

  /** `taskFilteredModels`: first by task type, then by the search term. */
  function TaskFilteredModels(models: seq<Model>, activeTaskType: TaskType, searchTerm: string): (r: seq<Model>)
    ensures |r| <= |models|
    ensures forall i | 0 <= i < |r| ::
      r[i] in models && r[i].taskType == Some(activeTaskType) && MatchesSearch(searchTerm, r[i])
    ensures forall i | 0 <= i < |models| && models[i].taskType == Some(activeTaskType)
                       && MatchesSearch(searchTerm, models[i]) :: models[i] in r
  {
    var byType := Filter(models, m => OfTaskType(activeTaskType, m));
    assert forall i | 0 <= i < |models| && models[i].taskType == Some(activeTaskType) :: models[i] in byType;
    Filter(byType, m => MatchesSearch(searchTerm, m))
  }

  /** The filter keeps the models' order: filtering two lists one after the other is
      filtering their concatenation. */
  lemma TaskFilteredModelsAppend(a: seq<Model>, b: seq<Model>, t: TaskType, searchTerm: string)
    ensures TaskFilteredModels(a + b, t, searchTerm)
         == TaskFilteredModels(a, t, searchTerm) + TaskFilteredModels(b, t, searchTerm)
  {
    var p := (m: Model) => OfTaskType(t, m);
    var q := (m: Model) => MatchesSearch(searchTerm, m);
    FilterAppend(a, b, p);
    FilterAppend(Filter(a, p), Filter(b, p), q);
  }

  /** With an empty search every model of the task type is kept, except one with an empty
      name, which `m.name &&` rejects. */
  lemma EmptySearchKeepsNamed(m: Model)
    ensures MatchesSearch("", m) <==> m.name != ""
  {
    IncludesEmpty(ToLower(m.name));
  }

  /** The score of a model on the dashboard: accuracy for classification, r2 for
      regression, with `|| 0` (missing, null, NaN and 0 all give 0). */
  function Score(t: TaskType, m: Model): (s: real)
    ensures var key := if t == Classification then "accuracy" else "r2_score";
      s == (if IsValidNumber(LookupIn(m.latestMetrics, key)) then LookupIn(m.latestMetrics, key).value.v else 0.0)
  {
    NumberOrZero(LookupIn(m.latestMetrics, if t == Classification then "accuracy" else "r2_score"))
  }

  /** `reduce` with `currentScore > bestScore ? current : bestModelFound`. */
  function BestFrom(t: TaskType, best: Model, rest: seq<Model>): Model
    decreases |rest|
  {
    if rest == [] then best
    else BestFrom(t, if Score(t, rest[0]) > Score(t, best) then rest[0] else best, rest[1..])
  }

  /** `bestModel` of a non-empty list: the reduce starts from the first element. */
  function BestModel(t: TaskType, models: seq<Model>): Model
    requires models != []
  {
    BestFrom(t, models[0], models)
  }

  /** The reduce's invariant: after the first `i` elements, the model held is at an index
      `k` whose score is at least every score seen and strictly above every score before
      `k`. */
  lemma {:induction false} BestFromInvariant(t: TaskType, s: seq<Model>, i: nat, k: nat)
    requires k < |s| && k <= i <= |s|
    requires forall j | 0 <= j < i :: Score(t, s[j]) <= Score(t, s[k])
    requires forall j | 0 <= j < k :: Score(t, s[j]) < Score(t, s[k])
    ensures exists k' | 0 <= k' < |s| :: s[k'] == BestFrom(t, s[k], s[i..])
              && (forall j | 0 <= j < |s| :: Score(t, s[j]) <= Score(t, s[k']))
              && (forall j | 0 <= j < k' :: Score(t, s[j]) < Score(t, s[k']))
    decreases |s| - i
  {
    if i == |s| {
      assert s[i..] == [];
    } else {
      assert s[i..][0] == s[i] && s[i..][1..] == s[i + 1..];
      if Score(t, s[i]) > Score(t, s[k]) {
        BestFromInvariant(t, s, i + 1, i);
      } else {
        BestFromInvariant(t, s, i + 1, k);
      }
    }
  }

  /** `bestModel` is an element of the list whose score no other element exceeds, and it
      is the first such element: a later model must score strictly higher to replace it. */
  lemma BestModelIsFirstMaximum(t: TaskType, models: seq<Model>)
    requires models != []
    ensures exists k | 0 <= k < |models| :: models[k] == BestModel(t, models)
              && (forall j | 0 <= j < |models| :: Score(t, models[j]) <= Score(t, models[k]))
              && (forall j | 0 <= j < k :: Score(t, models[j]) < Score(t, models[k]))
  {
    BestFromInvariant(t, models, 0, 0);
    assert models[0..] == models;
  }

  /** No model in the list scores above `bestModel`. */
  lemma BestScoreIsMaximum(t: TaskType, models: seq<Model>)
    requires models != []
    ensures forall j | 0 <= j < |models| :: Score(t, models[j]) <= Score(t, BestModel(t, models))
  {
    BestModelIsFirstMaximum(t, models);
  }

  function SumScores(t: TaskType, models: seq<Model>): real {
    if models == [] then 0.0 else SumScores(t, models[..|models| - 1]) + Score(t, models[|models| - 1])
  }

  datatype Stats = Stats(totalModels: nat, avgScore: real, bestModel: Option<Model>)

  /** The summary cards: an empty list gives zeros and no best model. */
  function DashboardStats(t: TaskType, filtered: seq<Model>): (r: Stats)
    ensures r.totalModels == |filtered|
    ensures filtered == [] ==> r == Stats(0, 0.0, None)
    ensures filtered != [] ==>
      r.bestModel == Some(BestModel(t, filtered)) && r.avgScore == SumScores(t, filtered) / (|filtered| as real)
  {
    var total := |filtered|;
    if total == 0 then Stats(0, 0.0, None)
    else Stats(total, SumScores(t, filtered) / (total as real), Some(BestModel(t, filtered)))
  }

  /** Every score is at most the maximum, so the sum is at most the count times it. */
  lemma {:induction false} SumAtMost(t: TaskType, models: seq<Model>, bound: real)
    requires forall j | 0 <= j < |models| :: Score(t, models[j]) <= bound
    ensures SumScores(t, models) <= Times(|models|, bound)
  {
    if models != [] {
      var init := models[..|models| - 1];
      assert forall j | 0 <= j < |init| :: init[j] == models[j];
      SumAtMost(t, init, bound);
    }
  }

  /** `k * b` as repeated addition, which keeps the sum's bound linear. */
  function Times(k: nat, b: real): (r: real)
    ensures r == (k as real) * b
  {
    if k == 0 then 0.0 else Times(k - 1, b) + b
  }

  /** The average score never exceeds the best model's score. */
  lemma AverageAtMostBest(t: TaskType, filtered: seq<Model>)
    requires filtered != []
    ensures DashboardStats(t, filtered).avgScore <= Score(t, BestModel(t, filtered))
  {
    var best := Score(t, BestModel(t, filtered));
    BestScoreIsMaximum(t, filtered);
    SumAtMost(t, filtered, best);
    ScaledBound(SumScores(t, filtered), |filtered| as real, best);
  }

  lemma ScaledBound(s: real, n: real, b: real)
    requires n > 0.0 && s <= n * b
    ensures s / n <= b
  {
  }

  /** The body of a `/models/` response: a bare array, or an object whose `items` may or may
      not be an array. */
  datatype ResponseBody = ArrayBody(models: seq<Model>) | ObjectBody(items: Option<seq<Model>>)

  /** What `fetchModels`'s `catch` can receive. */
  datatype FetchError =
    | RequestError(detail: Option<string>, message: string)  // an `AxiosError`
    | PlainError(message: string)                            // any other `Error`
    | OtherThrown                                            // anything else

  datatype FetchOutcome = Received(body: ResponseBody) | Threw(error: FetchError)

  /** The list taken from a response: `data.items` when it is an array, else `data` when it
      is an array, else nothing. */
  function ModelsOf(body: ResponseBody): (r: seq<Model>)
    ensures body.ObjectBody? && body.items.Some? ==> r == body.items.value
    ensures body.ArrayBody? ==> r == body.models
    ensures body.ObjectBody? && body.items.None? ==> r == []
  {
    match body
    case ObjectBody(items) => if items.Some? then items.value else []
    case ArrayBody(models) => models
  }

  /** The message chosen in `fetchModels`'s `catch`. */
  function FetchErrorMessage(e: FetchError): (m: string)
    ensures e.RequestError? && e.detail.Some? && e.detail.value != "" ==> m == e.detail.value
    ensures e.RequestError? && !(e.detail.Some? && e.detail.value != "") ==> m == e.message
    ensures e.PlainError? ==> m == e.message
    ensures e.OtherThrown? ==> m == "An unexpected error occurred."
  {
    match e
    case RequestError(detail, message) => if detail.Some? && detail.value != "" then detail.value else message
    case PlainError(message) => message
    case OtherThrown => "An unexpected error occurred."
  }

  /** `userId || user_id`: the id passed in, else the signed-in user's. There is one
      exactly when either of them is non-empty. */
  function EffectiveUserId(userId: Option<string>, authUserId: Option<string>): (r: Option<string>)
    ensures Truthy(userId) ==> r == userId
    ensures !Truthy(userId) ==> r == authUserId
    ensures Truthy(r) <==> Truthy(userId) || Truthy(authUserId)
  {
    if Truthy(userId) then userId else authUserId
  }

  /** The dashboard's list state. `requests` records the user id of every list request. */
  class DashboardState {
    var models: seq<Model>
    var isLoading: bool
    var error: Option<string>
    var activeTaskType: TaskType
    var searchTerm: string
    var requests: seq<string>

    /** Between handler runs no fetch is in flight: `finally` has reset the flag. */
    ghost predicate Valid()
      reads this
    {
      !isLoading
    }

    /** `initialModels` is used only when it is an array. */
    constructor (initialModels: Option<seq<Model>>, initialError: Option<string>)
      ensures Valid()
      ensures models == (if initialModels.Some? then initialModels.value else [])
      ensures error == initialError && activeTaskType == Regression && searchTerm == "" && requests == []
    {
      models := if initialModels.Some? then initialModels.value else [];
      isLoading := false;
      error := initialError;
      activeTaskType := Regression;
      searchTerm := "";
      requests := [];
    }

    /** `fetchModels`: without a user id an error is set and nothing is requested;
        otherwise exactly one request is made, the list is replaced by what the response
        holds, or cleared with an error message on failure, and loading ends. */
    method FetchModels(userId: Option<string>, authUserId: Option<string>, outcome: FetchOutcome)
      requires Valid()
      modifies this`models, this`isLoading, this`error, this`requests
      ensures Valid()
      ensures !Truthy(userId) && !Truthy(authUserId) ==>
        error == Some("User ID not available.") && models == old(models) && requests == old(requests)
      ensures Truthy(userId) || Truthy(authUserId) ==>
        && requests == old(requests) + [EffectiveUserId(userId, authUserId).value]
        && (Truthy(userId) ==> requests[|requests| - 1] == userId.value)
        && (outcome.Received? ==> models == ModelsOf(outcome.body) && error.None?)
        && (outcome.Threw? ==> models == [] && error == Some(FetchErrorMessage(outcome.error)))
    {
      var effectiveUserId := EffectiveUserId(userId, authUserId);
      if !(effectiveUserId.Some? && effectiveUserId.value != "") {
        error := Some("User ID not available.");
        return;
      }
      isLoading := true;
      error := None;
      requests := requests + [effectiveUserId.value];
      match outcome {
        case Received(body) =>
          if body.ObjectBody? && body.items.Some? {
            models := body.items.value;
          } else if body.ArrayBody? {
            models := body.models;
          } else {
            models := [];
          }
        case Threw(err) =>
          var errorMessage := "An unexpected error occurred.";
          match err {
            case RequestError(detail, message) =>
              errorMessage := if detail.Some? && detail.value != "" then detail.value else message;
            case PlainError(message) =>
              errorMessage := message;
            case OtherThrown =>
          }
          error := Some(errorMessage);
          models := [];
      }
      isLoading := false;
    }

    /** The statistics shown for the current tab and search. */
    function CurrentStats(): (r: Stats)
      reads this
      ensures r.totalModels == |TaskFilteredModels(models, activeTaskType, searchTerm)|
      ensures r.totalModels == 0 ==> r == Stats(0, 0.0, None)
    {
      DashboardStats(activeTaskType, TaskFilteredModels(models, activeTaskType, searchTerm))
    }
  }
}
