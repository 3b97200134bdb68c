/** `src/components/CompareClient.tsx`: choosing two models of one task type and deciding,
    metric by metric and overall, which of them is better. Values are read with
    `latest_metrics?.[key] ?? 0`, so a missing or null value counts as 0 while NaN is kept,
    and every comparison with NaN is false. */
module Compare {
  import opened Common

  /** A JavaScript number as `?? 0` leaves it: finite, or NaN. */
  datatype Number = Finite(x: real) | NotANumber

  datatype Winner = A | B | Tie

  /** `m?.latest_metrics?.[key] ?? 0` */
  function ValueOf(m: Option<Model>, key: string): (n: Number)
    ensures m.None? ==> n == Finite(0.0)
    ensures m.Some? && (LookupIn(m.value.latestMetrics, key).None? || LookupIn(m.value.latestMetrics, key) == Some(Null))
            ==> n == Finite(0.0)
    ensures m.Some? && LookupIn(m.value.latestMetrics, key) == Some(NaN) ==> n == NotANumber
    ensures m.Some? && LookupIn(m.value.latestMetrics, key).Some? && LookupIn(m.value.latestMetrics, key).value.Num?
            ==> n == Finite(LookupIn(m.value.latestMetrics, key).value.v)
  {
    var v := if m.Some? then LookupIn(m.value.latestMetrics, key) else None;
    if v.Some? && v.value.Num? then Finite(v.value.v)
    else if v == Some(NaN) then NotANumber
    else Finite(0.0)
  }

  /** `a < b` on numbers: false whenever either side is NaN. */
  predicate Less(a: Number, b: Number) {
    a.Finite? && b.Finite? && a.x < b.x
  }

  /** `x` beats `y` on `key`: lower is better for `rmse`, higher for every other metric. */
  predicate Beats(key: string, x: Number, y: Number) {
    if key == "rmse" then Less(x, y) else Less(y, x)
  }

  /** The winner row of one metric. */
  function MetricWinner(key: string, valA: Number, valB: Number): (w: Winner)
    ensures w == A <==> Beats(key, valA, valB)
    ensures w == B <==> Beats(key, valB, valA)
    ensures w == Tie <==> !Beats(key, valA, valB) && !Beats(key, valB, valA)
  {
    var isLowerBetter := key == "rmse";
    if isLowerBetter then
      (if Less(valA, valB) then A else if Less(valB, valA) then B else Tie)
    else
      (if Less(valB, valA) then A else if Less(valA, valB) then B else Tie)
  }

  /** Equal finite values, and any comparison involving NaN, are a tie. */
  lemma TieCases(key: string, x: real, n: Number)
    ensures MetricWinner(key, Finite(x), Finite(x)) == Tie
    ensures MetricWinner(key, NotANumber, n) == Tie && MetricWinner(key, n, NotANumber) == Tie
  {
  }

  function Swap(w: Winner): Winner {
    match w
    case A => B
    case B => A
    case Tie => Tie
  }

  /** Exchanging the two models exchanges the winner. */
  lemma WinnerSwap(key: string, valA: Number, valB: Number)
    ensures MetricWinner(key, valB, valA) == Swap(MetricWinner(key, valA, valB))
  {
  }

  function WinnerOn(k: MetricKey, modelA: Option<Model>, modelB: Option<Model>): Winner {
    MetricWinner(k.key, ValueOf(modelA, k.key), ValueOf(modelB, k.key))
  }

  /** How many of `metrics` are won by `w`. */
  function Wins(metrics: seq<MetricKey>, w: Winner, modelA: Option<Model>, modelB: Option<Model>): nat {
    if metrics == [] then 0
    else Wins(metrics[..|metrics| - 1], w, modelA, modelB)
         + (if WinnerOn(metrics[|metrics| - 1], modelA, modelB) == w then 1 else 0)
  }

  /** The overall tally: a `forEach` over the metrics counting each side's wins. */
  method Tally(metrics: seq<MetricKey>, modelA: Option<Model>, modelB: Option<Model>)
    returns (modelAWins: nat, modelBWins: nat)
    ensures modelAWins == Wins(metrics, A, modelA, modelB)
    ensures modelBWins == Wins(metrics, B, modelA, modelB)
    ensures modelAWins + modelBWins <= |metrics|
  {
    modelAWins, modelBWins := 0, 0;
    for i := 0 to |metrics|
      invariant modelAWins == Wins(metrics[..i], A, modelA, modelB)
      invariant modelBWins == Wins(metrics[..i], B, modelA, modelB)
      invariant modelAWins + modelBWins <= i
    {
      var key := metrics[i].key;
      var valA := ValueOf(modelA, key);
      var valB := ValueOf(modelB, key);
      var isLowerBetter := key == "rmse";
      if isLowerBetter {
        if Less(valA, valB) {
          modelAWins := modelAWins + 1;
        } else if Less(valB, valA) {
          modelBWins := modelBWins + 1;
        }
      } else {
        if Less(valB, valA) {
          modelAWins := modelAWins + 1;
        } else if Less(valA, valB) {
          modelBWins := modelBWins + 1;
        }
      }
      assert metrics[..i + 1][..i] == metrics[..i];
    }
    assert metrics[..|metrics|] == metrics;
  }

  /** `overallWinner` */
  function Overall(modelAWins: nat, modelBWins: nat): (w: Winner)
    ensures w == A <==> modelAWins > modelBWins
    ensures w == Tie <==> modelAWins == modelBWins
  {
    if modelAWins > modelBWins then A else if modelBWins > modelAWins then B else Tie
  }

  /** Exchanging the models exchanges each side's number of wins. */
  lemma {:induction false} WinsSwap(metrics: seq<MetricKey>, modelA: Option<Model>, modelB: Option<Model>)
    ensures Wins(metrics, A, modelB, modelA) == Wins(metrics, B, modelA, modelB)
    ensures Wins(metrics, B, modelB, modelA) == Wins(metrics, A, modelA, modelB)
  {
    if metrics != [] {
      var k := metrics[|metrics| - 1];
      WinnerSwap(k.key, ValueOf(modelA, k.key), ValueOf(modelB, k.key));
      WinsSwap(metrics[..|metrics| - 1], modelA, modelB);
    }
  }

  /** Exchanging the models exchanges the overall winner. */
  lemma OverallSwap(metrics: seq<MetricKey>, modelA: Option<Model>, modelB: Option<Model>)
    ensures Overall(Wins(metrics, A, modelB, modelA), Wins(metrics, B, modelB, modelA))
         == Swap(Overall(Wins(metrics, A, modelA, modelB), Wins(metrics, B, modelA, modelB)))
  {
    WinsSwap(metrics, modelA, modelB);
  }

  /** Comparing a model with itself ties everywhere. */
  lemma {:induction false} SelfComparisonTies(metrics: seq<MetricKey>, m: Option<Model>)
    ensures Wins(metrics, A, m, m) == 0 && Wins(metrics, B, m, m) == 0
  {
    if metrics != [] {
      var k := metrics[|metrics| - 1];
      SelfComparisonTies(metrics[..|metrics| - 1], m);
      assert !Beats(k.key, ValueOf(m, k.key), ValueOf(m, k.key));
    }
  }

  predicate HasTaskType(t: TaskType, m: Model) {
    m.taskType == Some(t)
  }

  /** `selectableModels`: the models of the active task type, in their original order. */
  function SelectableModels(models: seq<Model>, activeTaskType: TaskType): (r: seq<Model>)
    ensures forall i | 0 <= i < |r| :: r[i] in models && r[i].taskType == Some(activeTaskType)
    ensures forall i | 0 <= i < |models| && models[i].taskType == Some(activeTaskType) :: models[i] in r
  {
    Filter(models, m => HasTaskType(activeTaskType, m))
  }

  /** Selection keeps the list's order: selecting from two lists one after the other is
      selecting from their concatenation. */
  lemma SelectableModelsAppend(a: seq<Model>, b: seq<Model>, t: TaskType)
    ensures SelectableModels(a + b, t) == SelectableModels(a, t) + SelectableModels(b, t)
  {
    FilterAppend(a, b, m => HasTaskType(t, m));
  }

  /** `models.find(m => m.id === id) || null`: the first model with that id. */
  function FindById(models: seq<Model>, id: int): (r: Option<Model>)
    ensures r.None? <==> forall i | 0 <= i < |models| :: models[i].id != id
    ensures r.Some? ==> exists i | 0 <= i < |models| :: models[i] == r.value && FirstWithId(models, id, i)
  {
    if models == [] then None
    else if models[0].id == id then
      assert FirstWithId(models, id, 0);
      Some(models[0])
    else
      var r := FindById(models[1..], id);
      if r.Some? then
        var i :| 0 <= i < |models[1..]| && models[1..][i] == r.value && FirstWithId(models[1..], id, i);
        assert FirstWithId(models, id, i + 1);
        r
      else r
  }

  /** `models[i]` is the first model whose id is `id`. */
  predicate FirstWithId(models: seq<Model>, id: int, i: int) {
    0 <= i < |models| && models[i].id == id && forall j | 0 <= j < i :: models[j].id != id
  }

  /** A choice in one of the two model pickers: the "Select Model …" placeholder, whose
      value `""` becomes `Number("") == 0`, or the option of a model, whose value is its id. */
  datatype Choice = Placeholder | OptionOf(id: int)

  function ChosenId(c: Choice): (id: int)
    ensures c.Placeholder? ==> id == 0
    ensures c.OptionOf? ==> id == c.id
  {
    match c
    case Placeholder => 0
    case OptionOf(id) => id
  }

  predicate UniqueIds(models: seq<Model>) {
    forall i, j | 0 <= i < j < |models| :: models[i].id != models[j].id
  }

  /** With distinct ids, choosing the option of a selectable model selects exactly that
      model, so the selection always has the active task type, although the lookup searches
      every model and not only the selectable ones. */
  lemma ChoosingSelectableModel(models: seq<Model>, t: TaskType, m: Model)
    requires UniqueIds(models)
    requires m in SelectableModels(models, t)
    ensures FindById(models, ChosenId(OptionOf(m.id))) == Some(m)
    ensures m.taskType == Some(t)
  {
    var r := FindById(models, m.id);
    var j :| 0 <= j < |models| && models[j] == m;
    assert r.Some?;
    var i :| 0 <= i < |models| && models[i] == r.value && FirstWithId(models, m.id, i);
    assert i == j;
  }

  /** Choosing the placeholder clears the selection, unless some model has id 0. */
  lemma PlaceholderClears(models: seq<Model>)
    ensures FindById(models, ChosenId(Placeholder)).None? <==> forall i | 0 <= i < |models| :: models[i].id != 0
  {
  }

  /** The comparison page's selection state. */
  class ComparePage {
    var models: seq<Model>
    var activeTaskType: TaskType
    var modelA: Option<Model>
    var modelB: Option<Model>

    constructor (initialModels: seq<Model>)
      ensures models == initialModels && activeTaskType == Classification
      ensures modelA.None? && modelB.None?
    {
      models := initialModels;
      activeTaskType := Classification;
      modelA, modelB := None, None;
    }

    /** `metricConfig` for the active tab. */
    function MetricConfig(): (r: seq<MetricKey>)
      reads this
      ensures activeTaskType == Regression ==> |r| == 2 && r[0].key == "rmse" && r[1].key == "r2_score"
      ensures activeTaskType == Classification ==>
        |r| == 3 && r[0].key == "accuracy" && r[1].key == "f1_score" && r[2].key == "auc"
    {
      ComparedMetrics(activeTaskType == Regression)
    }

    /** The two tab buttons: switch the task type, then `resetComparison`. */
    method SwitchTaskType(t: TaskType)
      modifies this`activeTaskType, this`modelA, this`modelB
      ensures activeTaskType == t && modelA.None? && modelB.None?
    {
      activeTaskType := t;
      modelA, modelB := None, None;
    }

    /** The model A picker's `onChange`: the chosen id looked up among all models. */
    method SelectModelA(c: Choice)
      modifies this`modelA
      ensures modelA == FindById(models, ChosenId(c))
      ensures UniqueIds(models) && c.OptionOf? && (exists m | m in SelectableModels(models, activeTaskType) :: m.id == c.id)
              ==> modelA.Some? && modelA.value.id == c.id && modelA.value.taskType == Some(activeTaskType)
      ensures c.Placeholder? && (forall i | 0 <= i < |models| :: models[i].id != 0) ==> modelA.None?
    {
      modelA := FindById(models, ChosenId(c));
      if UniqueIds(models) && c.OptionOf? && exists m | m in SelectableModels(models, activeTaskType) :: m.id == c.id {
        var m :| m in SelectableModels(models, activeTaskType) && m.id == c.id;
        ChoosingSelectableModel(models, activeTaskType, m);
      }
    }

    /** The model B picker's `onChange`, the same lookup as for model A. */
    method SelectModelB(c: Choice)
      modifies this`modelB
      ensures modelB == FindById(models, ChosenId(c))
      ensures UniqueIds(models) && c.OptionOf? && (exists m | m in SelectableModels(models, activeTaskType) :: m.id == c.id)
              ==> modelB.Some? && modelB.value.id == c.id && modelB.value.taskType == Some(activeTaskType)
      ensures c.Placeholder? && (forall i | 0 <= i < |models| :: models[i].id != 0) ==> modelB.None?
    {
      modelB := FindById(models, ChosenId(c));
      if UniqueIds(models) && c.OptionOf? && exists m | m in SelectableModels(models, activeTaskType) :: m.id == c.id {
        var m :| m in SelectableModels(models, activeTaskType) && m.id == c.id;
        ChoosingSelectableModel(models, activeTaskType, m);
      }
    }

    /** The overall winner card for the current selection. */
    method OverallWinner() returns (w: Winner)
      ensures w == Overall(Wins(MetricConfig(), A, modelA, modelB), Wins(MetricConfig(), B, modelA, modelB))
    {
      var modelAWins, modelBWins := Tally(MetricConfig(), modelA, modelB);
      w := Overall(modelAWins, modelBWins);
    }
  }
}
