/** `src/lib/performance.ts`: memoisation with a key function, a registry of timed
    durations per label, and the shallow props comparison. `performance.now()` becomes a
    parameter, and `JSON.stringify` a function given to the memoised wrapper. */
module Performance {
  import opened Common

  // ---------------------------------------------------------------------------
  // memoize
  // ---------------------------------------------------------------------------

  /** `getKey ? getKey(...args) : JSON.stringify(args)` */
  function KeyFor<A>(getKey: Option<A -> string>, serialize: A -> string, args: A): (k: string)
    ensures getKey.Some? ==> k == getKey.value(args)
    ensures getKey.None? ==> k == serialize(args)
  {
    match getKey
    case Some(f) => f(args)
    case None => serialize(args)
  }

  /** One call of the memoised function on a cache: a hit returns the stored result and
      leaves the cache alone; a miss returns `func(args)` and stores it under the key. */
  function Memo<A, R>(cache: map<string, R>, key: string, args: A, func: A -> R): (res: (R, map<string, R>))
    ensures key in res.1 && res.0 == res.1[key]
    ensures key in cache ==> res.1 == cache
    ensures key !in cache ==> res.0 == func(args) && res.1.Keys == cache.Keys + {key}
    ensures forall k | k in cache :: k in res.1 && res.1[k] == cache[k]
  {
    if key in cache then (cache[key], cache) else (func(args), cache[key := func(args)])
  }

  /** Once a key has been answered, every later call with an equal key, whatever its
      arguments, returns that same result and leaves the cache as it is. */
  lemma MemoRepeat<A, R>(cache: map<string, R>, key: string, args1: A, args2: A, func: A -> R)
    ensures var first := Memo(cache, key, args1, func);
      Memo(first.1, key, args2, func) == (first.0, first.1)
  {
  }

  /** The cache holds `func`'s result for any arguments it has a key for. */
  ghost predicate Faithful<A(!new), R>(cache: map<string, R>, keyOf: A -> string, func: A -> R) {
    forall a: A | keyOf(a) in cache :: cache[keyOf(a)] == func(a)
  }

  /** When the key function tells arguments apart, a memoised call returns exactly
      `func(args)` and the cache stays faithful. */
  lemma MemoFaithful<A(!new), R>(cache: map<string, R>, keyOf: A -> string, args: A, func: A -> R)
    requires forall a: A, b: A | keyOf(a) == keyOf(b) :: a == b
    requires Faithful(cache, keyOf, func)
    ensures var res := Memo(cache, keyOf(args), args, func);
      res.0 == func(args) && Faithful(res.1, keyOf, func)
  {
    var res := Memo(cache, keyOf(args), args, func);
    forall a: A | keyOf(a) in res.1
      ensures res.1[keyOf(a)] == func(a)
    {
      if keyOf(a) == keyOf(args) {
        assert a == args;
      }
    }
  }

  /** The function `memoize` returns, with the cache it closes over. `calls` records the
      arguments of every call of `func`. */
  class Memoized<A, R> {
    const func: A -> R
    const getKey: Option<A -> string>
    const serialize: A -> string
    var cache: map<string, R>
    var calls: seq<A>

    constructor (func: A -> R, getKey: Option<A -> string>, serialize: A -> string)
      ensures this.func == func && this.getKey == getKey && this.serialize == serialize
      ensures cache == map[] && calls == []
    {
      this.func := func;
      this.getKey := getKey;
      this.serialize := serialize;
      cache := map[];
      calls := [];
    }

    function KeyOf(args: A): string
      reads this
    {
      KeyFor(getKey, serialize, args)
    }

    /** One call: `func` runs only on a miss, exactly once, and its result is stored. */
    method Call(args: A) returns (r: R)
      modifies this`cache, this`calls
      ensures (r, cache) == Memo(old(cache), KeyOf(args), args, func)
      ensures KeyOf(args) in old(cache) ==> r == old(cache)[KeyOf(args)] && calls == old(calls)
      ensures KeyOf(args) !in old(cache) ==> r == func(args) && calls == old(calls) + [args]
    {
      var key := KeyFor(getKey, serialize, args);
      if key in cache {
        return cache[key];
      }
      var result := func(args);
      calls := calls + [args];
      cache := cache[key := result];
      r := result;
    }
  }

  // ---------------------------------------------------------------------------
  // PerformanceMonitor
  // ---------------------------------------------------------------------------

  /** The stop callback `startTimer` returns: the label and the start time it captured. */
  datatype Timer = Timer(timerLabel: string, start: real)

  /** What `getMetrics` returns. */
  datatype Summary = Summary(avg: real, min: real, max: real, count: nat)

  /** `this.metrics.get(label) || []` */
  function Durations(metrics: map<string, seq<real>>, name: string): seq<real> {
    if name in metrics then metrics[name] else []
  }

  function Sum(values: seq<real>): real {
    if values == [] then 0.0 else Sum(values[..|values| - 1]) + values[|values| - 1]
  }

  /** `Math.min(...values)` of a non-empty list. */
  function Min(values: seq<real>): (r: real)
    requires values != []
    ensures r in values && forall i | 0 <= i < |values| :: r <= values[i]
  {
    if |values| == 1 then values[0]
    else
      var rest := Min(values[1..]);
      if values[0] <= rest then values[0] else rest
  }

  /** `Math.max(...values)` of a non-empty list. */
  function Max(values: seq<real>): (r: real)
    requires values != []
    ensures r in values && forall i | 0 <= i < |values| :: values[i] <= r
  {
    if |values| == 1 then values[0]
    else
      var rest := Max(values[1..]);
      if values[0] >= rest then values[0] else rest
  }

  /** The summary of one label's durations: all zeros for none, otherwise the count, the
      least and the greatest duration and their mean. */
  function Summarize(values: seq<real>): (s: Summary)
    ensures values == [] ==> s == Summary(0.0, 0.0, 0.0, 0)
    ensures values != [] ==>
      && s.count == |values| && s.min in values && s.max in values && s.min <= s.max
      && (forall i | 0 <= i < |values| :: s.min <= values[i] <= s.max)
      && s.avg == Sum(values) / (|values| as real)
  {
    if |values| == 0 then Summary(0.0, 0.0, 0.0, 0)
    else Summary(Sum(values) / (|values| as real), Min(values), Max(values), |values|)
  }

  /** The delay above which a stopped timer is reported as slow. */
  const SlowThreshold := 100.0

  class PerformanceMonitor {
    var metrics: map<string, seq<real>>

    constructor ()
      ensures metrics == map[]
    {
      metrics := map[];
    }

    /** `startTimer(label)` at time `now`: nothing is recorded until the timer stops. */
    method StartTimer(name: string, now: real) returns (t: Timer)
      ensures t.timerLabel == name && t.start == now
    {
      t := Timer(name, now);
    }

    /** Calling a timer's stop callback at time `now`: one duration is appended to its
      label, every other label keeps its list, and a duration over 100 ms is slow. */
    method Stop(t: Timer, now: real) returns (slow: bool)
      modifies this
      ensures metrics.Keys == old(metrics).Keys + {t.timerLabel}
      ensures Durations(metrics, t.timerLabel) == Durations(old(metrics), t.timerLabel) + [now - t.start]
      ensures forall l | l != t.timerLabel :: Durations(metrics, l) == Durations(old(metrics), l)
      ensures slow <==> now - t.start > SlowThreshold
    {
      var duration := now - t.start;
      if t.timerLabel !in metrics {
        metrics := metrics[t.timerLabel := []];
      }
      metrics := metrics[t.timerLabel := metrics[t.timerLabel] + [duration]];
      slow := duration > SlowThreshold;
    }

    /** `getMetrics(label)` */
    function GetMetrics(name: string): (s: Summary)
      reads this
      ensures name !in metrics || metrics[name] == [] ==> s == Summary(0.0, 0.0, 0.0, 0)
      ensures s.count == |Durations(metrics, name)|
    {
      Summarize(Durations(metrics, name))
    }

    /** `clearMetrics`: every label is forgotten. */
    method ClearMetrics()
      modifies this
      ensures metrics == map[]
      ensures forall l :: GetMetrics(l) == Summary(0.0, 0.0, 0.0, 0)
    {
      metrics := map[];
    }
  }

  /** The class's static `instance` slot. */
  class MonitorRegistry {
    var instance: PerformanceMonitor?

    constructor ()
      ensures instance == null
    {
      instance := null;
    }

    /** `getInstance`: the stored monitor, created empty on the first call. */
    method GetInstance() returns (m: PerformanceMonitor)
      modifies this
      ensures instance == m
      ensures old(instance) != null ==> m == old(instance)
      ensures old(instance) == null ==> fresh(m) && m.metrics == map[]
    {
      if instance == null {
        instance := new PerformanceMonitor();
      }
      m := instance;
    }

    /** Two calls in a row hand out the same monitor. */
    method GetInstanceTwice() returns (first: PerformanceMonitor, second: PerformanceMonitor)
      modifies this
      ensures first == second && instance == first
    {
      first := GetInstance();
      second := GetInstance();
    }
  }

  // ---------------------------------------------------------------------------
  // shouldComponentUpdate
  // ---------------------------------------------------------------------------

  /** `props[key]`, undefined when the key is absent. */
  function Prop<V>(props: map<string, V>, key: string): Option<V> {
    if key in props then Some(props[key]) else None
  }

  /** `keys.some(key => prevProps[key] !== nextProps[key])` */
  function ShouldComponentUpdate<V(==)>(prevProps: map<string, V>, nextProps: map<string, V>, keys: seq<string>): (r: bool)
    ensures r <==> exists i | 0 <= i < |keys| :: Prop(prevProps, keys[i]) != Prop(nextProps, keys[i])
    ensures keys == [] ==> !r
  {
    if keys == [] then false
    else Prop(prevProps, keys[0]) != Prop(nextProps, keys[0]) || ShouldComponentUpdate(prevProps, nextProps, keys[1..])
  }

  /** Props that agree on every listed key, including identical props, never ask for an
      update, whatever they hold elsewhere. */
  lemma SameListedPropsNoUpdate<V>(prevProps: map<string, V>, nextProps: map<string, V>, keys: seq<string>)
    requires forall i | 0 <= i < |keys| :: Prop(prevProps, keys[i]) == Prop(nextProps, keys[i])
    ensures !ShouldComponentUpdate(prevProps, nextProps, keys)
  {
  }
}
