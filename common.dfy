/** Shared vocabulary of the ModelWhiz client model: optional values, the parts of
    JavaScript string semantics the components rely on, metric values and the Model record. */
module Common {

  datatype Option<+T> = None | Some(value: T) {
    function GetOr(default: T): T {
      match this
      case Some(v) => v
      case None => default
    }
  }

  datatype Result<+R, +E> = Ok(value: R) | Err(error: E)

  /** The status a Chakra toast is shown with. */
  datatype ToastStatus = SuccessToast | ErrorToast | WarningToast

  /** A toast as the user sees it; its duration, position and close button are left out. */
  datatype Toast = Toast(title: string, description: Option<string>, status: ToastStatus)

  /** A string-valued field is truthy when it is present and not empty. */
  predicate Truthy(s: Option<string>) {
    s.Some? && s.value != ""
  }

  /** `a || fallback` */
  function OrElse(a: Option<string>, fallback: string): (r: string)
    ensures Truthy(a) ==> r == a.value
    ensures !Truthy(a) ==> r == fallback
  {
    if Truthy(a) then a.value else fallback
  }

  // ---------------------------------------------------------------------------
  // JavaScript strings
  // ---------------------------------------------------------------------------

  /** The characters matched by the regular-expression class `\s` and removed by
      `String.prototype.trim`: ECMAScript WhiteSpace and LineTerminator code points. */
  predicate IsSpace(c: char) {
    var n := c as int;
    (0x09 <= n <= 0x0D) || n == 0x20 || n == 0xA0 || n == 0x1680 ||
    (0x2000 <= n <= 0x200A) || n == 0x2028 || n == 0x2029 || n == 0x202F ||
    n == 0x205F || n == 0x3000 || n == 0xFEFF
  }

  predicate AllSpace(s: string) {
    forall i | 0 <= i < |s| :: IsSpace(s[i])
  }

  /** `s.trimStart()` */
  function TrimStart(s: string): (r: string)
    ensures |r| <= |s|
  {
    if s == [] || !IsSpace(s[0]) then s else TrimStart(s[1..])
  }

  /** `s.trimEnd()` */
  function TrimEnd(s: string): (r: string)
    ensures |r| <= |s|
  {
    if s == [] || !IsSpace(s[|s| - 1]) then s else TrimEnd(s[..|s| - 1])
  }

  /** `s.trim()` */
  function Trim(s: string): (r: string)
    ensures |r| <= |s|
  {
    TrimEnd(TrimStart(s))
  }

  /** `trimStart` removes a whitespace prefix and stops at the first other character. */
  lemma {:induction false} TrimStartShape(s: string)
    ensures var r := TrimStart(s);
      && r == s[|s| - |r|..] && AllSpace(s[..|s| - |r|]) && (r != [] ==> !IsSpace(r[0]))
  {
    if s != [] && IsSpace(s[0]) {
      TrimStartShape(s[1..]);
      var r := TrimStart(s[1..]);
      assert s[1..][..|s[1..]| - |r|] == s[1..|s| - |r|];
    }
  }

  /** `trimEnd` removes a whitespace suffix and stops at the last other character. */
  lemma {:induction false} TrimEndShape(s: string)
    ensures var r := TrimEnd(s);
      && r == s[..|r|] && AllSpace(s[|r|..]) && (r != [] ==> !IsSpace(r[|r| - 1]))
  {
    if s != [] && IsSpace(s[|s| - 1]) {
      TrimEndShape(s[..|s| - 1]);
      var r := TrimEnd(s[..|s| - 1]);
      assert s[..|s| - 1][|r|..] == s[|r|..|s| - 1];
      assert forall i | 0 <= i < |s| - |r| - 1 :: s[|r|..][i] == s[|r|..|s| - 1][i];
    }
  }

  /** `trim` leaves the slice of `s` between a whitespace prefix and a whitespace suffix,
      and that slice neither starts nor ends with whitespace. */
  lemma TrimShape(s: string)
    ensures var r := Trim(s);
      && (exists i, j :: 0 <= i <= j <= |s| && r == s[i..j] && AllSpace(s[..i]) && AllSpace(s[j..]))
      && (r != [] ==> !IsSpace(r[0]) && !IsSpace(r[|r| - 1]))
  {
    var a := TrimStart(s);
    var r := TrimEnd(a);
    TrimStartShape(s);
    TrimEndShape(a);
    var i := |s| - |a|;
    var j := i + |r|;
    assert r == s[i..j];
    assert s[j..] == a[|r|..];
  }

  lemma {:induction false} TrimStartOfAllSpace(s: string)
    requires AllSpace(s)
    ensures TrimStart(s) == []
  {
    if s != [] {
      assert AllSpace(s[1..]) by { assert forall i | 0 <= i < |s| - 1 :: s[1..][i] == s[i + 1]; }
      TrimStartOfAllSpace(s[1..]);
    }
  }

  /** Blank input (`!s.trim()`) is exactly input made only of whitespace. */
  lemma TrimEmptyIffAllSpace(s: string)
    ensures Trim(s) == [] <==> AllSpace(s)
  {
    var a := TrimStart(s);
    TrimStartShape(s);
    TrimEndShape(a);
    if AllSpace(s) {
      TrimStartOfAllSpace(s);
    } else {
      var n := |s| - |a|;
      var k :| 0 <= k < |s| && !IsSpace(s[k]);
      assert forall i | 0 <= i < n :: IsSpace(s[i]) by {
        assert forall i | 0 <= i < n :: s[..n][i] == s[i];
      }
      assert a[k - n] == s[k];
      var e := TrimEnd(a);
      assert forall i | |e| <= i < |a| :: IsSpace(a[i]) by {
        assert forall i | |e| <= i < |a| :: a[|e|..][i - |e|] == a[i];
      }
    }
  }

  /** A string without whitespace at either end is its own trim, so trimming twice is
      trimming once. */
  lemma TrimIdempotent(s: string)
    ensures Trim(Trim(s)) == Trim(s)
  {
    TrimShape(s);
    var r := Trim(s);
    if r != [] {
      assert TrimStart(r) == r;
      assert TrimEnd(r) == r;
    }
  }

  /** The value of `s.length`: the number of UTF-16 code units of `s`. */
  function JsLength(s: string): (n: nat)
    ensures n >= |s|
    ensures (forall i | 0 <= i < |s| :: s[i] as int < 0x10000) ==> n == |s|
  {
    if s == [] then 0
    else (if s[0] as int < 0x10000 then 1 else 2) + JsLength(s[1..])
  }

  predicate IsAsciiLower(c: char) { 'a' <= c <= 'z' }
  predicate IsAsciiUpper(c: char) { 'A' <= c <= 'Z' }
  predicate IsAsciiDigit(c: char) { '0' <= c <= '9' }
  predicate IsAsciiAlnum(c: char) { IsAsciiLower(c) || IsAsciiUpper(c) || IsAsciiDigit(c) }

  function LowerChar(c: char): (d: char)
    ensures !IsAsciiUpper(d)
    ensures IsAsciiUpper(c) ==> d as int == c as int + 32
    ensures !IsAsciiUpper(c) ==> d == c
  {
    if IsAsciiUpper(c) then (c as int + 32) as char else c
  }

  /** `s.toLowerCase()`, for the ASCII letters. */
  function ToLower(s: string): (r: string)
    ensures |r| == |s|
    ensures forall i | 0 <= i < |s| :: r[i] == LowerChar(s[i])
  {
    if s == [] then [] else [LowerChar(s[0])] + ToLower(s[1..])
  }

  /** `s.includes(t)`: `t` occurs in `s` as a contiguous piece. */
  predicate Includes(s: string, t: string)
    decreases |s|
  {
    |t| <= |s| && (s[..|t|] == t || Includes(s[1..], t))
  }

  /** Every string includes the empty string. */
  lemma IncludesEmpty(s: string)
    ensures Includes(s, "")
  {
  }

  /** `parts.join(sep)` */
  function Join(parts: seq<string>, sep: string): (r: string)
    ensures parts == [] ==> r == ""
    ensures |parts| == 1 ==> r == parts[0]
  {
    if parts == [] then ""
    else if |parts| == 1 then parts[0]
    else parts[0] + sep + Join(parts[1..], sep)
  }

  function DigitChar(d: nat): char
    requires d < 10
  {
    ['0', '1', '2', '3', '4', '5', '6', '7', '8', '9'][d]
  }

  /** `String(n)` for a non-negative integer: its decimal digits. */
  function NatToString(n: nat): (r: string)
    ensures r != []
    ensures forall i | 0 <= i < |r| :: IsAsciiDigit(r[i])
  {
    if n < 10 then [DigitChar(n)] else NatToString(n / 10) + [DigitChar(n % 10)]
  }

  /** `s.filter(p)` */
  function Filter<T>(s: seq<T>, p: T -> bool): (r: seq<T>)
    ensures |r| <= |s|
    ensures forall i | 0 <= i < |r| :: r[i] in s && p(r[i])
    ensures forall i | 0 <= i < |s| && p(s[i]) :: s[i] in r
  {
    if s == [] then [] else (if p(s[0]) then [s[0]] else []) + Filter(s[1..], p)
  }

  /** Filtering keeps the order: it distributes over concatenation. */
  lemma {:induction false} FilterAppend<T>(a: seq<T>, b: seq<T>, p: T -> bool)
    ensures Filter(a + b, p) == Filter(a, p) + Filter(b, p)
  {
    if a == [] {
      assert a + b == b;
    } else {
      assert (a + b)[1..] == a[1..] + b;
      FilterAppend(a[1..], b, p);
    }
  }

  /** `s.map(f)` */
  function MapSeq<T, U>(s: seq<T>, f: T -> U): (r: seq<U>)
    ensures |r| == |s|
    ensures forall i | 0 <= i < |s| :: r[i] == f(s[i])
  {
    if s == [] then [] else [f(s[0])] + MapSeq(s[1..], f)
  }

  lemma {:induction false} MapSeqAppend<T, U>(a: seq<T>, b: seq<T>, f: T -> U)
    ensures MapSeq(a + b, f) == MapSeq(a, f) + MapSeq(b, f)
  {
    if a == [] {
      assert a + b == b;
    } else {
      assert (a + b)[1..] == a[1..] + b;
      MapSeqAppend(a[1..], b, f);
    }
  }

  /** What a run of calls that each push zero or more items onto one array leaves there:
      the items of `step(k)` for each `k` of `keys`, in order. */
  function Collect<K, P>(keys: seq<K>, step: K -> seq<P>): seq<P> {
    if keys == [] then [] else Collect(keys[..|keys| - 1], step) + step(keys[|keys| - 1])
  }

  lemma CollectSnoc<K, P>(keys: seq<K>, k: K, step: K -> seq<P>)
    ensures Collect(keys + [k], step) == Collect(keys, step) + step(k)
  {
    assert (keys + [k])[..|keys|] == keys;
  }

  /** Runs of two to five calls, unrolled. */
  lemma Collect2<K, P>(keys: seq<K>, step: K -> seq<P>)
    requires |keys| == 2
    ensures Collect(keys, step) == [] + step(keys[0]) + step(keys[1])
  {
    var first := keys[..1];
    assert first[..0] == [] && first[0] == keys[0];
    assert Collect(first, step) == [] + step(keys[0]);
  }

  lemma Collect3<K, P>(keys: seq<K>, step: K -> seq<P>)
    requires |keys| == 3
    ensures Collect(keys, step) == [] + step(keys[0]) + step(keys[1]) + step(keys[2])
  {
    Collect2(keys[..2], step);
  }

  lemma Collect4<K, P>(keys: seq<K>, step: K -> seq<P>)
    requires |keys| == 4
    ensures Collect(keys, step) == [] + step(keys[0]) + step(keys[1]) + step(keys[2]) + step(keys[3])
  {
    Collect3(keys[..3], step);
  }

  lemma Collect5<K, P>(keys: seq<K>, step: K -> seq<P>)
    requires |keys| == 5
    ensures Collect(keys, step) == [] + step(keys[0]) + step(keys[1]) + step(keys[2]) + step(keys[3]) + step(keys[4])
  {
    Collect4(keys[..4], step);
  }

  /** Nothing is pushed exactly when no call pushes anything. */
  lemma {:induction false} CollectEmptyIff<K, P>(keys: seq<K>, step: K -> seq<P>)
    ensures Collect(keys, step) == [] <==> forall i | 0 <= i < |keys| :: step(keys[i]) == []
  {
    if keys != [] {
      var init := keys[..|keys| - 1];
      CollectEmptyIff(init, step);
      assert forall i | 0 <= i < |init| :: init[i] == keys[i];
    }
  }

  /** Calls that push at most one item each push at most one item per key. */
  lemma {:induction false} CollectLength<K, P>(keys: seq<K>, step: K -> seq<P>)
    requires forall i | 0 <= i < |keys| :: |step(keys[i])| <= 1
    ensures |Collect(keys, step)| <= |keys|
  {
    if keys != [] {
      var init := keys[..|keys| - 1];
      assert forall i | 0 <= i < |init| :: init[i] == keys[i];
      CollectLength(init, step);
    }
  }

  /** Calls that push `f(k)` when `p(k)` holds and nothing otherwise leave the image of
      the keys satisfying `p`, in order. */
  lemma {:induction false} CollectIsFilterMap<K, P>(keys: seq<K>, step: K -> seq<P>, p: K -> bool, f: K -> P)
    requires forall i | 0 <= i < |keys| :: step(keys[i]) == if p(keys[i]) then [f(keys[i])] else []
    ensures Collect(keys, step) == MapSeq(Filter(keys, p), f)
  {
    if keys != [] {
      var init := keys[..|keys| - 1];
      var last := keys[|keys| - 1];
      assert forall i | 0 <= i < |init| :: init[i] == keys[i];
      CollectIsFilterMap(init, step, p, f);
      SplitLast(keys);
      FilterAppend(init, [last], p);
      FilterMapSingleton(last, step, p, f);
      MapSeqAppend(Filter(init, p), Filter([last], p), f);
    }
  }

  lemma SplitLast<T>(s: seq<T>)
    requires s != []
    ensures s == s[..|s| - 1] + [s[|s| - 1]]
  {
  }

  lemma FilterMapSingleton<K, P>(k: K, step: K -> seq<P>, p: K -> bool, f: K -> P)
    requires step(k) == if p(k) then [f(k)] else []
    ensures MapSeq(Filter([k], p), f) == step(k)
  {
    assert [k][1..] == [];
  }

  // ---------------------------------------------------------------------------
  // Metrics and models
  // ---------------------------------------------------------------------------

  /** A value found in a `latest_metrics` object: a finite number, NaN, or JSON null.
      An absent key is a key that is not in the map. */
  datatype MetricValue = Num(v: real) | NaN | Null

  type Metrics = map<string, MetricValue>

  /** `typeof v === 'number' && !isNaN(v)` */
  predicate IsValidNumber(v: Option<MetricValue>) {
    v.Some? && v.value.Num?
  }

  function Lookup(m: Metrics, key: string): Option<MetricValue> {
    if key in m then Some(m[key]) else None
  }

  /** `m?.[key]` on a `latest_metrics` that may itself be null. */
  function LookupIn(m: Option<Metrics>, key: string): Option<MetricValue> {
    if m.Some? then Lookup(m.value, key) else None
  }

  /** Both `(isValid ? v : 0)` and `(v || 0)` on a metric value: finite numbers pass
      through (a numeric 0 gives 0 either way), everything else becomes 0. */
  function NumberOrZero(v: Option<MetricValue>): (r: real)
    ensures IsValidNumber(v) ==> r == v.value.v
    ensures !IsValidNumber(v) ==> r == 0.0
  {
    if v.Some? && v.value.Num? then v.value.v else 0.0
  }

  datatype TaskType = Classification | Regression

  /** A model record as the API returns it; `task_type` may be missing. */
  datatype Model = Model(
    id: int,
    name: string,
    version: string,
    taskType: Option<TaskType>,
    latestMetrics: Option<Metrics>)

  /** The metric keys and labels the comparison views show, in display order. */
  datatype MetricKey = MetricKey(key: string, caption: string)

  function ComparedMetrics(isRegression: bool): (r: seq<MetricKey>)
    ensures isRegression ==> |r| == 2 && r[0].key == "rmse" && r[1].key == "r2_score"
    ensures !isRegression ==> |r| == 3 && r[0].key == "accuracy" && r[1].key == "f1_score"
                                         && r[2].key == "auc"
  {
    if isRegression then [MetricKey("rmse", "RMSE"), MetricKey("r2_score", "R² Score")]
    else [MetricKey("accuracy", "Accuracy"), MetricKey("f1_score", "F1 Score"), MetricKey("auc", "AUC")]
  }
}
