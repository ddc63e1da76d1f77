/**
 * src/utils/index.js: distances between points, the `bestElement` argmax
 * scan and the `check` assertion helper.
 *
 * `dist` takes a square root. The model keeps the square of the distance
 * (`DistSq`) and decides every comparison against a threshold exactly, as
 * `DistBelow`, `DistAbove` and `DistAtMost` do; `SqrtComparisons` proves that
 * these agree with comparing the true square root.
 */
module Utils {
  import opened Wrappers

  /** A point or vector with real coordinates (`Vector2Struct`, lance's `TwoVector`). */
  datatype Vec2 = Vec2(x: real, y: real) {
    function Plus(o: Vec2): Vec2 { Vec2(x + o.x, y + o.y) }
    function Scale(s: real): Vec2 { Vec2(x * s, y * s) }
  }

  /** Square of the Euclidean distance that `dist(a, b)` returns. */
  function DistSq(a: Vec2, b: Vec2): (r: real)
    ensures r >= 0.0
    ensures a == b ==> r == 0.0
  {
    var dx, dy := a.x - b.x, a.y - b.y;
    SquareNonNeg(dx);
    SquareNonNeg(dy);
    dx * dx + dy * dy
  }

  lemma MulPos(p: real, q: real)
    requires 0.0 < p && 0.0 < q
    ensures 0.0 < p * q
  {}

  lemma MulNonNeg(p: real, q: real)
    requires 0.0 <= p && 0.0 <= q
    ensures 0.0 <= p * q
  {}

  lemma SquareNonNeg(d: real)
    ensures d * d >= 0.0
  {
    if d < 0.0 { MulPos(-d, -d); } else if d > 0.0 { MulPos(d, d); }
  }

  /** `dist` is symmetric. */
  lemma DistSymmetric(a: Vec2, b: Vec2)
    ensures DistSq(a, b) == DistSq(b, a)
  {
    assert (a.x - b.x) * (a.x - b.x) == (b.x - a.x) * (b.x - a.x);
    assert (a.y - b.y) * (a.y - b.y) == (b.y - a.y) * (b.y - a.y);
  }

  /** `dist(a, b) < m`. */
  predicate DistBelow(a: Vec2, b: Vec2, m: real) {
    0.0 < m && DistSq(a, b) < m * m
  }

  /** `dist(a, b) > m`. */
  predicate DistAbove(a: Vec2, b: Vec2, m: real) {
    m < 0.0 || DistSq(a, b) > m * m
  }

  /** `dist(a, b) <= m`. */
  predicate DistAtMost(a: Vec2, b: Vec2, m: real) {
    !DistAbove(a, b, m)
  }

  lemma SquareLessMonotone(s: real, m: real)
    requires 0.0 <= s && 0.0 <= m
    ensures s < m <==> s * s < m * m
  {
    assert m * m - s * s == (m - s) * (m + s);
    if s < m {
      MulPos(m - s, m + s);
    } else {
      MulNonNeg(s - m, m + s);
      assert (s - m) * (m + s) == s * s - m * m;
    }
  }

  /**
   * For the true distance `s` (the non-negative root of `DistSq(a, b)`), the
   * three threshold predicates decide `s < m`, `s > m` and `s <= m`.
   */
  lemma SqrtComparisons(a: Vec2, b: Vec2, s: real, m: real)
    requires 0.0 <= s && s * s == DistSq(a, b)
    ensures DistBelow(a, b, m) <==> s < m
    ensures DistAbove(a, b, m) <==> s > m
    ensures DistAtMost(a, b, m) <==> s <= m
  {
    if 0.0 <= m {
      SquareLessMonotone(s, m);
      SquareLessMonotone(m, s);
    }
  }

  /**
   * The index `bestElement(arr, score)` returns: the loop keeps the first
   * index whose score is strictly greater than every earlier score and
   * than -1. This is the loop read from left to right, one element at a time.
   */
  function BestOf<T>(arr: seq<T>, score: T -> real): (k: int)
    ensures -1 <= k < |arr|
    ensures k == -1 <==> forall j :: 0 <= j < |arr| ==> score(arr[j]) <= -1.0
    ensures k != -1 ==> score(arr[k]) > -1.0
    ensures k != -1 ==> forall j :: 0 <= j < |arr| ==> score(arr[j]) <= score(arr[k])
    ensures k != -1 ==> forall j :: 0 <= j < k ==> score(arr[j]) < score(arr[k])
    decreases |arr|
  {
    if |arr| == 0 then -1
    else
      var b := BestOf(arr[..|arr| - 1], score);
      var bestScore := if b == -1 then -1.0 else score(arr[b]);
      if score(arr[|arr| - 1]) > bestScore then |arr| - 1 else b
  }

  /** `bestElement`: the scan with its two running variables. */
  method BestElement<T>(arr: seq<T>, scoreFunc: T -> real) returns (bestI: int)
    ensures bestI == BestOf(arr, scoreFunc)
  {
    bestI := -1;
    var bestScore := -1.0;
    for i := 0 to |arr|
      invariant bestI == BestOf(arr[..i], scoreFunc)
      invariant bestScore == if bestI == -1 then -1.0 else scoreFunc(arr[bestI])
    {
      assert arr[..i + 1][..i] == arr[..i];
      var score := scoreFunc(arr[i]);
      if score > bestScore {
        bestScore := score;
        bestI := i;
      }
    }
    assert arr[..|arr|] == arr;
  }

  /**
   * Two score functions that are non-negative and order the elements alike
   * select the same index. Hence scoring by `DistSq` selects what scoring by
   * `dist` (its square root) selects.
   */
  lemma {:induction false} BestOfOrderInvariant<T>(arr: seq<T>, f: T -> real, g: T -> real)
    requires forall i :: 0 <= i < |arr| ==> f(arr[i]) >= 0.0 && g(arr[i]) >= 0.0
    requires forall i, j :: 0 <= i < |arr| && 0 <= j < |arr| ==>
               (f(arr[i]) < f(arr[j]) <==> g(arr[i]) < g(arr[j]))
    ensures BestOf(arr, f) == BestOf(arr, g)
    decreases |arr|
  {
    if |arr| > 0 {
      var pre := arr[..|arr| - 1];
      BestOfOrderInvariant(pre, f, g);
      assert forall i :: 0 <= i < |pre| ==> pre[i] == arr[i];
    }
  }

  /** `check(expr, errorMessage)`: throws exactly when `expr` is false. */
  function Check(expr: bool, errorMessage: string): (r: Outcome)
    ensures r == Ok <==> expr
    ensures r.Throw? ==> r.message == errorMessage
  {
    if !expr then Throw(errorMessage) else Ok
  }
}
