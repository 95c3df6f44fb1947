/** The scalar helpers of core/math: exponential ease, non-negative modulus, tolerant comparison. */
module MathUtil {
  import opened JsNumber
  import opened Vectors

  /** The facts about `2 ** x` the viewer relies on: 2^0 = 1, 2^-10 = 1/1024, and it is positive and
      increasing. `Math.pow` itself is not modelled; every function meeting this is admitted. */
  ghost predicate Pow2Like(pow2: real -> real) {
    && pow2(0.0) == 1.0
    && pow2(-10.0) == 1.0 / 1024.0
    && (forall a :: pow2(a) > 0.0)
    && (forall a, b :: a <= b ==> pow2(a) <= pow2(b))
  }

  /** `easeOut(x) = (1 - 2^(-10x)) / (1 - 2^-10)`: starts at 0, ends exactly at 1 and keeps [0, 1]
      inside [0, 1]. */
  function EaseOut(pow2: real -> real, x: real): (r: real)
    requires Pow2Like(pow2)
    ensures x == 0.0 ==> r == 0.0
    ensures x == 1.0 ==> r == 1.0
    ensures 0.0 <= x <= 1.0 ==> 0.0 <= r <= 1.0
  {
    EaseOutBounds(pow2, x);
    (1.0 - pow2(-10.0 * x)) / (1.0 - pow2(-10.0))
  }

  lemma EaseOutBounds(pow2: real -> real, x: real)
    requires Pow2Like(pow2)
    ensures 0.0 <= x <= 1.0 ==> 0.0 <= (1.0 - pow2(-10.0 * x)) / (1.0 - pow2(-10.0)) <= 1.0
  {
    var d := 1.0 - pow2(-10.0);
    assert d == 1023.0 / 1024.0;
    if 0.0 <= x <= 1.0 {
      assert pow2(-10.0) <= pow2(-10.0 * x) <= pow2(0.0);
      assert 0.0 <= 1.0 - pow2(-10.0 * x) <= d;
      DivideBelow(1.0 - pow2(-10.0 * x), d);
    }
  }

  /** A value between 0 and a positive bound, divided by that bound, lies in [0, 1], and below 1
      when the value is below the bound. */
  lemma DivideBelow(a: real, d: real)
    requires d > 0.0 && 0.0 <= a <= d
    ensures 0.0 <= a / d <= 1.0
    ensures a < d ==> a / d < 1.0
  {
    var q := a / d;
    assert q * d == a;
    if q >= 1.0 && a < d {
      MulLeft(1.0, q, d);
      assert false;
    }
    if q > 1.0 {
      MulLeft(1.0, q, d);
      assert false;
    }
    if q < 0.0 {
      MulLeft(q, 0.0, d);
      assert false;
    }
  }

  /** Easing never runs backwards: a later blend time gives a weight at least as large. */
  lemma EaseOutMonotone(pow2: real -> real, x: real, y: real)
    requires Pow2Like(pow2) && x <= y
    ensures EaseOut(pow2, x) <= EaseOut(pow2, y)
  {
    var d := 1.0 - pow2(-10.0);
    assert pow2(-10.0 * y) <= pow2(-10.0 * x);
    var a := 1.0 - pow2(-10.0 * x);
    var b := 1.0 - pow2(-10.0 * y);
    assert a <= b;
    assert d > 0.0;
    assert a / d <= b / d by {
      MulLeft(a, b, 1.0 / d);
    }
  }

  /** `mod(n, m) = ((n % m) + m) % m` with JavaScript's truncating `%`. */
  function Mod(n: real, m: real): real
    requires m != 0.0
  {
    Rem(Rem(n, m) + m, m)
  }

  /** For a positive modulus, `mod` is the floored remainder: it lies in [0, m) and differs from `n`
      by the whole multiple `m * floor(n / m)`. */
  lemma ModIsFlooredRemainder(n: real, m: real)
    requires m > 0.0
    ensures 0.0 <= Mod(n, m) < m
    ensures n - Mod(n, m) == m * ((n / m).Floor as real)
  {
    var r1 := Rem(n, m);
    var t := RemSplit(n, m);
    var x := r1 + m;
    RemOfNonNegative(x, m);
    var r := Rem(x, m);
    var f := (x / m).Floor;
    TwoMultiples(n, m, r1, r, t, f);
    FloorOfQuotient(n, m, t + f - 1, r);
  }

  /** `n % m` splits `n` into a whole multiple of `m` and a remainder strictly between -m and m. */
  lemma RemSplit(n: real, m: real) returns (t: int)
    requires m > 0.0
    ensures -m < Rem(n, m) < m && n - Rem(n, m) == m * (t as real)
  {
    RemBounds(n, m);
    t := Trunc(n / m);
  }

  /** If n is r1 plus t whole m's, and r1 + m is r plus f whole m's, then n is r plus t + f - 1. */
  lemma TwoMultiples(n: real, m: real, r1: real, r: real, t: int, f: int)
    requires n - r1 == m * (t as real) && r1 + m - r == m * (f as real)
    ensures n == m * ((t + f - 1) as real) + r
  {
    assert m * ((t + f - 1) as real) == m * (t as real) + m * (f as real) - m;
  }

  /** If n = m*k + r with 0 <= r < m, then floor(n / m) = k. */
  lemma FloorOfQuotient(n: real, m: real, k: int, r: real)
    requires m > 0.0 && 0.0 <= r < m && n == m * (k as real) + r
    ensures (n / m).Floor == k
  {
    DivideBelow(r, m);
    assert n / m == (k as real) + r / m;
  }

  /** For a positive modulus, `mod(n, m)` is the only r in [0, m) that differs from n by a whole
      multiple of m. */
  lemma ModUnique(n: real, m: real, k: int, r: real)
    requires m > 0.0 && 0.0 <= r < m && n == m * (k as real) + r
    ensures Mod(n, m) == r
  {
    ModIsFlooredRemainder(n, m);
    FloorOfQuotient(n, m, k, r);
  }

  /** `mod(n, m)` splits `n` into a whole multiple of `m` and a remainder in [0, m). */
  lemma ModSplit(n: real, m: real) returns (k: int)
    requires m > 0.0
    ensures 0.0 <= Mod(n, m) < m && n - Mod(n, m) == m * (k as real)
  {
    ModIsFlooredRemainder(n, m);
    k := (n / m).Floor;
  }

  /** Numbers a whole multiple of `m` apart have the same `mod`. */
  lemma ModCongruent(a: real, b: real, m: real, j: int)
    requires m > 0.0 && a - b == m * (j as real)
    ensures Mod(a, m) == Mod(b, m)
  {
    var r := Mod(b, m);
    var k := ModSplit(b, m);
    assert a == m * ((j + k) as real) + r by {
      assert m * ((j + k) as real) == m * (j as real) + m * (k as real);
    }
    ModUnique(a, m, j + k, r);
  }

  /** Reducing before an addition does not change the reduced sum. */
  lemma ModAdd(x: real, y: real, m: real)
    requires m > 0.0
    ensures Mod(Mod(x, m) + y, m) == Mod(x + y, m)
  {
    var k := ModSplit(x, m);
    assert Mod(x, m) + y - (x + y) == m * ((-k) as real);
    ModCongruent(Mod(x, m) + y, x + y, m, -k);
  }

  /** `Math.min` and `Math.max` on finite numbers. */
  function Min(a: real, b: real): real {
    if a <= b then a else b
  }

  function Max(a: real, b: real): real {
    if a >= b then a else b
  }

  /** The default tolerance of `nearlyEquals`. */
  const DefaultEpsilon: real := 0.0001

  function Abs(x: real): real {
    if x < 0.0 then -x else x
  }

  /** One step of the `some` scan: `Math.abs(v - b[i]) >= epsilon`. A missing `b[i]` is `undefined`,
      the difference is NaN, and a comparison with NaN is false. */
  predicate Far(v: real, w: Num, epsilon: real) {
    w.Finite? && Abs(v - w.v) >= epsilon
  }

  /** `a.some(...)` over the indices from `i` on. */
  predicate AnyFar(a: seq<real>, b: seq<real>, epsilon: real, i: nat)
    decreases |a| - i
  {
    if i >= |a| then false else Far(a[i], At(b, i), epsilon) || AnyFar(a, b, epsilon, i + 1)
  }

  /** `nearlyEquals(a, b, epsilon) = !a.some((v, i) => Math.abs(v - b[i]) >= epsilon)`. */
  predicate NearlyEquals(a: seq<real>, b: seq<real>, epsilon: real) {
    !AnyFar(a, b, epsilon, 0)
  }

  lemma {:induction false} AnyFarMeans(a: seq<real>, b: seq<real>, epsilon: real, i: nat)
    ensures AnyFar(a, b, epsilon, i) <==>
      exists k :: i <= k < |a| && k < |b| && Abs(a[k] - b[k]) >= epsilon
    decreases |a| - i
  {
    if i < |a| {
      AnyFarMeans(a, b, epsilon, i + 1);
      if i < |b| && Abs(a[i] - b[i]) >= epsilon {
        assert i <= i < |a| && i < |b| && Abs(a[i] - b[i]) >= epsilon;
      }
    }
  }

  /** `nearlyEquals` holds exactly when every index of `a` that `b` also has differs by less than
      epsilon; indices beyond the end of `b` are never counted as far apart. */
  lemma NearlyEqualsMeans(a: seq<real>, b: seq<real>, epsilon: real)
    ensures NearlyEquals(a, b, epsilon) <==>
      forall k :: 0 <= k < |a| && k < |b| ==> Abs(a[k] - b[k]) < epsilon
  {
    AnyFarMeans(a, b, epsilon, 0);
  }

  /** Every array is nearly equal to itself for any positive tolerance. */
  lemma NearlyEqualsReflexive(a: seq<real>, epsilon: real)
    requires epsilon > 0.0
    ensures NearlyEquals(a, a, epsilon)
  {
    NearlyEqualsMeans(a, a, epsilon);
  }

  /** The engine's mutable Vec3, for `vecToAngles`, which writes into the object it is given. */
  class MutableVec3 {
    var x: real
    var y: real
    var z: real

    constructor (x: real, y: real, z: real)
      ensures this.x == x && this.y == y && this.z == z
    {
      this.x, this.y, this.z := x, y, z;
    }
  }

  /** `vecToAngles(result, vec)`: pitch from `asin(vec.y)`, yaw from `atan2(-vec.x, -vec.z)` (both in
      degrees, given as functions), roll set to 0; returns the very object it wrote into. */
  method VecToAngles(result: MutableVec3, vec: Vec3, asinDeg: real -> real, atan2Deg: (real, real) -> real)
    returns (r: MutableVec3)
    modifies result
    ensures r == result
    ensures result.z == 0.0
    ensures result.x == asinDeg(vec.y) && result.y == atan2Deg(-vec.x, -vec.z)
  {
    result.x := asinDeg(vec.y);
    result.y := atan2Deg(-vec.x, -vec.z);
    result.z := 0.0;
    r := result;
  }
}
