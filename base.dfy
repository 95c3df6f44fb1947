/** The enumerations the viewer's state and settings use (types.d.ts, anim-cursor.d.ts). */
module Types {
  /** Which camera controller drives the view. */
  datatype CameraMode = Orbit | Anim | Fly

  /** The kind of device the user last pointed with. */
  datatype InputMode = Desktop | Touch

  /** How an animation cursor behaves when it reaches the end of the track. */
  datatype LoopMode = NoLoop | Repeat | PingPong

  /** The names of the `inputEvent`s the input controller fires and the camera manager handles. */
  datatype InputEvent = Frame | Reset | PlayPause | Cancel | Interrupt | Interact | DoubleClick
}

/** A value that may be absent: a missing JSON field, a `null` reference. */
module Wrappers {
  datatype Option<T> = None | Some(value: T)
}

/**
 * The part of JavaScript number semantics the viewer depends on, over exact reals.
 * Rounding is not modelled: every finite value is an exact real.
 */
module JsNumber {
  /** A JavaScript number: a finite value, or one of NaN, +Infinity, -Infinity.
      The viewer only ever tests the latter three with `isFinite`, so they are one case here. */
  datatype Num = Finite(v: real) | NonFinite

  /** `a + b`: any non-finite operand gives a non-finite sum (Infinity + -Infinity is NaN). */
  function Add(a: Num, b: Num): Num {
    if a.Finite? && b.Finite? then Finite(a.v + b.v) else NonFinite
  }

  /** `a - b`. */
  function Sub(a: Num, b: Num): Num {
    if a.Finite? && b.Finite? then Finite(a.v - b.v) else NonFinite
  }

  /** `a * b`: a non-finite factor gives a non-finite product, also against 0 (Infinity * 0 is NaN). */
  function Mul(a: Num, b: Num): Num {
    if a.Finite? && b.Finite? then Finite(a.v * b.v) else NonFinite
  }

  /** `a / b` where `b` is finite or NaN (the only divisors the viewer forms): division by zero or
      by NaN is non-finite. */
  function Div(a: Num, b: Num): Num {
    if a.Finite? && b.Finite? && b.v != 0.0 then Finite(a.v / b.v) else NonFinite
  }

  /** Reading `s[i]` from a JavaScript array: outside the array it yields `undefined`, which any
      arithmetic turns into NaN. */
  function At(s: seq<real>, i: int): Num {
    if 0 <= i < |s| then Finite(s[i]) else NonFinite
  }

  /** `Math.trunc`: rounds toward zero. */
  function Trunc(x: real): int {
    if x >= 0.0 then x.Floor else -((-x).Floor)
  }

  /** JavaScript's `n % m` on numbers: the remainder of truncating division, with the sign of `n`. */
  function Rem(n: real, m: real): real
    requires m != 0.0
  {
    n - m * (Trunc(n / m) as real)
  }

  /** For a positive modulus the remainder of a non-negative dividend lies in [0, m), and the
      dividend differs from it by a whole multiple of m. */
  lemma RemOfNonNegative(n: real, m: real)
    requires m > 0.0 && n >= 0.0
    ensures 0.0 <= Rem(n, m) < m
    ensures n - Rem(n, m) == m * ((n / m).Floor as real)
  {
    var q := n / m;
    assert q >= 0.0;
    var f := q.Floor as real;
    assert f <= q < f + 1.0;
    assert n == q * m;
    MulLeft(f, q, m);
    MulLeft(q, f + 1.0, m);
    assert q * m < (f + 1.0) * m;
    assert (f + 1.0) * m == m * f + m;
    assert n < m * f + m;
    assert m * f <= n;
    assert Rem(n, m) == n - m * f;
  }

  /** For a positive modulus the remainder of any dividend lies strictly between -m and m. */
  lemma RemBounds(n: real, m: real)
    requires m > 0.0
    ensures -m < Rem(n, m) < m
    ensures n >= 0.0 ==> Rem(n, m) >= 0.0
  {
    if n >= 0.0 {
      RemOfNonNegative(n, m);
    } else {
      RemOfNonNegative(-n, m);
      assert -n / m == -(n / m);
      assert Trunc(n / m) == -Trunc(-n / m);
      assert Rem(n, m) == -Rem(-n, m);
    }
  }

  /** Multiplying both sides of an inequality by a positive real keeps it. */
  lemma MulLeft(a: real, b: real, m: real)
    requires a <= b && m > 0.0
    ensures a * m <= b * m
    ensures a < b ==> a * m < b * m
  {
  }

  /** Adding a whole number of moduli to a non-negative dividend does not change its remainder. */
  lemma RemShift(n: real, m: real, k: int)
    requires m > 0.0 && n >= 0.0 && k >= 0
    ensures Rem(n + m * (k as real), m) == Rem(n, m)
  {
    var x := n + m * (k as real);
    assert x / m == n / m + (k as real);
    assert (x / m).Floor == (n / m).Floor + k;
    assert x / m >= 0.0;
  }
}

/** Three-component vectors over reals, standing for the engine's Vec3. */
module Vectors {
  datatype Vec3 = Vec3(x: real, y: real, z: real)

  const Zero := Vec3(0.0, 0.0, 0.0)

  function Plus(a: Vec3, b: Vec3): Vec3 {
    Vec3(a.x + b.x, a.y + b.y, a.z + b.z)
  }

  function Scale(a: Vec3, k: real): Vec3 {
    Vec3(a.x * k, a.y * k, a.z * k)
  }

  /** `new Vec3(array)`: the first three entries of a three-entry array. */
  function FromArray(a: seq<real>): Vec3
    requires |a| == 3
  {
    Vec3(a[0], a[1], a[2])
  }
}
