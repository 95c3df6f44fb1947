/** core/spline: cubic Hermite interpolation over keyframed control points. */
module Spline {
  import opened JsNumber
  import opened MathUtil

  // ---------------------------------------------------------------------------------------------
  // Knot layout. Control point i holds `dim` channels; channel j of point i is the flat point
  // index `i * dim + j`, and its knot entries [in-tangent, value, out-tangent] start at three times
  // that index. `Offset(i, dim)` is `i * dim` built up one point at a time, which keeps the layout
  // arithmetic linear; `OffsetIsProduct` connects it to the products the source computes.

  /** Flat index of channel 0 of control point i. */
  function Offset(i: nat, dim: nat): nat {
    if i == 0 then 0 else Offset(i - 1, dim) + dim
  }

  lemma {:induction false} OffsetIsProduct(i: nat, dim: nat)
    ensures Offset(i, dim) == i * dim
  {
    if i > 0 {
      OffsetIsProduct(i - 1, dim);
      assert (i - 1) * dim + dim == i * dim;
    }
  }

  /** All channels of an earlier point come before the start of a later one. */
  lemma {:induction false} OffsetMonotone(i: nat, n: nat, dim: nat)
    requires i < n
    ensures Offset(i, dim) + dim <= Offset(n, dim)
    decreases n - i
  {
    if i + 1 < n {
      OffsetMonotone(i + 1, n, dim);
    }
  }

  /** Position of entry k (0 in-tangent, 1 value, 2 out-tangent) of channel j of control point i. */
  function Slot(dim: nat, i: nat, j: nat, k: nat): nat {
    (Offset(i, dim) + j) * 3 + k
  }

  /** Reading that entry from a JavaScript array (beyond the end it is `undefined`, i.e. NaN). */
  function KnotAt(knots: seq<Num>, dim: nat, i: nat, j: nat, k: nat): Num {
    var s := Slot(dim, i, j, k);
    if s < |knots| then knots[s] else NonFinite
  }

  /** Every entry of an existing point and channel lies inside the knots of n points. */
  lemma SlotBound(n: nat, dim: nat, i: nat, j: nat, k: nat)
    requires i < n && j < dim && k < 3
    ensures Slot(dim, i, j, k) < Offset(n, dim) * 3
  {
    OffsetMonotone(i, n, dim);
  }

  /** The four knot entries a segment reads for channel j, relative to the channel's first entry. */
  lemma SegmentSlots(n: nat, dim: nat, seg: nat, j: nat)
    requires seg + 1 < n && j < dim
    ensures Slot(dim, seg, j, 1) == Slot(dim, seg, j, 0) + 1
    ensures Slot(dim, seg, j, 2) == Slot(dim, seg, j, 0) + 2
    ensures Slot(dim, seg + 1, j, 0) == Slot(dim, seg, j, 0) + dim * 3
    ensures Slot(dim, seg + 1, j, 1) == Slot(dim, seg, j, 0) + dim * 3 + 1
    ensures Slot(dim, seg + 1, j, 1) < Offset(n, dim) * 3
    ensures Slot(dim, seg, j + 1, 0) == Slot(dim, seg, j, 0) + 3
  {
    SlotBound(n, dim, seg + 1, j, 1);
  }

  lemma MulMonotone(a: nat, b: nat, c: nat)
    requires a <= b
    ensures a * c <= b * c
  {
  }

  /** Division and remainder by d recover i and j from i * d + j. */
  lemma DivModUnique(q: int, d: int, i: int, j: int)
    requires d > 0 && 0 <= j < d && q == i * d + j
    ensures q / d == i && q % d == j
  {
    var a := q / d;
    var b := q % d;
    assert q == a * d + b && 0 <= b < d;
    assert (a - i) * d == j - b;
    if a > i {
      assert (a - i) * d >= d by { MulMonotone(1, a - i, d); }
      assert false;
    }
    if a < i {
      assert (i - a) * d >= d by { MulMonotone(1, i - a, d); }
      assert false;
    }
  }

  /** `knots.length / times.length / 3` recovers the channel count. */
  lemma ChannelCount(n: nat, dim: nat)
    requires n >= 1
    ensures n * dim * 3 / n / 3 == dim
  {
    DivModUnique(n * dim * 3, n, dim * 3, 0);
  }

  /** Times that strictly increase, as keyframe times are meant to. */
  ghost predicate StrictlyIncreasing(s: seq<real>) {
    forall a, b :: 0 <= a < b < |s| ==> s[a] < s[b]
  }

  // ---------------------------------------------------------------------------------------------
  // calcKnots

  /** Channels per control point: `points.length / times.length`. */
  function Dim(times: seq<real>, points: seq<real>): nat
    requires |times| >= 1
  {
    |points| / |times|
  }

  /** The finite-difference slope at control point i, channel j: one-sided at the first and the last
      point, centred in between. Reads past either end are `undefined`, so a single control point
      gets a NaN slope. */
  function RawTangent(times: seq<real>, points: seq<real>, dim: nat, i: nat, j: nat): Num {
    var n := |times|;
    var idx := Offset(i, dim) + j;
    var p := At(points, idx);
    var t := At(times, i);
    if i == 0 then Div(Sub(At(points, idx + dim), p), Sub(At(times, i + 1), t))
    else if i == n - 1 then Div(Sub(p, At(points, idx - dim)), Sub(t, At(times, i - 1)))
    else Div(Sub(At(points, idx + dim), At(points, idx - dim)), Sub(At(times, i + 1), At(times, i - 1)))
  }

  /** Length of the segment ending at point i (the first segment for point 0). */
  function InScale(times: seq<real>, i: nat): Num {
    if i > 0 then Sub(At(times, i), At(times, i - 1)) else Sub(At(times, 1), At(times, 0))
  }

  /** Length of the segment starting at point i (the last segment for the last point). */
  function OutScale(times: seq<real>, i: nat): Num {
    if i < |times| - 1 then Sub(At(times, i + 1), At(times, i)) else Sub(At(times, i), At(times, i - 1))
  }

  /** The entry calcKnots stores: tangents are the slope scaled to the adjacent segment and by
      smoothness (converting to derivatives in the segment's normalised time); the value is the
      control point itself. */
  function KnotEntry(times: seq<real>, points: seq<real>, smoothness: real, dim: nat, i: nat, j: nat, k: nat): Num {
    if k == 0 then Mul(Mul(RawTangent(times, points, dim, i, j), InScale(times, i)), Finite(smoothness))
    else if k == 1 then At(points, Offset(i, dim) + j)
    else Mul(Mul(RawTangent(times, points, dim, i, j), OutScale(times, i)), Finite(smoothness))
  }

  /** The three entries calcKnots stores for point i, channel j. */
  function ChannelKnots(times: seq<real>, points: seq<real>, smoothness: real, dim: nat, i: nat, j: nat): seq<Num> {
    [KnotEntry(times, points, smoothness, dim, i, j, 0),
     KnotEntry(times, points, smoothness, dim, i, j, 1),
     KnotEntry(times, points, smoothness, dim, i, j, 2)]
  }

  /** The entries of channels 0 .. j-1 of point i, in storage order. */
  function ChannelsUpTo(times: seq<real>, points: seq<real>, smoothness: real, dim: nat, i: nat, j: nat): (r: seq<Num>)
    ensures |r| == 3 * j
  {
    if j == 0 then []
    else ChannelsUpTo(times, points, smoothness, dim, i, j - 1) + ChannelKnots(times, points, smoothness, dim, i, j - 1)
  }

  /** The entries of points 0 .. i-1, in storage order. */
  function KnotsUpTo(times: seq<real>, points: seq<real>, smoothness: real, dim: nat, i: nat): (r: seq<Num>)
    ensures |r| == Offset(i, dim) * 3
  {
    if i == 0 then []
    else KnotsUpTo(times, points, smoothness, dim, i - 1) + ChannelsUpTo(times, points, smoothness, dim, i - 1, dim)
  }

  /** The knot array calcKnots(times, points, smoothness) returns. */
  function KnotsOf(times: seq<real>, points: seq<real>, smoothness: real): seq<Num>
    requires |times| >= 1
  {
    KnotsUpTo(times, points, smoothness, Dim(times, points), |times|)
  }

  lemma {:induction false} ChannelsUpToAt(times: seq<real>, points: seq<real>, smoothness: real, dim: nat, i: nat, j: nat, c: nat, k: nat)
    requires c < j && k < 3
    ensures ChannelsUpTo(times, points, smoothness, dim, i, j)[3 * c + k] == KnotEntry(times, points, smoothness, dim, i, c, k)
  {
    if c < j - 1 {
      ChannelsUpToAt(times, points, smoothness, dim, i, j - 1, c, k);
    }
  }

  lemma {:induction false} KnotsUpToAt(times: seq<real>, points: seq<real>, smoothness: real, dim: nat, m: nat, i: nat, j: nat, k: nat)
    requires i < m && j < dim && k < 3
    ensures Slot(dim, i, j, k) < |KnotsUpTo(times, points, smoothness, dim, m)|
    ensures KnotsUpTo(times, points, smoothness, dim, m)[Slot(dim, i, j, k)] == KnotEntry(times, points, smoothness, dim, i, j, k)
  {
    SlotBound(m, dim, i, j, k);
    if i < m - 1 {
      KnotsUpToAt(times, points, smoothness, dim, m - 1, i, j, k);
      EarlierPoint(times, points, smoothness, dim, m - 1, Slot(dim, i, j, k));
    } else {
      LastPoint(times, points, smoothness, dim, i, j, k);
    }
  }

  lemma EarlierPoint(times: seq<real>, points: seq<real>, smoothness: real, dim: nat, m: nat, x: nat)
    requires x < |KnotsUpTo(times, points, smoothness, dim, m)|
    ensures KnotsUpTo(times, points, smoothness, dim, m + 1)[x] == KnotsUpTo(times, points, smoothness, dim, m)[x]
  {
  }

  lemma LastPoint(times: seq<real>, points: seq<real>, smoothness: real, dim: nat, i: nat, j: nat, k: nat)
    requires j < dim && k < 3
    ensures Slot(dim, i, j, k) < |KnotsUpTo(times, points, smoothness, dim, i + 1)|
    ensures KnotsUpTo(times, points, smoothness, dim, i + 1)[Slot(dim, i, j, k)] == KnotEntry(times, points, smoothness, dim, i, j, k)
  {
    ChannelsUpToAt(times, points, smoothness, dim, i, dim, j, k);
  }

  /** Entry k of point i, channel j of the knot array is the one calcKnots computes for it. */
  lemma KnotsOfAt(times: seq<real>, points: seq<real>, smoothness: real, i: nat, j: nat, k: nat)
    requires |times| >= 1 && i < |times| && j < Dim(times, points) && k < 3
    ensures KnotAt(KnotsOf(times, points, smoothness), Dim(times, points), i, j, k)
            == KnotEntry(times, points, smoothness, Dim(times, points), i, j, k)
  {
    KnotsUpToAt(times, points, smoothness, Dim(times, points), |times|, i, j, k);
  }

  /** Three more entries, equal to those of channel j, extend the prefix by that channel. */
  lemma AppendChannel(times: seq<real>, points: seq<real>, smoothness: real, dim: nat, i: nat, j: nat, prefix: seq<Num>, s: seq<Num>, done: nat)
    requires done + 3 <= |s|
    requires s[..done] == prefix + ChannelsUpTo(times, points, smoothness, dim, i, j)
    requires s[done] == KnotEntry(times, points, smoothness, dim, i, j, 0)
    requires s[done + 1] == KnotEntry(times, points, smoothness, dim, i, j, 1)
    requires s[done + 2] == KnotEntry(times, points, smoothness, dim, i, j, 2)
    ensures s[..done + 3] == prefix + ChannelsUpTo(times, points, smoothness, dim, i, j + 1)
  {
    assert s[..done + 3] == s[..done] + s[done..done + 3];
    assert s[done..done + 3] == ChannelKnots(times, points, smoothness, dim, i, j);
  }

  /** The body of calcKnots' inner loop for point i, channel j at flat point index idx: the value,
      and the slope scaled to the segment before and the segment after and by smoothness. */
  method ChannelEntries(times: seq<real>, points: seq<real>, smoothness: real, dim: nat, i: nat, j: nat, idx: nat)
    returns (inTangent: Num, value: Num, outTangent: Num)
    requires i < |times| && j < dim && idx == Offset(i, dim) + j && idx < |points|
    ensures inTangent == KnotEntry(times, points, smoothness, dim, i, j, 0)
    ensures value == KnotEntry(times, points, smoothness, dim, i, j, 1) && value.Finite?
    ensures outTangent == KnotEntry(times, points, smoothness, dim, i, j, 2)
  {
    var n := |times|;
    var t := times[i];
    var p := points[idx];
    var tangent;
    if i == 0 {
      tangent := Div(Sub(At(points, idx + dim), Finite(p)), Sub(At(times, i + 1), Finite(t)));
    } else if i == n - 1 {
      tangent := Div(Sub(Finite(p), At(points, idx - dim)), Sub(Finite(t), At(times, i - 1)));
    } else {
      tangent := Div(Sub(At(points, idx + dim), At(points, idx - dim)), Sub(At(times, i + 1), At(times, i - 1)));
    }
    var inScale := if i > 0 then Sub(Finite(times[i]), At(times, i - 1)) else Sub(At(times, 1), Finite(times[0]));
    var outScale := if i < n - 1 then Sub(At(times, i + 1), Finite(times[i])) else Sub(Finite(times[i]), At(times, i - 1));
    inTangent := Mul(Mul(tangent, inScale), Finite(smoothness));
    value := Finite(p);
    outTangent := Mul(Mul(tangent, outScale), Finite(smoothness));
  }

  /** The points hold `dim` channels for each control time, and calcKnots' array three entries for
      each of those. */
  lemma PointsLayout(times: seq<real>, points: seq<real>)
    requires |times| >= 1 && |points| % |times| == 0
    ensures |points| == Offset(|times|, Dim(times, points))
  {
    assert |points| == |times| * Dim(times, points);
    OffsetIsProduct(|times|, Dim(times, points));
  }

  /** The entries up to point i + 1 are those up to point i followed by every channel of point i. */
  lemma NextPoint(times: seq<real>, points: seq<real>, smoothness: real, dim: nat, i: nat)
    ensures KnotsUpTo(times, points, smoothness, dim, i + 1)
         == KnotsUpTo(times, points, smoothness, dim, i) + ChannelsUpTo(times, points, smoothness, dim, i, dim)
  {
  }

  /** One pass of calcKnots' outer loop: writes the entries of every channel of point i, just after
      those of the points before it. */
  method FillPoint(a: array<Num>, times: seq<real>, points: seq<real>, smoothness: real, dim: nat, i: nat)
    requires i < |times| && |points| == Offset(|times|, dim) && Offset(i + 1, dim) * 3 <= a.Length
    requires a[..Offset(i, dim) * 3] == KnotsUpTo(times, points, smoothness, dim, i)
    modifies a
    ensures a[..Offset(i + 1, dim) * 3] == KnotsUpTo(times, points, smoothness, dim, i + 1)
  {
    FillChannels(a, times, points, smoothness, dim, i, KnotsUpTo(times, points, smoothness, dim, i));
    NextPoint(times, points, smoothness, dim, i);
  }

  /** calcKnots' inner loop over the channels of point i, after the entries `prefix` of the points
      before it. */
  method FillChannels(a: array<Num>, times: seq<real>, points: seq<real>, smoothness: real, dim: nat, i: nat, ghost prefix: seq<Num>)
    requires i < |times| && |points| == Offset(|times|, dim)
    requires |prefix| == Offset(i, dim) * 3 && |prefix| + 3 * dim <= a.Length && a[..|prefix|] == prefix
    modifies a
    ensures a[..|prefix| + 3 * dim] == prefix + ChannelsUpTo(times, points, smoothness, dim, i, dim)
  {
    var j := 0;
    while j < dim
      invariant 0 <= j <= dim
      invariant a[..|prefix| + 3 * j] == prefix + ChannelsUpTo(times, points, smoothness, dim, i, j)
    {
      WriteChannel(a, times, points, smoothness, dim, i, j, prefix);
      j := j + 1;
    }
  }

  /** The body of calcKnots' inner loop: stores the three entries of channel j of point i at three
      times its flat point index `i * dim + j`, just after the channels stored before it. */
  method WriteChannel(a: array<Num>, times: seq<real>, points: seq<real>, smoothness: real, dim: nat, i: nat, j: nat, ghost prefix: seq<Num>)
    requires i < |times| && j < dim && |points| == Offset(|times|, dim)
    requires |prefix| == Offset(i, dim) * 3 && |prefix| + 3 * j + 3 <= a.Length
    requires a[..|prefix| + 3 * j] == prefix + ChannelsUpTo(times, points, smoothness, dim, i, j)
    modifies a
    ensures a[..|prefix| + 3 * j + 3] == prefix + ChannelsUpTo(times, points, smoothness, dim, i, j + 1)
  {
    var idx := i * dim + j;
    assert idx == Offset(i, dim) + j by {
      OffsetIsProduct(i, dim);
    }
    OffsetMonotone(i, |times|, dim);
    var inTangent, value, outTangent := ChannelEntries(times, points, smoothness, dim, i, j, idx);
    ghost var before := a[..idx * 3];
    a[idx * 3] := inTangent;
    a[idx * 3 + 1] := value;
    a[idx * 3 + 2] := outTangent;
    assert a[..idx * 3] == before;
    AppendChannel(times, points, smoothness, dim, i, j, prefix, a[..], idx * 3);
    assert a[..idx * 3 + 3] == a[..][..idx * 3 + 3];
  }

  /** calcKnots' outer loop over the control points, on an array of exactly three entries per
      point and channel. */
  method FillPoints(a: array<Num>, times: seq<real>, points: seq<real>, smoothness: real, dim: nat)
    requires |points| == Offset(|times|, dim) && a.Length == |points| * 3
    modifies a
    ensures a[..] == KnotsUpTo(times, points, smoothness, dim, |times|)
  {
    var i := 0;
    while i < |times|
      invariant 0 <= i <= |times| && Offset(i, dim) <= Offset(|times|, dim)
      invariant a[..Offset(i, dim) * 3] == KnotsUpTo(times, points, smoothness, dim, i)
    {
      OffsetMonotone(i, |times|, dim);
      FillPoint(a, times, points, smoothness, dim, i);
      i := i + 1;
    }
    assert a[..] == a[..Offset(i, dim) * 3];
  }

  /** `CubicSpline.calcKnots`: fills a new array of n * dim * 3 entries, point by point and channel
      by channel. */
  method CalcKnots(times: seq<real>, points: seq<real>, smoothness: real) returns (knots: seq<Num>)
    requires |times| >= 1 && |points| % |times| == 0
    ensures knots == KnotsOf(times, points, smoothness)
  {
    var n := |times|;
    var dim := |points| / n;
    var a := new Num[n * dim * 3];
    assert a.Length == |points| * 3 by {
      assert |points| == n * dim;
    }
    PointsLayout(times, points);
    FillPoints(a, times, points, smoothness, dim);
    knots := a[..];
  }

  /** The values of control point i as the spline reads them, channel by channel. */
  function PointValues(points: seq<real>, dim: nat, i: nat): seq<Num> {
    seq(dim, j requires 0 <= j < dim => At(points, Offset(i, dim) + j))
  }

  /** With at least two strictly increasing times every knot entry is finite: each slope divides by
      a positive time difference and reads existing points. With smoothness 0 both tangents are 0,
      so every segment blends its two end values only. */
  lemma KnotEntryFinite(times: seq<real>, points: seq<real>, smoothness: real, i: nat, j: nat, k: nat)
    requires |times| >= 2 && StrictlyIncreasing(times) && |points| % |times| == 0
    requires i < |times| && j < Dim(times, points) && k < 3
    ensures KnotEntry(times, points, smoothness, Dim(times, points), i, j, k).Finite?
    ensures smoothness == 0.0 && k != 1 ==> KnotEntry(times, points, smoothness, Dim(times, points), i, j, k) == Finite(0.0)
  {
    var n := |times|;
    var dim := Dim(times, points);
    PointsLayout(times, points);
    OffsetMonotone(i, n, dim);
    if i + 1 < n {
      OffsetMonotone(i + 1, n, dim);
      assert times[i] < times[i + 1];
    }
    if i > 0 {
      assert times[i - 1] < times[i];
    }
    if 0 < i < n - 1 {
      assert times[i - 1] < times[i + 1];
    }
  }

  /** A single control point: both slopes read past the arrays and are NaN. */
  lemma SingleKeyframeTangents(times: seq<real>, points: seq<real>, smoothness: real, j: nat)
    requires |times| == 1 && j < Dim(times, points)
    ensures KnotEntry(times, points, smoothness, Dim(times, points), 0, j, 0) == NonFinite
    ensures KnotEntry(times, points, smoothness, Dim(times, points), 0, j, 2) == NonFinite
  {
  }

  // ---------------------------------------------------------------------------------------------
  // Hermite basis

  lemma ZeroOver(d: real)
    requires d != 0.0
    ensures 0.0 / d == 0.0
  {
  }

  /** The weights of the cubic Hermite basis at normalised time t, for the start value, the start
      tangent, the end value and the end tangent. */
  datatype Basis = Basis(h00: real, h10: real, h01: real, h11: real)

  /** `(1+2t)(1-t)^2`, `t(1-t)^2`, `t^2(3-2t)` and `t^2(t-1)`, formed as evaluateSegment forms them
      from `t2`, `twot`, `omt` and `omt2`. */
  function HermiteBasis(t: real): Basis {
    var t2 := t * t;
    var twot := t + t;
    var omt := 1.0 - t;
    var omt2 := omt * omt;
    Basis((1.0 + twot) * omt2, t * omt2, t2 * (3.0 - twot), t2 * (t - 1.0))
  }

  /** `p0*h00 + m0*h10 + p1*h01 + m1*h11`, summed left to right. */
  function Hermite(p0: Num, m0: Num, p1: Num, m1: Num, w: Basis): Num {
    Add(Add(Add(Mul(p0, Finite(w.h00)), Mul(m0, Finite(w.h10))), Mul(p1, Finite(w.h01))), Mul(m1, Finite(w.h11)))
  }

  /** At t = 0 the basis keeps only the start value. */
  lemma BasisAtZero()
    ensures HermiteBasis(0.0) == Basis(1.0, 0.0, 0.0, 0.0)
  {
  }

  /** At t = 1 the basis keeps only the end value. */
  lemma BasisAtOne()
    ensures HermiteBasis(1.0) == Basis(0.0, 0.0, 1.0, 0.0)
  {
  }

  /** The two value weights sum to 1 at every t, so a channel whose two values agree and whose
      tangents are 0 stays constant along the segment. */
  lemma BasisPartitionOfUnity(t: real)
    ensures HermiteBasis(t).h00 + HermiteBasis(t).h01 == 1.0
  {
    var omt := 1.0 - t;
    var s := t * t;
    assert omt * omt == 1.0 - 2.0 * t + s;
    var c := s * t;
    assert (1.0 + t + t) * (1.0 - 2.0 * t + s) == 1.0 - 3.0 * s + 2.0 * c;
    assert s * (3.0 - (t + t)) == 3.0 * s - 2.0 * c;
  }

  /** The segment polynomial is finite exactly when all four of its knot entries are: a non-finite
      tangent poisons the result even where its weight is 0, as `Infinity * 0` is NaN. */
  lemma HermiteFinite(p0: Num, m0: Num, p1: Num, m1: Num, w: Basis)
    ensures Hermite(p0, m0, p1, m1, w).Finite? <==> p0.Finite? && m0.Finite? && p1.Finite? && m1.Finite?
  {
  }

  /** Over finite knot entries the segment polynomial is the weighted sum of their values. */
  lemma HermiteSum(p0: Num, m0: Num, p1: Num, m1: Num, w: Basis)
    requires p0.Finite? && m0.Finite? && p1.Finite? && m1.Finite?
    ensures Hermite(p0, m0, p1, m1, w) == Finite(p0.v * w.h00 + m0.v * w.h10 + p1.v * w.h01 + m1.v * w.h11)
  {
  }

  lemma StartWeights(a: real, b: real, c: real, d: real)
    ensures a * 1.0 + b * 0.0 + c * 0.0 + d * 0.0 == a
  {
  }

  lemma EndWeights(a: real, b: real, c: real, d: real)
    ensures a * 0.0 + b * 0.0 + c * 1.0 + d * 0.0 == c
  {
  }

  /** Weights (1, 0, 0, 0) pick the start value out of four finite knot entries. */
  lemma SelectsStart(p0: Num, m0: Num, p1: Num, m1: Num, w: Basis)
    requires p0.Finite? && m0.Finite? && p1.Finite? && m1.Finite? && w == Basis(1.0, 0.0, 0.0, 0.0)
    ensures Hermite(p0, m0, p1, m1, w) == p0
  {
    HermiteSum(p0, m0, p1, m1, w);
    StartWeights(p0.v, m0.v, p1.v, m1.v);
  }

  /** Weights (0, 0, 1, 0) pick the end value out of four finite knot entries. */
  lemma SelectsEnd(p0: Num, m0: Num, p1: Num, m1: Num, w: Basis)
    requires p0.Finite? && m0.Finite? && p1.Finite? && m1.Finite? && w == Basis(0.0, 0.0, 1.0, 0.0)
    ensures Hermite(p0, m0, p1, m1, w) == p1
  {
    HermiteSum(p0, m0, p1, m1, w);
    EndWeights(p0.v, m0.v, p1.v, m1.v);
  }

  /** With finite knots a segment starts exactly at its start value. */
  lemma HermiteAtStart(p0: Num, m0: Num, p1: Num, m1: Num)
    requires p0.Finite? && m0.Finite? && p1.Finite? && m1.Finite?
    ensures Hermite(p0, m0, p1, m1, HermiteBasis(0.0)) == p0
  {
    BasisAtZero();
    SelectsStart(p0, m0, p1, m1, HermiteBasis(0.0));
  }

  /** With finite knots a segment ends exactly at its end value. */
  lemma HermiteAtEnd(p0: Num, m0: Num, p1: Num, m1: Num)
    requires p0.Finite? && m0.Finite? && p1.Finite? && m1.Finite?
    ensures Hermite(p0, m0, p1, m1, HermiteBasis(1.0)) == p1
  {
    BasisAtOne();
    SelectsEnd(p0, m0, p1, m1, HermiteBasis(1.0));
  }

  // ---------------------------------------------------------------------------------------------
  // The spline object

  /** `CubicSpline`: control times and knots, immutable after construction. */
  class CubicSpline {
    const times: seq<real>
    const knots: seq<Num>
    const dim: nat

    /** At least one control time and exactly three knot entries per point and channel
        (`Offset(|times|, dim)` is `|times| * dim`). */
    ghost predicate Valid() {
      |times| >= 1 && |knots| == Offset(|times|, dim) * 3
    }

    /** `new CubicSpline(times, knots)`: `dim = knots.length / times.length / 3`. The ghost `dim`
        says that the knots hold a whole number of channels per control point. */
    constructor (times: seq<real>, knots: seq<Num>, ghost dim: nat)
      requires |times| >= 1 && |knots| == |times| * dim * 3
      ensures this.times == times && this.knots == knots && this.dim == dim
      ensures Valid()
    {
      this.times := times;
      this.knots := knots;
      assert |knots| == Offset(|times|, dim) * 3 && |knots| / |times| / 3 == dim by {
        ChannelCount(|times|, dim);
        OffsetIsProduct(|times|, dim);
      }
      this.dim := |knots| / |times| / 3;
    }

    function Knot(index: nat, j: nat, k: nat): Num {
      KnotAt(knots, dim, index, j, k)
    }

    /** Every knot entry of every control point and channel is finite. */
    ghost predicate KnotsFinite() {
      forall i, j, k :: 0 <= i < |times| && 0 <= j < dim && 0 <= k < 3 ==> Knot(i, j, k).Finite?
    }

    /** Every tangent entry is 0. */
    ghost predicate ZeroTangents() {
      forall i, j :: 0 <= i < |times| && 0 <= j < dim ==> Knot(i, j, 0) == Finite(0.0) && Knot(i, j, 2) == Finite(0.0)
    }

    /** Where the four knot entries of a segment's channel sit in the knot array. */
    lemma SegmentKnots(seg: nat, j: nat)
      requires Valid() && seg + 1 < |times| && j < dim
      ensures Slot(dim, seg, j, 0) + dim * 3 + 1 < |knots|
      ensures Knot(seg, j, 1) == knots[Slot(dim, seg, j, 0) + 1]
      ensures Knot(seg, j, 2) == knots[Slot(dim, seg, j, 0) + 2]
      ensures Knot(seg + 1, j, 0) == knots[Slot(dim, seg, j, 0) + dim * 3]
      ensures Knot(seg + 1, j, 1) == knots[Slot(dim, seg, j, 0) + dim * 3 + 1]
      ensures Slot(dim, seg, j + 1, 0) == Slot(dim, seg, j, 0) + 3
    {
      SegmentSlots(|times|, dim, seg, j);
    }

    /** The value entries of one control point: what getKnot writes. */
    function KnotValues(index: nat): seq<Num> {
      seq(dim, j requires 0 <= j < dim => Knot(index, j, 1))
    }

    /** The Hermite polynomial of segment `seg` at normalised time t, per channel. */
    function SegmentValues(seg: nat, t: real): seq<Num> {
      seq(dim, j requires 0 <= j < dim =>
        Hermite(Knot(seg, j, 1), Knot(seg, j, 2), Knot(seg + 1, j, 1), Knot(seg + 1, j, 0), HermiteBasis(t)))
    }

    /** The forward scan `while (time >= times[seg + 1]) seg++` from `seg`: it stops at a segment
        that contains `time`, without reading past the last control time. */
    function ScanSegment(time: real, seg: nat): (r: nat)
      requires seg + 1 < |times| && times[seg] <= time < times[|times| - 1]
      ensures seg <= r && r + 1 < |times|
      ensures times[r] <= time < times[r + 1]
      decreases |times| - seg
    {
      if time >= times[seg + 1] then ScanSegment(time, seg + 1) else seg
    }

    /** The normalised time of `time` within segment `seg`, as evaluate computes it. */
    function SegmentTime(time: real, seg: nat): real
      requires seg + 1 < |times| && times[seg] < times[seg + 1]
    {
      (time - times[seg]) / (times[seg + 1] - times[seg])
    }

    /** A segment's own start time is at normalised time 0. */
    lemma SegmentTimeAtStart(seg: nat)
      requires seg + 1 < |times| && times[seg] < times[seg + 1]
      ensures SegmentTime(times[seg], seg) == 0.0
    {
      ZeroOver(times[seg + 1] - times[seg]);
    }

    /** What `evaluate(time, result)` writes into result[0..dim). */
    function Sample(time: real): seq<Num>
      requires Valid()
    {
      var last := |times| - 1;
      if time <= times[0] then KnotValues(0)
      else if time >= times[last] then KnotValues(last)
      else
        var seg := ScanSegment(time, 0);
        SegmentValues(seg, SegmentTime(time, seg))
    }

    /** Strictly inside the control times the scan finds a segment containing `time`, so the
        normalised time lies in [0, 1); when the times strictly increase it is the only such segment. */
    lemma SegmentFound(time: real)
      requires Valid() && times[0] < time < times[|times| - 1]
      ensures var seg := ScanSegment(time, 0);
        && times[seg] <= time < times[seg + 1]
        && 0.0 <= SegmentTime(time, seg) < 1.0
      ensures StrictlyIncreasing(times) ==> forall s :: 0 <= s && s + 1 < |times| && times[s] <= time < times[s + 1] ==> s == ScanSegment(time, 0)
    {
      var seg := ScanSegment(time, 0);
      DivideBelow(time - times[seg], times[seg + 1] - times[seg]);
      if StrictlyIncreasing(times) {
        forall s | 0 <= s && s + 1 < |times| && times[s] <= time < times[s + 1]
          ensures s == seg
        {
          if s < seg {
            assert false;
          } else if s > seg {
            assert false;
          }
        }
      }
    }

    /** With strictly increasing times and finite knots, the spline passes through each control
        point at its control time. */
    lemma SampleAtControlTime(k: nat)
      requires Valid() && StrictlyIncreasing(times) && KnotsFinite() && k < |times|
      ensures Sample(times[k]) == KnotValues(k)
    {
      var last := |times| - 1;
      if 0 < k < last {
        assert times[0] < times[k] < times[last];
        assert times[k] < times[k + 1];
        SegmentFound(times[k]);
        assert ScanSegment(times[k], 0) == k;
        SampleInside(times[k]);
        SegmentTimeAtStart(k);
        assert Sample(times[k]) == SegmentValues(k, 0.0);
        forall j | 0 <= j < dim
          ensures SegmentValues(k, 0.0)[j] == KnotValues(k)[j]
        {
          HermiteAtStart(Knot(k, j, 1), Knot(k, j, 2), Knot(k + 1, j, 1), Knot(k + 1, j, 0));
        }
      } else if k == last && k > 0 {
        assert times[0] < times[k];
      }
    }

    /** Strictly inside the control times, the sample is the found segment's polynomial. */
    lemma SampleInside(time: real)
      requires Valid() && times[0] < time < times[|times| - 1]
      ensures var seg := ScanSegment(time, 0);
        Sample(time) == SegmentValues(seg, SegmentTime(time, seg))
    {
    }

    /** With finite knots and zero tangents, each channel of segment `seg` at normalised time t lies
        the fraction h01 of the way from the segment's start value to its end value. */
    lemma SegmentBlend(seg: nat, t: real)
      requires Valid() && KnotsFinite() && ZeroTangents() && seg + 1 < |times|
      ensures forall j :: 0 <= j < dim ==>
        SegmentValues(seg, t)[j] == Lerp(KnotValues(seg)[j], KnotValues(seg + 1)[j], HermiteBasis(t).h01)
    {
      var w := HermiteBasis(t);
      assert w.h00 + w.h01 == 1.0 by {
        BasisPartitionOfUnity(t);
      }
      forall j | 0 <= j < dim
        ensures SegmentValues(seg, t)[j] == Lerp(KnotValues(seg)[j], KnotValues(seg + 1)[j], w.h01)
      {
        BlendOfZeroTangents(Knot(seg, j, 1), Knot(seg + 1, j, 1), w);
      }
    }

    /** `getKnot(index, result)`: copies the value entries of one control point. */
    method GetKnot(index: nat, result: array<Num>)
      requires Valid() && index < |times| && dim <= result.Length
      modifies result
      ensures result[..dim] == KnotValues(index)
      ensures result[dim..] == old(result[dim..])
    {
      var idx := index * 3 * dim;
      assert idx == Offset(index, dim) * 3 by {
        OffsetIsProduct(index, dim);
      }
      var i := 0;
      while i < dim
        invariant 0 <= i <= dim
        invariant forall m :: 0 <= m < i ==> result[m] == Knot(index, m, 1)
        invariant forall m :: dim <= m < result.Length ==> result[m] == old(result[m])
      {
        SlotBound(|times|, dim, index, i, 1);
        assert idx + i * 3 + 1 == Slot(dim, index, i, 1);
        result[i] := knots[idx + i * 3 + 1];
        i := i + 1;
      }
    }

    /** `evaluateSegment(segment, t, result)`: the Hermite basis per channel, walking the knots of the
        segment's start point three entries at a time. */
    method EvaluateSegment(segment: nat, t: real, result: array<Num>)
      requires Valid() && segment + 1 < |times| && dim <= result.Length
      modifies result
      ensures result[..dim] == SegmentValues(segment, t)
      ensures result[dim..] == old(result[dim..])
    {
      var w := HermiteBasis(t);
      var idx := segment * dim * 3;
      assert idx == Slot(dim, segment, 0, 0) by {
        OffsetIsProduct(segment, dim);
      }
      ghost var spec := SegmentValues(segment, t);
      var i := 0;
      while i < dim
        invariant 0 <= i <= dim
        invariant idx == Slot(dim, segment, i, 0)
        invariant forall m :: 0 <= m < i ==> result[m] == spec[m]
        invariant forall m :: dim <= m < result.Length ==> result[m] == old(result[m])
      {
        SegmentKnots(segment, i);
        var p0 := knots[idx + 1];
        var m0 := knots[idx + 2];
        var m1 := knots[idx + dim * 3];
        var p1 := knots[idx + dim * 3 + 1];
        idx := idx + 3;
        result[i] := Add(Add(Add(Mul(p0, Finite(w.h00)), Mul(m0, Finite(w.h10))), Mul(p1, Finite(w.h01))),
                         Mul(m1, Finite(w.h11)));
        assert result[i] == spec[i];
        i := i + 1;
      }
    }

    /** The forward scan of `evaluate`: the first segment whose end time lies beyond `time`. */
    method FindSegment(time: real) returns (seg: nat)
      requires Valid() && times[0] < time < times[|times| - 1]
      ensures seg == ScanSegment(time, 0)
    {
      seg := 0;
      while time >= times[seg + 1]
        invariant seg + 1 < |times| && times[seg] <= time
        invariant ScanSegment(time, seg) == ScanSegment(time, 0)
        decreases |times| - seg
      {
        seg := seg + 1;
      }
    }

    /** `evaluate(time, result)`: clamps to the first or last knot outside the control times and
        otherwise scans forward for the segment and evaluates it at the normalised time. */
    method Evaluate(time: real, result: array<Num>)
      requires Valid() && dim <= result.Length
      modifies result
      ensures result[..dim] == Sample(time)
      ensures result[dim..] == old(result[dim..])
    {
      var last := |times| - 1;
      if time <= times[0] {
        GetKnot(0, result);
      } else if time >= times[last] {
        GetKnot(last, result);
      } else {
        EvaluateInside(time, result);
      }
    }

    /** The last branch of `evaluate`, strictly inside the control times. */
    method EvaluateInside(time: real, result: array<Num>)
      requires Valid() && dim <= result.Length && times[0] < time < times[|times| - 1]
      modifies result
      ensures result[..dim] == Sample(time)
      ensures result[dim..] == old(result[dim..])
    {
      var seg := FindSegment(time);
      var t := SegmentTime(time, seg);
      SampleInside(time);
      EvaluateSegment(seg, t, result);
      assert result[..dim] == SegmentValues(seg, t);
    }
  }

  // ---------------------------------------------------------------------------------------------
  // Static constructors

  /** `CubicSpline.fromPoints(times, points, smoothness)`. */
  method FromPoints(times: seq<real>, points: seq<real>, smoothness: real) returns (s: CubicSpline)
    requires |times| >= 1 && |points| % |times| == 0
    ensures s.Valid() && s.times == times && s.dim == Dim(times, points)
    ensures s.knots == KnotsOf(times, points, smoothness)
  {
    var knots := CalcKnots(times, points, smoothness);
    assert |knots| == |times| * Dim(times, points) * 3 by {
      OffsetIsProduct(|times|, Dim(times, points));
    }
    s := new CubicSpline(times, knots, Dim(times, points));
  }

  /** The knots of a spline built from points over at least two strictly increasing times: all
      finite, the value entries are the points, and with smoothness 0 every tangent is 0. */
  lemma FromPointsKnots(s: CubicSpline, times: seq<real>, points: seq<real>, smoothness: real)
    requires |times| >= 2 && StrictlyIncreasing(times) && |points| % |times| == 0
    requires s.Valid() && s.times == times && s.dim == Dim(times, points)
    requires s.knots == KnotsOf(times, points, smoothness)
    ensures s.KnotsFinite()
    ensures smoothness == 0.0 ==> s.ZeroTangents()
    ensures forall k :: 0 <= k < |times| ==> s.KnotValues(k) == PointValues(points, s.dim, k)
  {
    var dim := Dim(times, points);
    forall i, j, k | 0 <= i < |times| && 0 <= j < dim && 0 <= k < 3
      ensures s.Knot(i, j, k) == KnotEntry(times, points, smoothness, dim, i, j, k)
      ensures s.Knot(i, j, k).Finite?
      ensures smoothness == 0.0 && k != 1 ==> s.Knot(i, j, k) == Finite(0.0)
    {
      KnotsOfAt(times, points, smoothness, i, j, k);
      KnotEntryFinite(times, points, smoothness, i, j, k);
    }
    forall k | 0 <= k < |times|
      ensures s.KnotValues(k) == PointValues(points, dim, k)
    {
      assert forall j :: 0 <= j < dim ==> s.KnotValues(k)[j] == s.Knot(k, j, 1);
    }
  }

  /** A spline built from points over strictly increasing times passes through every keyframe:
      evaluating it at a control time yields that keyframe's values. */
  lemma FromPointsInterpolates(s: CubicSpline, times: seq<real>, points: seq<real>, smoothness: real)
    requires |times| >= 2 && StrictlyIncreasing(times) && |points| % |times| == 0
    requires s.Valid() && s.times == times && s.dim == Dim(times, points)
    requires s.knots == KnotsOf(times, points, smoothness)
    ensures forall k :: 0 <= k < |times| ==> s.Sample(times[k]) == PointValues(points, s.dim, k)
  {
    FromPointsKnots(s, times, points, smoothness);
    forall k | 0 <= k < |times|
      ensures s.Sample(times[k]) == PointValues(points, s.dim, k)
    {
      s.SampleAtControlTime(k);
    }
  }

  /** With smoothness 0, between two keyframes each channel moves from the earlier keyframe's value
      towards the later one's by a fraction in [0, 1]: the curve never overshoots a keyframe. */
  lemma ZeroSmoothnessBlend(s: CubicSpline, times: seq<real>, points: seq<real>, time: real)
    requires |times| >= 2 && StrictlyIncreasing(times) && |points| % |times| == 0
    requires s.Valid() && s.times == times && s.dim == Dim(times, points)
    requires s.knots == KnotsOf(times, points, 0.0)
    requires times[0] < time < times[|times| - 1]
    ensures var seg := s.ScanSegment(time, 0);
      var h := HermiteBasis(s.SegmentTime(time, seg)).h01;
      && 0.0 <= h <= 1.0
      && forall j :: 0 <= j < s.dim ==>
           s.Sample(time)[j] == Lerp(PointValues(points, s.dim, seg)[j], PointValues(points, s.dim, seg + 1)[j], h)
  {
    FromPointsKnots(s, times, points, 0.0);
    var seg := s.ScanSegment(time, 0);
    var t := s.SegmentTime(time, seg);
    s.SampleInside(time);
    s.SegmentFound(time);
    EndWeightBounds(t);
    s.SegmentBlend(seg, t);
  }

  /** The spline calcKnots builds with smoothness 0 over times [0, 1] and one channel with values
      [0, 1] is at 0.5 halfway through. */
  lemma HalfwayExample(s: CubicSpline, times: seq<real>, points: seq<real>, time: real)
    requires |times| == 2 && times[0] == 0.0 && times[1] == 1.0
    requires |points| == 2 && points[0] == 0.0 && points[1] == 1.0
    requires s.Valid() && s.times == times && s.dim == 1
    requires s.knots == KnotsOf(times, points, 0.0)
    requires time == 0.5
    ensures s.Sample(time) == [Finite(0.5)]
  {
    HalfwayChannel(s, times, points, time);
    Singleton(s.Sample(time), Finite(0.5));
  }

  lemma HalfwayChannel(s: CubicSpline, times: seq<real>, points: seq<real>, time: real)
    requires |times| == 2 && times[0] == 0.0 && times[1] == 1.0
    requires |points| == 2 && points[0] == 0.0 && points[1] == 1.0
    requires s.Valid() && s.times == times && s.dim == 1
    requires s.knots == KnotsOf(times, points, 0.0)
    requires time == 0.5
    ensures |s.Sample(time)| == 1 && s.Sample(time)[0] == Finite(0.5)
  {
    HalfwaySegment(s, times, time);
    UnitPointValues(points);
    assert Lerp(Finite(0.0), Finite(1.0), 0.5) == Finite(0.5);
    ZeroSmoothnessBlend(s, times, points, time);
    s.SampleInside(time);
  }

  lemma HalfwaySegment(s: CubicSpline, times: seq<real>, time: real)
    requires |times| == 2 && times[0] == 0.0 && times[1] == 1.0
    requires s.Valid() && s.times == times && time == 0.5
    ensures StrictlyIncreasing(times) && s.ScanSegment(time, 0) == 0
    ensures HermiteBasis(s.SegmentTime(time, 0)).h01 == 0.5
  {
    assert s.SegmentTime(time, 0) == 0.5;
  }

  lemma Singleton<T>(x: seq<T>, v: T)
    requires |x| == 1 && x[0] == v
    ensures x == [v]
  {
  }

  lemma UnitPointValues(points: seq<real>)
    requires |points| == 2 && points[0] == 0.0 && points[1] == 1.0
    ensures PointValues(points, 1, 0)[0] == Finite(0.0) && PointValues(points, 1, 1)[0] == Finite(1.0)
  {
    assert Offset(0, 1) == 0 && Offset(1, 1) == 1;
    assert PointValues(points, 1, 0)[0] == At(points, 0);
    assert PointValues(points, 1, 1)[0] == At(points, 1);
  }
  /** A single keyframe: its slopes are NaN but never read, as every time clamps to the keyframe. */
  lemma SingleKeyframeSpline(s: CubicSpline, times: seq<real>, points: seq<real>, smoothness: real)
    requires |times| == 1
    requires s.Valid() && s.times == times && s.dim == Dim(times, points)
    requires s.knots == KnotsOf(times, points, smoothness)
    ensures forall j :: 0 <= j < s.dim ==> s.Knot(0, j, 0) == NonFinite && s.Knot(0, j, 2) == NonFinite
    ensures forall time :: s.Sample(time) == PointValues(points, s.dim, 0)
  {
    var dim := Dim(times, points);
    forall j | 0 <= j < dim
      ensures s.Knot(0, j, 0) == NonFinite && s.Knot(0, j, 2) == NonFinite
      ensures s.Knot(0, j, 1) == At(points, Offset(0, dim) + j)
    {
      KnotsOfAt(times, points, smoothness, 0, j, 0);
      KnotsOfAt(times, points, smoothness, 0, j, 1);
      KnotsOfAt(times, points, smoothness, 0, j, 2);
    }
    assert s.KnotValues(0) == PointValues(points, dim, 0);
  }

  /** `a + (b - a) * h`: the point a fraction h of the way from a to b. */
  function Lerp(a: Num, b: Num, h: real): Num {
    Add(a, Mul(Sub(b, a), Finite(h)))
  }

  lemma ProductNonNegative(a: real, b: real)
    requires a >= 0.0 && b >= 0.0
    ensures a * b >= 0.0
  {
    if a > 0.0 {
      MulLeft(0.0, b, a);
    }
  }

  /** On [0, 1] both value weights are non-negative, so the end-value weight `t^2 (3 - 2t)` stays
      within [0, 1]. */
  lemma EndWeightBounds(t: real)
    requires 0.0 <= t <= 1.0
    ensures 0.0 <= HermiteBasis(t).h01 <= 1.0
  {
    BasisPartitionOfUnity(t);
    ProductNonNegative(t, t);
    ProductNonNegative(t * t, 3.0 - (t + t));
    ProductNonNegative(1.0 - t, 1.0 - t);
    ProductNonNegative(1.0 + (t + t), (1.0 - t) * (1.0 - t));
  }

  /** A segment whose tangents are both 0 and whose value weights sum to 1 moves along the straight
      line between its end values. */
  lemma BlendOfZeroTangents(p0: Num, p1: Num, w: Basis)
    requires p0.Finite? && p1.Finite? && w.h00 + w.h01 == 1.0
    ensures Hermite(p0, Finite(0.0), p1, Finite(0.0), w) == Lerp(p0, p1, w.h01)
  {
    assert p0.v * w.h00 == p0.v - p0.v * w.h01;
  }

  // ---------------------------------------------------------------------------------------------
  // Looping splines

  /** The control times of a looping spline: the last two times shifted back by `length`, the
      times, then the first two shifted forward by `length`. */
  function LoopTimes(length: real, times: seq<real>): seq<real>
    requires |times| >= 2
  {
    var n := |times|;
    [times[n - 2] - length, times[n - 1] - length] + times + [length + times[0], length + times[1]]
  }

  /** The control points wrapped the same way: the last two points, all points, the first two. */
  function LoopPoints(points: seq<real>, dim: nat): seq<real>
    requires 2 * dim <= |points|
  {
    points[|points| - dim * 2..] + points + points[..dim * 2]
  }

  /** `CubicSpline.fromPointsLooping(length, times, points, smoothness)`: pads both ends so that the
      curve continues across the seam. With fewer than two times it falls back to
      `fromPoints(times, points)`, dropping `smoothness` for the default 1. */
  method FromPointsLooping(length: real, times: seq<real>, points: seq<real>, smoothness: real)
    returns (s: CubicSpline)
    requires |times| >= 1 && |points| % |times| == 0
    ensures s.Valid() && s.dim == Dim(times, points)
    ensures |times| < 2 ==> s.times == times && s.knots == KnotsOf(times, points, 1.0)
    ensures |times| >= 2 ==>
      && 2 * Dim(times, points) <= |points|
      && s.times == LoopTimes(length, times)
      && s.knots == KnotsOf(LoopTimes(length, times), LoopPoints(points, Dim(times, points)), smoothness)
  {
    var n := |times|;
    if n < 2 {
      s := FromPoints(times, points, 1.0);
      return;
    }
    var dim := |points| / n;
    LoopLayout(length, times, points);
    var newTimes := times;
    var newPoints := points;
    // append first two points
    newTimes := newTimes + [length + times[0], length + times[1]];
    newPoints := newPoints + points[..dim * 2];
    // prepend last two points
    newTimes := [times[n - 2] - length, times[n - 1] - length] + newTimes;
    newPoints := points[|points| - dim * 2..] + newPoints;
    assert newTimes == LoopTimes(length, times);
    assert newPoints == LoopPoints(points, dim);
    s := FromPoints(newTimes, newPoints, smoothness);
  }

  /** Consecutive increases chain into a strict increase. */
  lemma {:induction false} ChainIncreasing(s: seq<real>, a: nat, b: nat)
    requires forall c :: 0 <= c && c + 1 < |s| ==> s[c] < s[c + 1]
    requires a < b < |s|
    ensures s[a] < s[b]
    decreases b - a
  {
    if a + 1 < b {
      ChainIncreasing(s, a + 1, b);
    }
  }

  /** When the loop is longer than the span of the keyframes, the padded times still strictly
      increase: the shifted copies fall before the first and after the last keyframe. */
  lemma LoopTimesIncreasing(length: real, times: seq<real>)
    requires |times| >= 2 && StrictlyIncreasing(times)
    requires length > times[|times| - 1] - times[0]
    ensures StrictlyIncreasing(LoopTimes(length, times))
  {
    var u := LoopTimes(length, times);
    var n := |times|;
    forall c | 0 <= c && c + 1 < |u|
      ensures u[c] < u[c + 1]
    {
      if 2 <= c < n + 1 {
        assert u[c] == times[c - 2] && u[c + 1] == times[c - 1];
      }
    }
    forall a, b | 0 <= a < b < |u|
      ensures u[a] < u[b]
    {
      ChainIncreasing(u, a, b);
    }
  }

  /** The padded points hold keyframe k at position k + 2, and keyframe 0 again at position n + 2. */
  lemma LoopPointsAt(points: seq<real>, n: nat, dim: nat, k: nat)
    requires n >= 2 && |points| == Offset(n, dim) && k < n
    ensures 2 * dim <= |points|
    ensures PointValues(LoopPoints(points, dim), dim, k + 2) == PointValues(points, dim, k)
    ensures PointValues(LoopPoints(points, dim), dim, n + 2) == PointValues(points, dim, 0)
  {
    OffsetMonotone(1, n, dim);
    OffsetMonotone(k, n, dim);
    var ok := Offset(k, dim);
    assert Offset(k + 2, dim) == ok + 2 * dim;
    assert Offset(n + 2, dim) == |points| + 2 * dim;
    forall j | 0 <= j < dim
      ensures PointValues(LoopPoints(points, dim), dim, k + 2)[j] == PointValues(points, dim, k)[j]
      ensures PointValues(LoopPoints(points, dim), dim, n + 2)[j] == PointValues(points, dim, 0)[j]
    {
      LoopPointAt(points, dim, ok + j);
      LoopPointAt(points, dim, j);
    }
  }

  /** Entry x of the points sits 2 * dim further on in the padded points; the first 2 * dim entries
      come round again after the last point. */
  lemma LoopPointAt(points: seq<real>, dim: nat, x: nat)
    requires 2 * dim <= |points| && x < |points|
    ensures At(LoopPoints(points, dim), 2 * dim + x) == At(points, x)
    ensures x < 2 * dim ==> At(LoopPoints(points, dim), 2 * dim + |points| + x) == At(points, x)
  {
  }

  /** The padded points hold the same number of channels per padded time as the points per time. */
  lemma LoopLayout(length: real, times: seq<real>, points: seq<real>)
    requires |times| >= 2 && |points| % |times| == 0
    ensures |points| == Offset(|times|, Dim(times, points))
    ensures 2 * Dim(times, points) <= |points|
    ensures |LoopPoints(points, Dim(times, points))| % |LoopTimes(length, times)| == 0
    ensures Dim(LoopTimes(length, times), LoopPoints(points, Dim(times, points))) == Dim(times, points)
  {
    var n := |times|;
    var dim := Dim(times, points);
    assert |points| == n * dim;
    OffsetIsProduct(n, dim);
    MulMonotone(2, n, dim);
    assert |LoopPoints(points, dim)| == (n + 4) * dim;
    DivModUnique(|LoopPoints(points, dim)|, n + 4, dim, 0);
  }

  /** A looping spline over strictly increasing keyframes, with a loop longer than their span, passes
      through every keyframe at its time and returns to the first keyframe one loop length later:
      the seam is closed. It is also smooth there: the control point at the first keyframe (padded
      index 2) and the one a loop length later (padded index n + 2) carry the same value and the same
      in- and out-tangents in every channel. */
  lemma LoopingSplineSeam(s: CubicSpline, length: real, times: seq<real>, points: seq<real>, smoothness: real)
    requires |times| >= 2 && StrictlyIncreasing(times) && |points| % |times| == 0
    requires length > times[|times| - 1] - times[0]
    requires 2 * Dim(times, points) <= |points|
    requires s.Valid() && s.dim == Dim(times, points) && s.times == LoopTimes(length, times)
    requires s.knots == KnotsOf(LoopTimes(length, times), LoopPoints(points, Dim(times, points)), smoothness)
    ensures forall k :: 0 <= k < |times| ==> s.Sample(times[k]) == PointValues(points, s.dim, k)
    ensures s.Sample(length + times[0]) == s.Sample(times[0])
    ensures s.times[2] == times[0] && s.times[|times| + 2] == length + times[0]
    ensures forall j, k :: 0 <= j < s.dim && 0 <= k < 3 ==> s.Knot(2, j, k) == s.Knot(|times| + 2, j, k)
  {
    LoopLayout(length, times, points);
    LoopTimesIncreasing(length, times);
    FromPointsInterpolates(s, LoopTimes(length, times), LoopPoints(points, Dim(times, points)), smoothness);
    SeamFromPadding(s, length, times, points, Dim(times, points));
    SeamKnots(s, length, times, points, smoothness);
  }

  /** The spline's control points at padded indices 2 and n + 2, at the first keyframe's time and
      one loop length later, are equal entry by entry. */
  lemma SeamKnots(s: CubicSpline, length: real, times: seq<real>, points: seq<real>, smoothness: real)
    requires |times| >= 2 && |points| % |times| == 0 && 2 * Dim(times, points) <= |points|
    requires s.Valid() && s.dim == Dim(times, points) && s.times == LoopTimes(length, times)
    requires s.knots == KnotsOf(LoopTimes(length, times), LoopPoints(points, Dim(times, points)), smoothness)
    ensures s.times[2] == times[0] && s.times[|times| + 2] == length + times[0]
    ensures forall j, k :: 0 <= j < s.dim && 0 <= k < 3 ==> s.Knot(2, j, k) == s.Knot(|times| + 2, j, k)
  {
    forall j, k | 0 <= j < s.dim && 0 <= k < 3
      ensures s.Knot(2, j, k) == s.Knot(|times| + 2, j, k)
    {
      SeamKnotAt(s, length, times, points, smoothness, j, k);
    }
  }

  lemma SeamKnotAt(s: CubicSpline, length: real, times: seq<real>, points: seq<real>, smoothness: real, j: nat, k: nat)
    requires |times| >= 2 && |points| % |times| == 0 && 2 * Dim(times, points) <= |points|
    requires s.Valid() && s.dim == Dim(times, points) && s.times == LoopTimes(length, times)
    requires s.knots == KnotsOf(LoopTimes(length, times), LoopPoints(points, Dim(times, points)), smoothness)
    requires j < s.dim && k < 3
    ensures s.Knot(2, j, k) == s.Knot(|times| + 2, j, k)
  {
    var dim := Dim(times, points);
    var lt := LoopTimes(length, times);
    var lp := LoopPoints(points, dim);
    LoopLayout(length, times, points);
    assert s.Knot(2, j, k) == KnotEntry(lt, lp, smoothness, dim, 2, j, k) by {
      KnotsOfAt(lt, lp, smoothness, 2, j, k);
    }
    assert s.Knot(|times| + 2, j, k) == KnotEntry(lt, lp, smoothness, dim, |times| + 2, j, k) by {
      KnotsOfAt(lt, lp, smoothness, |times| + 2, j, k);
    }
    SeamKnotEntry(length, times, points, smoothness, j, k);
  }

  /** calcKnots over the padded keyframes gives the first keyframe's control point (padded index 2)
      and its copy one loop later (padded index n + 2) the same entries: both read the same
      neighbouring points (the last keyframe before, the second after) over the same time gaps. */
  lemma SeamKnotEntry(length: real, times: seq<real>, points: seq<real>, smoothness: real, j: nat, k: nat)
    requires |times| >= 2 && |points| % |times| == 0
    requires j < Dim(times, points) && k < 3
    ensures var dim := Dim(times, points);
      var lt := LoopTimes(length, times);
      var lp := LoopPoints(points, dim);
      KnotEntry(lt, lp, smoothness, dim, 2, j, k) == KnotEntry(lt, lp, smoothness, dim, |times| + 2, j, k)
  {
    var n := |times|;
    var dim := Dim(times, points);
    var lt := LoopTimes(length, times);
    var lp := LoopPoints(points, dim);
    LoopLayout(length, times, points);
    OffsetIsProduct(n, dim);
    OffsetIsProduct(2, dim);
    OffsetIsProduct(n + 2, dim);
    assert Offset(n + 2, dim) == 2 * dim + |points|;
    // The value.
    LoopPointAt(points, dim, j);
    // The neighbour after: the second keyframe's channel j.
    assert Offset(2, dim) + j + dim == 2 * dim + (dim + j);
    assert Offset(n + 2, dim) + j + dim == 2 * dim + |points| + (dim + j);
    LoopPointAt(points, dim, dim + j);
    // The neighbour before: the last keyframe's channel j.
    assert Offset(2, dim) + j - dim == 2 * dim + (|points| - dim + j) - |points|;
    assert Offset(n + 2, dim) + j - dim == 2 * dim + (|points| - dim + j);
    assert At(lp, dim + j) == At(points, |points| - dim + j);
    LoopPointAt(points, dim, |points| - dim + j);
    assert RawTangent(lt, lp, dim, 2, j) == RawTangent(lt, lp, dim, n + 2, j);
    assert InScale(lt, 2) == InScale(lt, n + 2);
    assert OutScale(lt, 2) == OutScale(lt, n + 2);
  }

  /** Reads the keyframes back out of a curve that passes through every padded keyframe. */
  lemma SeamFromPadding(s: CubicSpline, length: real, times: seq<real>, points: seq<real>, dim: nat)
    requires s.Valid() && |times| >= 2 && |points| == Offset(|times|, dim) && s.dim == dim
    requires 2 * dim <= |points|
    requires forall m :: 0 <= m < |LoopTimes(length, times)| ==>
      s.Sample(LoopTimes(length, times)[m]) == PointValues(LoopPoints(points, dim), dim, m)
    ensures forall k :: 0 <= k < |times| ==> s.Sample(times[k]) == PointValues(points, dim, k)
    ensures s.Sample(length + times[0]) == s.Sample(times[0])
  {
    var n := |times|;
    var lt := LoopTimes(length, times);
    forall k | 0 <= k < n
      ensures s.Sample(times[k]) == PointValues(points, dim, k)
    {
      assert lt[k + 2] == times[k];
      LoopPointsAt(points, n, dim, k);
    }
    assert lt[n + 2] == length + times[0];
    LoopPointsAt(points, n, dim, 0);
  }
}
