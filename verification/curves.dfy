/** The roulette-curve sampler: the two curve families (hypotrochoid and
    epitrochoid), the closed-form point of a curve at a parameter value, and
    the sampling of a curve at evenly spaced parameter values.

    Numbers are reals. The host's cosine and sine are not interpreted: they
    are passed in as a `Trig` value, and the only facts used about them are
    cos(0) = 1 and sin(0) = 0. */
module Curves {

  /** A point of three-dimensional space. */
  datatype Vec3 = Vec3(x: real, y: real, z: real) {
    /** Every component multiplied by `k`. */
    function MultiplyScalar(k: real): Vec3 {
      Vec3(x * k, y * k, z * k)
    }
  }

  /** The host's cosine and sine. */
  datatype Trig = Trig(cos: real -> real, sin: real -> real)

  /** The only facts about the trigonometric functions the proofs rely on. */
  predicate ExactAtZero(math: Trig) {
    math.cos(0.0) == 1.0 && math.sin(0.0) == 0.0
  }

  /** A roulette curve. Each family stores, besides the five parameters it is
      built from, the radius its formula is written in: the difference of the
      two radii for a hypotrochoid, their sum for an epitrochoid. */
  datatype Curve =
    | Hypotrochoid(radiusOne: real, radiusTwo: real, distance: real, stretch: real, scale: real,
                   radiusDifference: real)
    | Epitrochoid(radiusOne: real, radiusTwo: real, distance: real, stretch: real, scale: real,
                  radiusSum: real)

  /** The derived radius agrees with the two radii. */
  predicate WellFormed(c: Curve) {
    match c
    case Hypotrochoid(r1, r2, _, _, _, difference) => difference == r1 - r2
    case Epitrochoid(r1, r2, _, _, _, sum) => sum == r1 + r2
  }

  /** A hypotrochoid built from its five parameters. */
  function NewHypotrochoid(radiusOne: real, radiusTwo: real, distance: real, stretch: real, scale: real): (c: Curve)
    ensures c.Hypotrochoid? && WellFormed(c)
    ensures c.radiusOne == radiusOne && c.radiusTwo == radiusTwo && c.distance == distance
    ensures c.stretch == stretch && c.scale == scale
  {
    Hypotrochoid(radiusOne, radiusTwo, distance, stretch, scale, radiusOne - radiusTwo)
  }

  /** An epitrochoid built from its five parameters. */
  function NewEpitrochoid(radiusOne: real, radiusTwo: real, distance: real, stretch: real, scale: real): (c: Curve)
    ensures c.Epitrochoid? && WellFormed(c)
    ensures c.radiusOne == radiusOne && c.radiusTwo == radiusTwo && c.distance == distance
    ensures c.stretch == stretch && c.scale == scale
  {
    Epitrochoid(radiusOne, radiusTwo, distance, stretch, scale, radiusOne + radiusTwo)
  }

  /** The unscaled point of a hypotrochoid at parameter `t`, in terms of its
      radius difference. The angle is `t * 360` and is handed to cosine and
      sine as it is. */
  function HypotrochoidTrace(math: Trig, radiusDifference: real, radiusTwo: real, distance: real,
                             stretch: real, t: real): Vec3
    requires radiusTwo != 0.0
  {
    var angle := t * 360.0;
    Vec3(radiusDifference * math.cos(angle) + distance * math.cos(radiusDifference * angle / radiusTwo),
         radiusDifference * math.sin(angle) + distance * math.sin(radiusDifference * angle / radiusTwo),
         t * stretch)
  }

  /** The unscaled point of an epitrochoid at parameter `t`, in terms of its
      radius sum. */
  function EpitrochoidTrace(math: Trig, radiusSum: real, radiusTwo: real, distance: real,
                            stretch: real, t: real): Vec3
    requires radiusTwo != 0.0
  {
    var angle := t * 360.0;
    Vec3(radiusSum * math.cos(angle) - distance * math.cos(radiusSum * angle / radiusTwo),
         radiusSum * math.sin(angle) - distance * math.sin(radiusSum * angle / radiusTwo),
         t * stretch)
  }

  /** The point of curve `c` at parameter `t`: the family's formula, scaled
      by the curve's scale. With `radiusTwo = 0` the host computes non-finite
      coordinates; this function is only defined when `radiusTwo` is not
      zero. */
  function GetPoint(math: Trig, c: Curve, t: real): Vec3
    requires c.radiusTwo != 0.0
  {
    match c
    case Hypotrochoid(_, radiusTwo, distance, stretch, scale, radiusDifference) =>
      HypotrochoidTrace(math, radiusDifference, radiusTwo, distance, stretch, t).MultiplyScalar(scale)
    case Epitrochoid(_, radiusTwo, distance, stretch, scale, radiusSum) =>
      EpitrochoidTrace(math, radiusSum, radiusTwo, distance, stretch, t).MultiplyScalar(scale)
  }

  /** The height of a point grows linearly with its parameter: z = t * stretch * scale. */
  lemma PointHeight(math: Trig, c: Curve, t: real)
    requires c.radiusTwo != 0.0
    ensures GetPoint(math, c, t).z == t * c.stretch * c.scale
  {
  }

  /** Scale linearity: a curve's point is the point of the same curve at
      scale 1, multiplied by the scale. */
  lemma ScaleLinearity(math: Trig, c: Curve, t: real)
    requires c.radiusTwo != 0.0
    ensures GetPoint(math, c, t) == GetPoint(math, c.(scale := 1.0), t).MultiplyScalar(c.scale)
  {
  }

  /** At t = 0 a hypotrochoid starts on the x axis, at distance
      (radiusOne - radiusTwo) + distance from the centre, times the scale. */
  lemma HypotrochoidAtZero(math: Trig, c: Curve)
    requires ExactAtZero(math)
    requires c.Hypotrochoid? && WellFormed(c) && c.radiusTwo != 0.0
    ensures GetPoint(math, c, 0.0) == Vec3(((c.radiusOne - c.radiusTwo) + c.distance) * c.scale, 0.0, 0.0)
  {
  }

  /** At t = 0 an epitrochoid starts on the x axis, at distance
      (radiusOne + radiusTwo) - distance from the centre, times the scale. */
  lemma EpitrochoidAtZero(math: Trig, c: Curve)
    requires ExactAtZero(math)
    requires c.Epitrochoid? && WellFormed(c) && c.radiusTwo != 0.0
    ensures GetPoint(math, c, 0.0) == Vec3(((c.radiusOne + c.radiusTwo) - c.distance) * c.scale, 0.0, 0.0)
  {
  }

  /** The epitrochoid with radii 2 and 3, distance 1, no stretch and scale 1
      starts at (4, 0, 0). */
  lemma EpitrochoidSample(math: Trig)
    requires ExactAtZero(math)
    ensures GetPoint(math, NewEpitrochoid(2.0, 3.0, 1.0, 0.0, 1.0), 0.0) == Vec3(4.0, 0.0, 0.0)
  {
  }

  /** The host's array constructor accepts as a length only a whole number in
      [0, 2^32); the sampler asks for `multiplier * n + 1` elements. */
  predicate SampleCountOk(n: real, multiplier: real) {
    var length := multiplier * n + 1.0;
    0.0 <= length && length.Floor as real == length && length.Floor < 0x1_0000_0000
  }

  /** The number of samples, `multiplier * n + 1`, as a natural number. */
  function SampleCount(n: real, multiplier: real): (count: nat)
    requires SampleCountOk(n, multiplier)
    ensures count as real == multiplier * n + 1.0
    ensures count < 0x1_0000_0000
  {
    (multiplier * n + 1.0).Floor
  }

  /** `points` holds, in order, the points of `c` at t = 0, 1/n, 2/n, ... */
  ghost predicate IsSampling(points: seq<Vec3>, math: Trig, c: Curve, n: real)
    requires c.radiusTwo != 0.0 && n != 0.0
  {
    forall i :: 0 <= i < |points| ==> points[i] == GetPoint(math, c, i as real / n)
  }

  /** Samples curve `c` at `multiplier * n + 1` parameter values `i / n`. */
  method GetPoints(math: Trig, c: Curve, n: real, multiplier: real) returns (points: array<Vec3>)
    requires c.radiusTwo != 0.0 && n != 0.0
    requires SampleCountOk(n, multiplier)
    ensures points.Length as real == multiplier * n + 1.0
    ensures IsSampling(points[..], math, c, n)
  {
    points := new Vec3[SampleCount(n, multiplier)];
    for index := 0 to points.Length
      invariant forall i :: 0 <= i < index ==> points[i] == GetPoint(math, c, i as real / n)
    {
      points[index] := GetPoint(math, c, index as real / n);
    }
  }
}
