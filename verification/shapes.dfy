/** The shape controller: the object that owns the current curve parameters,
    their per-second increments and the line currently shown in the scene,
    advances the animated parameters, and redraws the line.

    The rendering library's objects are abstracted: a `Line` stands for a
    drawn line with its geometry and material, and a `Scene` is the set of
    lines it displays. */
module Shapes {
  import opened Utilities
  import opened Curves

  /** The host's `%` on numbers: the remainder of a division whose quotient
      is truncated toward zero, so the result has the sign of `x`. */
  function Rem(x: real, y: real): real
    requires y != 0.0
  {
    x - Truncate(x / y) as real * y
  }

  /** `r` rounded toward zero. */
  function Truncate(r: real): int {
    if 0.0 <= r then r.Floor else -((-r).Floor)
  }

  /** For a positive divisor the remainder lies in [0, y) when `x` is not
      negative and in (-y, 0] when it is. */
  lemma RemBounds(x: real, y: real)
    requires y != 0.0
    ensures 0.0 <= x && 0.0 < y ==> 0.0 <= Rem(x, y) < y
    ensures x < 0.0 && 0.0 < y ==> -y < Rem(x, y) <= 0.0
  {
    if 0.0 < y {
      if 0.0 <= x {
        RemOfNonNegative(x, y);
      } else {
        RemOfNonNegative(-x, y);
        RemNegated(x, y);
      }
    }
  }

  /** A non-negative dividend leaves a remainder in [0, y). */
  lemma RemOfNonNegative(x: real, y: real)
    requires 0.0 <= x && 0.0 < y
    ensures 0.0 <= Rem(x, y) < y
  {
    var q := x / y;
    var f := q.Floor;
    assert Truncate(q) == f;
    BetweenMultiples(x, y, f as real);
  }

  /** `k * y` is the greatest multiple of `y` not above `x` when `k` is the
      whole part of `x / y`. */
  lemma BetweenMultiples(x: real, y: real, k: real)
    requires 0.0 < y && k <= x / y < k + 1.0
    ensures 0.0 <= x - k * y < y
  {
    var q := x / y;
    var fraction := q - k;
    FractionOfStep(fraction, y);
    var r := fraction * y;
    assert q * y == x;
    assert r == q * y - k * y;
    assert r == x - k * y;
  }

  /** A fraction of a positive step is shorter than the step. */
  lemma FractionOfStep(e: real, y: real)
    requires 0.0 <= e < 1.0 && 0.0 < y
    ensures 0.0 <= e * y < y
  {
  }

  /** Truncation is symmetric about zero, and so is the remainder. */
  lemma RemNegated(x: real, y: real)
    requires y != 0.0
    ensures Rem(-x, y) == -Rem(x, y)
  {
    DivNegated(x, y);
    assert Truncate(-(x / y)) == -Truncate(x / y);
  }

  /** Negating the dividend negates the quotient. */
  lemma DivNegated(x: real, y: real)
    requires y != 0.0
    ensures (-x) / y == -(x / y)
  {
  }

  /** Below the divisor the remainder leaves a value unchanged. */
  lemma RemBelowBound(x: real, y: real)
    requires 0.0 <= x < y
    ensures Rem(x, y) == x
  {
  }

  /** The remainder truncates: it is not the floored modulo, and a negative
      dividend keeps its sign. */
  lemma RemIsTruncating()
    ensures Rem(-1.0, 10.0) == -1.0
    ensures Rem(12.5, 10.0) == 2.5
  {
  }

  /** One animated parameter after `secs` seconds: its value plus the
      increment times the elapsed time, wrapped at `bound` by the host's `%`.
      A non-negative sum lands in [0, bound), and a sum already below the
      bound is kept as it is. */
  function Advance(value: real, increment: real, secs: real, bound: real): (r: real)
    requires bound != 0.0
    ensures 0.0 <= value + increment * secs && 0.0 < bound ==> 0.0 <= r < bound
    ensures 0.0 <= value + increment * secs < bound ==> r == value + increment * secs
  {
    var sum := value + increment * secs;
    RemBounds(sum, bound);
    if 0.0 <= sum < bound then RemBelowBound(sum, bound); Rem(sum, bound)
    else Rem(sum, bound)
  }

  /** Everything the controller holds about the shape besides its line: the
      five curve parameters, the family selector (0 for a hypotrochoid, 1 for
      an epitrochoid), the segment settings, the opacity and the four
      increments. */
  datatype Settings = Settings(
    radiusOne: real, radiusTwo: real, distance: real, stretch: real, scale: real,
    shapeType: real, segments: real, segmentMultiplier: real,
    opacity: real,
    radiusOneIncrement: real, radiusTwoIncrement: real, distanceIncrement: real, stretchIncrement: real)

  /** The settings of a freshly built controller: all zero. */
  const Unset := Settings(0.0, 0.0, 0.0, 0.0, 0.0, 0.0, 0.0, 0.0, 0.0, 0.0, 0.0, 0.0, 0.0)

  /** The host divides by each wrap bound; a zero bound would give NaN. */
  predicate WrapBoundsNonZero(p: ShapeParameters) {
    p.radiusOne.max != 0.0 && p.radiusTwo.max != 0.0 && p.distance.max != 0.0 && p.stretch.max != 0.0
  }

  /** The settings after `secs` seconds of animation. Only the four animated
      parameters change; everything else, the increments included, stays. */
  function Animate(s: Settings, p: ShapeParameters, secs: real): (r: Settings)
    requires WrapBoundsNonZero(p)
    ensures r.(radiusOne := s.radiusOne, radiusTwo := s.radiusTwo, distance := s.distance, stretch := s.stretch) == s
  {
    s.(radiusOne := Advance(s.radiusOne, s.radiusOneIncrement, secs, p.radiusOne.max),
       radiusTwo := Advance(s.radiusTwo, s.radiusTwoIncrement, secs, p.radiusTwo.max),
       distance := Advance(s.distance, s.distanceIncrement, secs, p.distance.max),
       stretch := Advance(s.stretch, s.stretchIncrement, secs, p.stretch.max))
  }

  /** Each animated parameter lies in [0, max) of its range. */
  predicate InWrapRange(s: Settings, p: ShapeParameters) {
    && 0.0 <= s.radiusOne < p.radiusOne.max
    && 0.0 <= s.radiusTwo < p.radiusTwo.max
    && 0.0 <= s.distance < p.distance.max
    && 0.0 <= s.stretch < p.stretch.max
  }

  /** Every increment is at least 0, as the increment sliders allow. */
  predicate NonNegativeIncrements(s: Settings) {
    && 0.0 <= s.radiusOneIncrement && 0.0 <= s.radiusTwoIncrement
    && 0.0 <= s.distanceIncrement && 0.0 <= s.stretchIncrement
  }

  /** With non-negative increments and elapsed time, animation keeps every
      animated parameter within [0, max). */
  lemma AnimateStaysInRange(s: Settings, p: ShapeParameters, secs: real)
    requires WrapBoundsNonZero(p) && InWrapRange(s, p)
    requires 0.0 <= secs && NonNegativeIncrements(s)
    ensures InWrapRange(Animate(s, p, secs), p)
  {
  }

  /** The controller can draw: the family selector names one of the two
      families (otherwise there is no curve to sample) and the sample count
      is an array length the host accepts. */
  predicate Drawable(s: Settings) {
    (s.shapeType == 0.0 || s.shapeType == 1.0) && SampleCountOk(s.segments, s.segmentMultiplier)
  }

  /** The curve the controller draws for the given selector and parameters. */
  function CurveFor(shapeType: real, radiusOne: real, radiusTwo: real, distance: real, stretch: real, scale: real): (c: Curve)
    requires shapeType == 0.0 || shapeType == 1.0
    ensures c.Hypotrochoid? <==> shapeType == 0.0
    ensures WellFormed(c)
    ensures c.radiusOne == radiusOne && c.radiusTwo == radiusTwo && c.distance == distance
    ensures c.stretch == stretch && c.scale == scale
  {
    if shapeType == 0.0 then NewHypotrochoid(radiusOne, radiusTwo, distance, stretch, scale)
    else NewEpitrochoid(radiusOne, radiusTwo, distance, stretch, scale)
  }

  /** The point data of a drawn line. When the segment count or `radiusTwo`
      is zero the host's samples have non-finite coordinates; the model keeps
      only how many there are. */
  datatype Geometry =
    | Samples(points: seq<Vec3>)
    | NonFinite(count: nat)
  {
    function Count(): nat {
      match this
      case Samples(points) => |points|
      case NonFinite(count) => count
    }
  }

  /** A line material: colour, line width, transparency flag and opacity. */
  datatype Material = Material(color: int, linewidth: int, transparent: bool, opacity: real)

  /** A drawn line. `disposed` records that its geometry has been released
      and detached from it. */
  class Line {
    const geometry: Geometry
    const material: Material
    var disposed: bool

    constructor (geometry: Geometry, material: Material)
      ensures this.geometry == geometry && this.material == material && !disposed
    {
      this.geometry := geometry;
      this.material := material;
      disposed := false;
    }
  }

  /** The scene graph, reduced to the lines it displays. */
  class Scene {
    var lines: set<Line>

    constructor ()
      ensures lines == {}
    {
      lines := {};
    }

    method Add(line: Line)
      modifies this
      ensures lines == old(lines) + {line}
    {
      lines := lines + {line};
    }

    /** Removing nothing, or a line that is not displayed, changes nothing. */
    method Remove(line: Line?)
      modifies this
      ensures lines == if line == null then old(lines) else old(lines) - {line}
    {
      if line != null {
        lines := lines - {line};
      }
    }
  }

  class Shape {
    const scene: Scene
    const shapeParameters: ShapeParameters
    const shapeMaterialParameters: ShapeMaterialParameters
    /** The host's cosine and sine. */
    const math: Trig

    /** The line drawn last; null before the first draw. */
    var line: Line?
    /** Every line this controller has ever drawn. */
    ghost var drawn: set<Line>

    var radiusOne: real
    var radiusTwo: real
    var distance: real
    var stretch: real
    var scale: real
    var shapeType: real
    var segments: real
    var segmentMultiplier: real
    var opacity: real
    var radiusOneIncrement: real
    var radiusTwoIncrement: real
    var distanceIncrement: real
    var stretchIncrement: real

    ghost function Snapshot(): Settings
      reads this
    {
      Settings(radiusOne, radiusTwo, distance, stretch, scale, shapeType, segments, segmentMultiplier,
                      opacity, radiusOneIncrement, radiusTwoIncrement, distanceIncrement, stretchIncrement)
    }

    /** The current line, as a set. */
    ghost function Current(): set<Line>
      reads this
    {
      if line == null then {} else {line}
    }

    /** The lines of this controller the scene displays. */
    ghost function Shown(): set<Line>
      reads this, scene
    {
      scene.lines * drawn
    }

    ghost predicate Valid()
      reads this
    {
      (line == null <==> drawn == {}) && (line != null ==> line in drawn)
    }

    /** No resource is leaked: every line drawn before the current one is out
        of the scene and its geometry released. */
    ghost predicate NoLeak()
      reads this, scene, drawn
    {
      forall l :: l in drawn && l != line ==> l !in scene.lines && l.disposed
    }

    /** Every line ever drawn, the current one included, is out of the scene
        and released. */
    ghost predicate Released()
      reads this, scene, drawn
    {
      forall l :: l in drawn ==> l !in scene.lines && l.disposed
    }

    /** Line `l` shows the current settings: a transparent white material of
        width 1 with the controller's opacity, and `multiplier * segments + 1`
        samples, which are the selected curve at t = i / segments when the
        segment count and radiusTwo are non-zero and non-finite otherwise. */
    ghost predicate Depicts(l: Line)
      reads this
    {
      && l.material == Material(0xFFFFFF, 1, true, opacity)
      && l.geometry.Count() as real == segmentMultiplier * segments + 1.0
      && (l.geometry.Samples? <==> segments != 0.0 && radiusTwo != 0.0)
      && (shapeType == 0.0 || shapeType == 1.0)
      && (l.geometry.Samples? ==>
            IsSampling(l.geometry.points, math, CurveFor(shapeType, radiusOne, radiusTwo, distance, stretch, scale),
                       segments))
    }

    /** A controller attached to `parentScene`. Every parameter, increment and
        the opacity start at 0, with the hypotrochoid selected; no line is
        drawn and the scene is left alone. */
    constructor (parentScene: Scene, shapeParameters: ShapeParameters,
                 shapeMaterialParameters: ShapeMaterialParameters, math: Trig)
      ensures scene == parentScene && this.shapeParameters == shapeParameters
      ensures this.shapeMaterialParameters == shapeMaterialParameters && this.math == math
      ensures Snapshot() == Unset
      ensures line == null && drawn == {} && Valid()
      ensures parentScene.lines == old(parentScene.lines)
    {
      this.shapeParameters := shapeParameters;
      this.shapeMaterialParameters := shapeMaterialParameters;
      scene := parentScene;
      this.math := math;
      radiusOne, radiusTwo, distance, stretch, scale := 0.0, 0.0, 0.0, 0.0, 0.0;
      shapeType, segments, segmentMultiplier := 0.0, 0.0, 0.0;
      opacity := 0.0;
      radiusOneIncrement, radiusTwoIncrement, distanceIncrement, stretchIncrement := 0.0, 0.0, 0.0, 0.0;
      line := null;
      drawn := {};
    }

    /** Takes the current line out of the scene and releases its geometry;
        the material is left as it is. Safe when nothing is drawn yet and when the
        line was already removed: then the scene does not change. */
    method RemoveShape()
      requires Valid()
      modifies scene, line
      ensures Valid() && line == old(line) && drawn == old(drawn)
      ensures scene.lines == old(scene.lines) - old(Current())
      ensures line != null ==> line.disposed
      ensures old(line == null || (line !in scene.lines && line.disposed)) ==> scene.lines == old(scene.lines)
      ensures old(NoLeak()) ==> Released() && Shown() == {}
    {
      if line != null {
        if !line.disposed {
          line.disposed := true;
        }
      }
      scene.Remove(line);
    }

    /** Samples the selected curve and adds one new line showing it to the
        scene, with a transparent white material of the controller's
        opacity. Drawing after the previous line has been removed leaves
        exactly the new line of this controller in the scene. */
    method DrawShape()
      requires Valid() && Drawable(Snapshot())
      modifies this, scene
      ensures Valid() && Snapshot() == old(Snapshot())
      ensures fresh(line) && drawn == old(drawn) + {line}
      ensures scene.lines == old(scene.lines) + {line}
      ensures !line.disposed && Depicts(line)
      ensures old(Released()) ==> NoLeak() && Shown() == {line}
    {
      var curve := CurveFor(shapeType, radiusOne, radiusTwo, distance, stretch, scale);
      var geometry;
      if segments != 0.0 && radiusTwo != 0.0 {
        var points := GetPoints(math, curve, segments, segmentMultiplier);
        geometry := Samples(points[..]);
      } else {
        geometry := NonFinite(SampleCount(segments, segmentMultiplier));
      }
      var material := Material(0xFFFFFF, 1, true, opacity);
      line := new Line(geometry, material);
      drawn := drawn + {line};
      scene.Add(line);
    }

    /** Advances the four animated parameters by their increments over
        `secs` seconds, each wrapped at the maximum of its range, then
        removes the old line and draws the new one. */
    method Update(secs: real)
      requires Valid() && Drawable(Snapshot()) && WrapBoundsNonZero(shapeParameters)
      modifies this, scene, line
      ensures Valid() && Drawable(Snapshot())
      ensures Snapshot() == Animate(old(Snapshot()), shapeParameters, secs)
      ensures fresh(line) && drawn == old(drawn) + {line}
      ensures !line.disposed && Depicts(line)
      ensures old(line) != null ==> old(line).disposed
      ensures scene.lines == old(scene.lines) - old(Current()) + {line}
      ensures old(NoLeak()) ==> NoLeak() && Shown() == {line}
    {
      radiusOne := Advance(radiusOne, radiusOneIncrement, secs, shapeParameters.radiusOne.max);
      radiusTwo := Advance(radiusTwo, radiusTwoIncrement, secs, shapeParameters.radiusTwo.max);
      distance := Advance(distance, distanceIncrement, secs, shapeParameters.distance.max);
      stretch := Advance(stretch, stretchIncrement, secs, shapeParameters.stretch.max);
      RemoveShape();
      DrawShape();
    }
  }
}
