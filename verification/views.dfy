/** The top-level view: the control-panel protocol by which a slider writes
    one field of the shape controller and, for the drawing parameters, has
    the shape removed and drawn again; the three presets, which set every
    field from the configured limits; and the per-frame update, which
    advances the shape only while animation is switched on.

    Rendering, the camera and the panel's own display are not modelled. */
module Views {
  import opened Utilities
  import opened Curves
  import opened Shapes

  /** The fields of the shape controller that have a slider on the panel. */
  datatype Field =
    | ShapeType | RadiusOne | RadiusTwo | Distance | Stretch | Segments | SegmentMultiplier | Scale
    | Opacity
    | RadiusOneIncrement | RadiusTwoIncrement | DistanceIncrement | StretchIncrement

  /** The sliders of the shape-parameter and material folders redraw the
      shape when they change; the increment sliders have no handler. */
  predicate Redraws(f: Field) {
    !(f.RadiusOneIncrement? || f.RadiusTwoIncrement? || f.DistanceIncrement? || f.StretchIncrement?)
  }

  /** The value of field `f` in `s`. */
  function Get(s: Settings, f: Field): real {
    match f
    case ShapeType => s.shapeType
    case RadiusOne => s.radiusOne
    case RadiusTwo => s.radiusTwo
    case Distance => s.distance
    case Stretch => s.stretch
    case Segments => s.segments
    case SegmentMultiplier => s.segmentMultiplier
    case Scale => s.scale
    case Opacity => s.opacity
    case RadiusOneIncrement => s.radiusOneIncrement
    case RadiusTwoIncrement => s.radiusTwoIncrement
    case DistanceIncrement => s.distanceIncrement
    case StretchIncrement => s.stretchIncrement
  }

  /** `s` with field `f` set to `v`: that field reads `v`, every other field
      reads as before. */
  function With(s: Settings, f: Field, v: real): (r: Settings)
    ensures Get(r, f) == v
    ensures forall g :: g != f ==> Get(r, g) == Get(s, g)
  {
    match f
    case ShapeType => s.(shapeType := v)
    case RadiusOne => s.(radiusOne := v)
    case RadiusTwo => s.(radiusTwo := v)
    case Distance => s.(distance := v)
    case Stretch => s.(stretch := v)
    case Segments => s.(segments := v)
    case SegmentMultiplier => s.(segmentMultiplier := v)
    case Scale => s.(scale := v)
    case Opacity => s.(opacity := v)
    case RadiusOneIncrement => s.(radiusOneIncrement := v)
    case RadiusTwoIncrement => s.(radiusTwoIncrement := v)
    case DistanceIncrement => s.(distanceIncrement := v)
    case StretchIncrement => s.(stretchIncrement := v)
  }

  /** Only the family selector and the segment settings decide whether the
      controller can draw. */
  lemma DrawableKept(s: Settings, f: Field, v: real)
    requires Drawable(s) && !(f.ShapeType? || f.Segments? || f.SegmentMultiplier?)
    ensures Drawable(With(s, f, v))
  {
  }

  class View {
    const scene: Scene
    const shape: Shape
    const shapeParameters: ShapeParameters
    const shapeMaterialParameters: ShapeMaterialParameters
    const shapeAnimationParameters: ShapeAnimationParameters
    /** Whether the shape is advanced on every frame. */
    var animate: bool

    /** The view owns one shape controller drawing into its scene; the scene
        shows exactly the controller's current line, which is live and depicts
        the controller's current settings; no earlier line is leaked, the limit
        tables are the configured ones and the controller can draw. */
    ghost predicate Valid()
      reads this, shape, scene, shape.drawn
    {
      && shape.scene == scene
      && shape.Valid() && shape.NoLeak()
      && scene.lines == shape.Current()
      && (shape.line != null ==> shape.Depicts(shape.line) && !shape.line.disposed)
      && shapeParameters == InitShapeParameters() && shape.shapeParameters == shapeParameters
      && shapeMaterialParameters == InitShapeMaterialParameters()
      && shape.shapeMaterialParameters == shapeMaterialParameters
      && shapeAnimationParameters == InitShapeAnimationParameters()
      && Drawable(shape.Snapshot())
    }

    /** A slider sets field `f` of the controller to `v`. For a drawing
        parameter its change handler then removes the shape and draws it
        again, so the scene shows one new line and the old one is released;
        an increment slider only stores the value. */
    method SetValue(f: Field, v: real)
      requires Valid() && Drawable(With(shape.Snapshot(), f, v))
      modifies shape, scene, shape.line
      ensures Valid()
      ensures shape.Snapshot() == With(old(shape.Snapshot()), f, v)
      ensures Redraws(f) ==> fresh(shape.line) && scene.lines == {shape.line} && shape.Depicts(shape.line)
      ensures Redraws(f) && old(shape.line) != null ==> old(shape.line).disposed
      ensures !Redraws(f) ==> shape.line == old(shape.line) && scene.lines == old(scene.lines)
    {
      Write(f, v);
      if Redraws(f) {
        shape.RemoveShape();
        shape.DrawShape();
      }
    }

    /** The property write a slider performs: field `f` of the controller
        becomes `v`; its line is left alone. */
    method Write(f: Field, v: real)
      modifies shape
      ensures shape.Snapshot() == With(old(shape.Snapshot()), f, v)
      ensures shape.line == old(shape.line) && shape.drawn == old(shape.drawn)
    {
      match f
      case ShapeType => shape.shapeType := v;
      case RadiusOne => shape.radiusOne := v;
      case RadiusTwo => shape.radiusTwo := v;
      case Distance => shape.distance := v;
      case Stretch => shape.stretch := v;
      case Segments => shape.segments := v;
      case SegmentMultiplier => shape.segmentMultiplier := v;
      case Scale => shape.scale := v;
      case Opacity => shape.opacity := v;
      case RadiusOneIncrement => shape.radiusOneIncrement := v;
      case RadiusTwoIncrement => shape.radiusTwoIncrement := v;
      case DistanceIncrement => shape.distanceIncrement := v;
      case StretchIncrement => shape.stretchIncrement := v;
    }

    /** One frame: while animation is on the controller advances by `secs`
        seconds and redraws; otherwise nothing changes. */
    method Update(secs: real)
      requires Valid()
      modifies shape, scene, shape.line
      ensures Valid()
      ensures old(animate) ==> shape.Snapshot() == Animate(old(shape.Snapshot()), shapeParameters, secs)
      ensures old(animate) ==> fresh(shape.line) && scene.lines == {shape.line} && shape.Depicts(shape.line)
      ensures old(animate) && old(shape.line) != null ==> old(shape.line).disposed
      ensures !old(animate) ==> shape.Snapshot() == old(shape.Snapshot())
      ensures !old(animate) ==> shape.line == old(shape.line) && scene.lines == old(scene.lines)
      ensures old(InWrapRange(shape.Snapshot(), shapeParameters)) && NonNegativeIncrements(old(shape.Snapshot())) && 0.0 <= secs
        ==> InWrapRange(shape.Snapshot(), shapeParameters)
    {
      if animate {
        if InWrapRange(shape.Snapshot(), shapeParameters) && NonNegativeIncrements(shape.Snapshot()) && 0.0 <= secs {
          AnimateStaysInRange(shape.Snapshot(), shapeParameters, secs);
        }
        shape.Update(secs);
      }
    }

    /** The shape-parameter and material sliders a preset moves, in the
        order it moves them; every one of them redraws. The segment count
        is set while the old multiplier is still in force. */
    method SetDrawing(shapeType: real, radiusOne: real, radiusTwo: real, distance: real, segments: real,
                      segmentMultiplier: real, stretch: real, scale: real, opacity: real)
      requires Valid()
      requires shapeType == 0.0 || shapeType == 1.0
      requires SampleCountOk(segments, shape.segmentMultiplier) && SampleCountOk(segments, segmentMultiplier)
      modifies shape, scene, shape.line
      ensures Valid()
      ensures fresh(shape.line) && scene.lines == {shape.line}
      ensures old(shape.line) != null ==> old(shape.line).disposed
      ensures shape.Snapshot() == old(shape.Snapshot()).(
        shapeType := shapeType, radiusOne := radiusOne, radiusTwo := radiusTwo, distance := distance,
        segments := segments, segmentMultiplier := segmentMultiplier, stretch := stretch, scale := scale,
        opacity := opacity)
    {
      SetCurve(shapeType, radiusOne, radiusTwo, distance);
      SetSegments(segments, segmentMultiplier);
      SetLook(stretch, scale, opacity);
    }

    /** The family selector and the three curve parameters, each redrawing. */
    method SetCurve(shapeType: real, radiusOne: real, radiusTwo: real, distance: real)
      requires Valid()
      requires shapeType == 0.0 || shapeType == 1.0
      modifies shape, scene, shape.line
      ensures Valid()
      ensures fresh(shape.line) && scene.lines == {shape.line}
      ensures old(shape.line) != null ==> old(shape.line).disposed
      ensures shape.Snapshot() == old(shape.Snapshot()).(
        shapeType := shapeType, radiusOne := radiusOne, radiusTwo := radiusTwo, distance := distance)
    {
      SetValue(ShapeType, shapeType);
      DrawableKept(shape.Snapshot(), RadiusOne, radiusOne);
      SetValue(RadiusOne, radiusOne);
      DrawableKept(shape.Snapshot(), RadiusTwo, radiusTwo);
      SetValue(RadiusTwo, radiusTwo);
      DrawableKept(shape.Snapshot(), Distance, distance);
      SetValue(Distance, distance);
    }

    /** The segment count and its multiplier, each redrawing. */
    method SetSegments(segments: real, segmentMultiplier: real)
      requires Valid()
      requires SampleCountOk(segments, shape.segmentMultiplier) && SampleCountOk(segments, segmentMultiplier)
      modifies shape, scene, shape.line
      ensures Valid()
      ensures fresh(shape.line) && scene.lines == {shape.line}
      ensures old(shape.line) != null ==> old(shape.line).disposed
      ensures shape.Snapshot() == old(shape.Snapshot()).(segments := segments, segmentMultiplier := segmentMultiplier)
    {
      SetValue(Segments, segments);
      SetValue(SegmentMultiplier, segmentMultiplier);
    }

    /** The stretch, the scale and the opacity, each redrawing. */
    method SetLook(stretch: real, scale: real, opacity: real)
      requires Valid()
      modifies shape, scene, shape.line
      ensures Valid()
      ensures fresh(shape.line) && scene.lines == {shape.line}
      ensures old(shape.line) != null ==> old(shape.line).disposed
      ensures shape.Snapshot() == old(shape.Snapshot()).(stretch := stretch, scale := scale, opacity := opacity)
    {
      DrawableKept(shape.Snapshot(), Stretch, stretch);
      SetValue(Stretch, stretch);
      DrawableKept(shape.Snapshot(), Scale, scale);
      SetValue(Scale, scale);
      DrawableKept(shape.Snapshot(), Opacity, opacity);
      SetValue(Opacity, opacity);
    }

    /** The increments of radiusOne, radiusTwo and distance; none redraws. */
    method SetIncrements(radiusOneIncrement: real, radiusTwoIncrement: real, distanceIncrement: real)
      requires Valid()
      modifies shape, scene, shape.line
      ensures Valid()
      ensures shape.line == old(shape.line) && scene.lines == old(scene.lines)
      ensures shape.Snapshot() == old(shape.Snapshot()).(
        radiusOneIncrement := radiusOneIncrement, radiusTwoIncrement := radiusTwoIncrement,
        distanceIncrement := distanceIncrement)
    {
      DrawableKept(shape.Snapshot(), RadiusOneIncrement, radiusOneIncrement);
      SetValue(RadiusOneIncrement, radiusOneIncrement);
      DrawableKept(shape.Snapshot(), RadiusTwoIncrement, radiusTwoIncrement);
      SetValue(RadiusTwoIncrement, radiusTwoIncrement);
      DrawableKept(shape.Snapshot(), DistanceIncrement, distanceIncrement);
      SetValue(DistanceIncrement, distanceIncrement);
    }

    /** The first preset: a hypotrochoid with the fewest segments, animated
        in radiusOne and distance. The new segment count must give a sample
        count the host accepts together with the multiplier in force when it
        is set. */
    method Preset01()
      requires Valid()
      requires SampleCountOk(shapeParameters.segments.min * 1.00, shape.segmentMultiplier)
      modifies this, shape, scene, shape.line
      ensures Valid() && animate
      ensures fresh(shape.line) && scene.lines == {shape.line}
      ensures old(shape.line) != null ==> old(shape.line).disposed
      ensures InWrapRange(shape.Snapshot(), shapeParameters)
      ensures shape.shapeType == 0.0
      ensures shape.radiusOne == shapeParameters.radiusOne.max * 0.3305
      ensures shape.radiusTwo == shapeParameters.radiusTwo.max * 0.66
      ensures shape.distance == shapeParameters.distance.max * 0.75
      ensures shape.segments == shapeParameters.segments.min * 1.00
      ensures shape.segmentMultiplier == shapeParameters.segmentMultiplier.max * 0.75
      ensures shape.stretch == shapeParameters.stretch.max * 0.20
      ensures shape.scale == shapeParameters.scale.max * 0.20
      ensures shape.opacity == shapeMaterialParameters.opacity.max * 0.25
      ensures shape.radiusOneIncrement == shapeAnimationParameters.radiusOneIncrement.max * 0.05
      ensures shape.radiusTwoIncrement == 0.0
      ensures shape.distanceIncrement == shapeAnimationParameters.distanceIncrement.max * 0.05
      ensures shape.stretchIncrement == old(shape.stretchIncrement)
    {
      SetDrawing(0.0, shapeParameters.radiusOne.max * 0.3305,
                 shapeParameters.radiusTwo.max * 0.66, shapeParameters.distance.max * 0.75,
                 shapeParameters.segments.min * 1.00, shapeParameters.segmentMultiplier.max * 0.75,
                 shapeParameters.stretch.max * 0.20, shapeParameters.scale.max * 0.20,
                 shapeMaterialParameters.opacity.max * 0.25);
      animate := true;
      SetIncrements(shapeAnimationParameters.radiusOneIncrement.max * 0.05, 0.0,
                    shapeAnimationParameters.distanceIncrement.max * 0.05);
    }

    /** The second preset: an epitrochoid with a fifth of the maximum
        segments, animated in radiusOne only. */
    method Preset02()
      requires Valid()
      requires SampleCountOk(shapeParameters.segments.max * 0.20, shape.segmentMultiplier)
      modifies this, shape, scene, shape.line
      ensures Valid() && animate
      ensures fresh(shape.line) && scene.lines == {shape.line}
      ensures old(shape.line) != null ==> old(shape.line).disposed
      ensures InWrapRange(shape.Snapshot(), shapeParameters)
      ensures shape.shapeType == 1.0
      ensures shape.radiusOne == shapeParameters.radiusOne.max * 0.166
      ensures shape.radiusTwo == shapeParameters.radiusTwo.max * 0.133
      ensures shape.distance == shapeParameters.distance.max * 0.50
      ensures shape.segments == shapeParameters.segments.max * 0.20
      ensures shape.segmentMultiplier == shapeParameters.segmentMultiplier.max * 0.75
      ensures shape.stretch == shapeParameters.stretch.max * 0.25
      ensures shape.scale == shapeParameters.scale.max * 0.20
      ensures shape.opacity == shapeMaterialParameters.opacity.max * 0.25
      ensures shape.radiusOneIncrement == shapeAnimationParameters.radiusOneIncrement.max * 0.05
      ensures shape.radiusTwoIncrement == 0.0 && shape.distanceIncrement == 0.0
      ensures shape.stretchIncrement == old(shape.stretchIncrement)
    {
      SetDrawing(1.0, shapeParameters.radiusOne.max * 0.166,
                 shapeParameters.radiusTwo.max * 0.133, shapeParameters.distance.max * 0.50,
                 shapeParameters.segments.max * 0.20, shapeParameters.segmentMultiplier.max * 0.75,
                 shapeParameters.stretch.max * 0.25, shapeParameters.scale.max * 0.20,
                 shapeMaterialParameters.opacity.max * 0.25);
      animate := true;
      SetIncrements(shapeAnimationParameters.radiusOneIncrement.max * 0.05, 0.0, 0.0);
    }

    /** The third preset: a hypotrochoid at half the scale of the others, the
        only preset that also animates the stretch. */
    method Preset03()
      requires Valid()
      requires SampleCountOk(shapeParameters.segments.max * 0.20, shape.segmentMultiplier)
      modifies this, shape, scene, shape.line
      ensures Valid() && animate
      ensures fresh(shape.line) && scene.lines == {shape.line}
      ensures old(shape.line) != null ==> old(shape.line).disposed
      ensures InWrapRange(shape.Snapshot(), shapeParameters)
      ensures shape.shapeType == 0.0
      ensures shape.radiusOne == shapeParameters.radiusOne.max * 0.2222
      ensures shape.radiusTwo == shapeParameters.radiusTwo.max * 0.4444
      ensures shape.distance == shapeParameters.distance.max * 0.50
      ensures shape.segments == shapeParameters.segments.max * 0.20
      ensures shape.segmentMultiplier == shapeParameters.segmentMultiplier.max * 0.75
      ensures shape.stretch == shapeParameters.stretch.max * 0.25
      ensures shape.scale == shapeParameters.scale.max * 0.10
      ensures shape.opacity == shapeMaterialParameters.opacity.max * 0.25
      ensures shape.radiusOneIncrement == shapeAnimationParameters.radiusOneIncrement.max * 0.05
      ensures shape.radiusTwoIncrement == 0.0 && shape.distanceIncrement == 0.0
      ensures shape.stretchIncrement == shapeAnimationParameters.stretchIncrement.max * 0.05
    {
      SetDrawing(0.0, shapeParameters.radiusOne.max * 0.2222,
                 shapeParameters.radiusTwo.max * 0.4444, shapeParameters.distance.max * 0.50,
                 shapeParameters.segments.max * 0.20, shapeParameters.segmentMultiplier.max * 0.75,
                 shapeParameters.stretch.max * 0.25, shapeParameters.scale.max * 0.10,
                 shapeMaterialParameters.opacity.max * 0.25);
      animate := true;
      SetIncrements(shapeAnimationParameters.radiusOneIncrement.max * 0.05, 0.0, 0.0);
      DrawableKept(shape.Snapshot(), StretchIncrement, shapeAnimationParameters.stretchIncrement.max * 0.05);
      SetValue(StretchIncrement, shapeAnimationParameters.stretchIncrement.max * 0.05);
    }

    /** A view with a new scene, the configured limit tables, animation on
        and a new controller, on which the first preset is applied: the
        controller holds the first preset's settings (the stretch increment
        keeps its initial 0) and the scene shows exactly one new line, which
        depicts them. */
    constructor (math: Trig)
      ensures Valid() && animate
      ensures shape.math == math
      ensures fresh(scene) && fresh(shape) && fresh(shape.line)
      ensures scene.lines == {shape.line} && shape.Depicts(shape.line)
      ensures shape.Snapshot() == Settings(
        shapeType := 0.0,
        radiusOne := shapeParameters.radiusOne.max * 0.3305,
        radiusTwo := shapeParameters.radiusTwo.max * 0.66,
        distance := shapeParameters.distance.max * 0.75,
        segments := shapeParameters.segments.min,
        segmentMultiplier := shapeParameters.segmentMultiplier.max * 0.75,
        stretch := shapeParameters.stretch.max * 0.20,
        scale := shapeParameters.scale.max * 0.20,
        opacity := shapeMaterialParameters.opacity.max * 0.25,
        radiusOneIncrement := shapeAnimationParameters.radiusOneIncrement.max * 0.05,
        radiusTwoIncrement := 0.0,
        distanceIncrement := shapeAnimationParameters.distanceIncrement.max * 0.05,
        stretchIncrement := 0.0)
    {
      var parentScene := new Scene();
      var controller := new Shape(parentScene, InitShapeParameters(), InitShapeMaterialParameters(), math);
      scene := parentScene;
      shape := controller;
      shapeParameters := InitShapeParameters();
      shapeMaterialParameters := InitShapeMaterialParameters();
      shapeAnimationParameters := InitShapeAnimationParameters();
      animate := true;
      new;
      Preset01();
    }
  }
}
