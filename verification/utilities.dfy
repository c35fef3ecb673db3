/** The configuration tables of the visualizer: for every slider of the control
    panel, the least and greatest value it offers and the step between values.
    The shape's animation wraps each animated parameter at the `max` of its
    range, and the presets are expressed as fractions of these bounds. */
module Utilities {

  /** The bounds and step of one slider. */
  datatype Range = Range(min: real, max: real, step: real)

  /** A usable slider: a non-empty interval and a positive step. */
  predicate Proper(r: Range) {
    r.min < r.max && 0.0 < r.step
  }

  /** Limits of the curve parameters and of the segment settings. */
  datatype ShapeParameters = ShapeParameters(
    radiusOne: Range,
    radiusTwo: Range,
    distance: Range,
    segments: Range,
    segmentMultiplier: Range,
    stretch: Range,
    scale: Range)

  predicate ProperShapeParameters(p: ShapeParameters) {
    && Proper(p.radiusOne) && Proper(p.radiusTwo) && Proper(p.distance)
    && Proper(p.segments) && Proper(p.segmentMultiplier)
    && Proper(p.stretch) && Proper(p.scale)
  }

  /** Limits of the line material. */
  datatype ShapeMaterialParameters = ShapeMaterialParameters(opacity: Range)

  /** Limits of the four per-second increments used by the animation. */
  datatype ShapeAnimationParameters = ShapeAnimationParameters(
    radiusOneIncrement: Range,
    radiusTwoIncrement: Range,
    distanceIncrement: Range,
    stretchIncrement: Range)

  /** The shape-parameter table. Every range is proper; the three radii share
      one range, and no slider of an animated parameter goes below zero, so
      the wrap bound (`max`) of each animated parameter is positive. The
      `radiusTwo` slider stops short of 0, the value at which the curve
      formula divides by zero. The segment count and its multiplier are whole
      numbers with whole steps. */
  function InitShapeParameters(): (p: ShapeParameters)
    ensures ProperShapeParameters(p)
    ensures p.radiusOne == p.radiusTwo == p.distance
    ensures 0.0 < p.radiusTwo.min
    ensures 0.0 <= p.radiusOne.min && 0.0 <= p.distance.min && 0.0 <= p.stretch.min
    ensures 0.0 < p.scale.min
    ensures p.segments.min.Floor as real == p.segments.min && p.segments.step.Floor as real == p.segments.step
    ensures p.segmentMultiplier.min.Floor as real == p.segmentMultiplier.min
    ensures p.segmentMultiplier.step == 1.0
  {
    ShapeParameters(
      radiusOne := Range(0.10, 10.00, 0.01),
      radiusTwo := Range(0.10, 10.00, 0.01),
      distance := Range(0.10, 10.00, 0.01),
      segments := Range(100.0, 10000.0, 10.0),
      segmentMultiplier := Range(1.00, 10.00, 1.00),
      stretch := Range(0.00, 10.00, 0.01),
      scale := Range(0.01, 0.50, 0.01))
  }

  /** The material table: opacity is a proper range within [0, 1]. */
  function InitShapeMaterialParameters(): (p: ShapeMaterialParameters)
    ensures Proper(p.opacity)
    ensures 0.0 <= p.opacity.min && p.opacity.max <= 1.0
  {
    ShapeMaterialParameters(opacity := Range(0.00, 1.00, 0.01))
  }

  /** The animation table: all four increments share one proper range whose
      minimum is 0, so an increment chosen on a slider is never negative. */
  function InitShapeAnimationParameters(): (p: ShapeAnimationParameters)
    ensures Proper(p.radiusOneIncrement)
    ensures p.radiusOneIncrement == p.radiusTwoIncrement == p.distanceIncrement == p.stretchIncrement
    ensures p.radiusOneIncrement.min == 0.0
  {
    ShapeAnimationParameters(
      radiusOneIncrement := Range(0.00, 1.00, 0.01),
      radiusTwoIncrement := Range(0.00, 1.00, 0.01),
      distanceIncrement := Range(0.00, 1.00, 0.01),
      stretchIncrement := Range(0.00, 1.00, 0.01))
  }
}
