# Hypotrochoid / epitrochoid visualizer: a Dafny model

The visualizer draws a roulette curve in a WebGL scene and lets the user change it with sliders. The curve is a hypotrochoid or an epitrochoid. A curve is a closed-form function of a parameter `t`. The drawn line holds `segmentMultiplier · segments + 1` samples of the curve, taken at `t = i / segments`.

A *shape* controller holds the curve parameters, the segment settings, the opacity and four per-second increments. On every frame it advances the radii, the distance and the stretch by their increments. Each advanced value wraps at the `max` of its slider range through the host's truncating `%`. The controller then removes its line from the scene and draws a new one.

The *view* holds the animation switch and the three presets. Every drawing slider's change handler removes the shape and draws it again. The increment sliders have no handler. The view applies the first preset when it is built.

The model has four modules, one per source file or component:

- `utilities.dfy` (`Utilities`): the slider limit tables, one constant record each.
- `curves.dfy` (`Curves`): the two curve families, `getPoint`, and `getPoints` filling an array in a loop.
  - The host's `Math.cos` and `Math.sin` are a `Trig` parameter.
  - The only facts used about them are cos 0 = 1 and sin 0 = 0.
- `shapes.dfy` (`Shapes`): the host's `%`, the animation step, and the `Shape` class.
  - The three.js scene is reduced to a set of `Line` objects.
  - Each `Line` has a `disposed` flag for its geometry.
  - The ghost set `drawn` records every line the controller has created, so that "nothing is leaked" can be stated.
- `views.dfy` (`Views`): the `View` class.
  - A slider write is `SetValue`: it assigns the field, then redraws for the drawing parameters.
  - It also holds the animate-gated frame update, the presets and the constructor.

Numbers are `real`. Three places where JavaScript arithmetic matters are written out:

- `%` truncates toward zero (`Shapes.Rem`).
- `new Array(len)` accepts only a whole `len` in [0, 2^32). This is `Curves.SampleCountOk`, a precondition wherever the host would otherwise throw.
- Non-finite coordinates. With `radiusTwo = 0`, the angle ratio `radiusDifference · angle / radiusTwo` is infinite or NaN, and the cosine and sine of it are NaN, so x and y become NaN. With `segments = 0`, t = 0 / 0 is NaN and every coordinate does. The model records such a line as `NonFinite(count)`.

The `NonFinite` case is reached in practice. The first preset sets the family selector while `segments` is still 0, so that draw produces NaN samples.

A wrap into [0, max) for every sign would need a floored modulo. The code's `%` truncates, so a negative sum stays negative (`RemBounds`, `RemIsTruncating`). For the non-negative values the sliders allow, the two agree.

## Model

| member | source | states |
|---|---|---|
| `Utilities.InitShapeParameters` | src/webgl/Utilities.ts:48-88 | Every range is proper (min < max, step > 0). The three radius/distance ranges are one range. radiusTwo's minimum is positive. No animated parameter's minimum is negative. The scale minimum is positive. The segment minimum and step are whole, and the multiplier steps by 1. |
| `Utilities.InitShapeMaterialParameters` | src/webgl/Utilities.ts:100-108 | The opacity range is proper and lies within [0, 1]. |
| `Utilities.InitShapeAnimationParameters` | src/webgl/Utilities.ts:137-162 | The four increment ranges are one proper range with minimum 0, so an increment set on a slider is never negative. |
| `Curves.NewHypotrochoid` | src/webgl/Shape.ts:38-41 | The curve keeps its five parameters and fixes the derived radius to radiusOne − radiusTwo. |
| `Curves.NewEpitrochoid` | src/webgl/Shape.ts:59-62 | The curve keeps its five parameters and fixes the derived radius to radiusOne + radiusTwo. |
| `Curves.GetPoint` | src/webgl/Shape.ts:44-72 | Defines `getPoint` for both families: the family's formula in its derived radius (`HypotrochoidTrace`, `EpitrochoidTrace`), with angle t · 360, multiplied by the scale. It has no contract of its own; its properties are the next five rows. |
| `Curves.PointHeight` | src/webgl/Shape.ts:44-72 | For both families, the z component of `getPoint(t)` is t · stretch · scale. |
| `Curves.ScaleLinearity` | src/webgl/Shape.ts:44-72 | For both families, a point is the same curve's point at scale 1, multiplied by the scale. |
| `Curves.HypotrochoidAtZero` | src/webgl/Shape.ts:44-51 | Given cos 0 = 1 and sin 0 = 0 and radiusTwo ≠ 0, a hypotrochoid's point at t = 0 is (((r1 − r2) + d) · scale, 0, 0). |
| `Curves.EpitrochoidAtZero` | src/webgl/Shape.ts:65-72 | Under the same assumptions, an epitrochoid's point at t = 0 is (((r1 + r2) − d) · scale, 0, 0). |
| `Curves.EpitrochoidSample` | src/webgl/Shape.ts:59-72 | The epitrochoid with radii 2 and 3, distance 1 and scale 1 starts at (4, 0, 0). |
| `Curves.SampleCount` | src/webgl/Shape.ts:26 | The length asked of the array constructor, multiplier · n + 1, is a natural number below 2^32 when the host accepts it. |
| `Curves.GetPoints` | src/webgl/Shape.ts:25-31 | The array has exactly multiplier · n + 1 elements. Element i, in order, is the curve's point at t = i / n. |
| `Shapes.Rem` | src/webgl/Shape.ts:182-185 | Defines the host's `%`: x minus the quotient truncated toward zero, times y. It has no contract of its own; its properties are the next three rows. |
| `Shapes.RemBounds` | src/webgl/Shape.ts:182-185 | For a positive bound, the host's `%` maps a non-negative value into [0, bound) and a negative one into (−bound, 0]. |
| `Shapes.RemBelowBound` | src/webgl/Shape.ts:182-185 | A value already in [0, bound) is left unchanged by `%`. |
| `Shapes.RemIsTruncating` | src/webgl/Shape.ts:182 | `%` is the truncating remainder, not the floored modulo: −1 % 10 = −1 and 12.5 % 10 = 2.5. |
| `Shapes.Advance` | src/webgl/Shape.ts:182 | One animated parameter after `secs` seconds. A non-negative sum lands in [0, max), and a sum already below max is kept as it is. |
| `Shapes.Animate` | src/webgl/Shape.ts:182-185 | Only radiusOne, radiusTwo, distance and stretch change. Scale, type, segment settings, opacity and all increments stay. |
| `Shapes.AnimateStaysInRange` | src/webgl/Shape.ts:182-185 | When each animated value lies in [0, max), the increments and the elapsed time are non-negative, each value stays in [0, max) after the step. |
| `Shapes.CurveFor` | src/webgl/Shape.ts:149-170 | Selector 0 builds a hypotrochoid and selector 1 an epitrochoid. Either way the curve is built from the controller's five parameters with its derived radius fixed. |
| `Shapes.Line.constructor` | src/webgl/Shape.ts:177 | A new line carries the given geometry and material, and its geometry is not disposed. |
| `Shapes.Scene.constructor` | src/webgl/View.ts:61 | A new scene shows no line. |
| `Shapes.Scene.Add` | src/webgl/Shape.ts:178 | Adding a line puts exactly that line into the scene. |
| `Shapes.Scene.Remove` | src/webgl/Shape.ts:145 | Removing takes the line out of the scene. Removing nothing changes nothing. |
| `Shapes.Shape.constructor` | src/webgl/Shape.ts:110-131 | Every parameter, increment and the opacity start at 0, and the selector names the hypotrochoid. No line is drawn, the scene is untouched, and the limit tables are kept. |
| `Shapes.Shape.RemoveShape` | src/webgl/Shape.ts:133-146 | The current line leaves the scene, its geometry is disposed and nothing else changes. It is idempotent: with no line yet, or once the line is removed and disposed, the scene is unchanged. With no earlier line leaked, none of the controller's lines remains shown. |
| `Shapes.Shape.DrawShape` | src/webgl/Shape.ts:148-179 | Exactly one new line joins the scene, and it depicts the current settings (`Depicts`). Its material is transparent white of width 1 with the controller's opacity. It has multiplier · segments + 1 samples: the selected curve at i / segments when segments and radiusTwo are non-zero, non-finite otherwise. Drawing after a removal leaves exactly the new line shown. |
| `Shapes.Shape.Update` | src/webgl/Shape.ts:181-187 | The settings become `Animate` of the old ones. The old line is disposed and out of the scene, and the scene holds the old lines minus that one, plus one new line. The new line depicts the animated settings: their opacity in its material, and their curve in its samples. The controller keeps exactly one line shown. |
| `Views.DrawableKept` | src/webgl/Shape.ts:152-171 | Only the family selector and the segment settings decide whether a draw can be made; other fields never stop it. |
| `Views.With` | src/webgl/View.ts:116-202 | A slider write: the written field reads the new value and every other field reads as before. |
| `Views.View.Write` | src/webgl/View.ts:116-202 | The controller's property bound to the slider becomes the new value; its line and its drawn lines are untouched. |
| `Views.View.SetValue` | src/webgl/View.ts:120-177 | After a drawing slider's write, the shape is removed and drawn again: the old line is disposed and the scene shows exactly one new line, which is live and depicts the settings with the new value. An increment slider (View.ts:180-202) only stores the value: the same line, still live, and the same scene. |
| `Views.View.Update` | src/webgl/View.ts:242-247 | With animation on, the shape advances exactly as `Shape.update` does: the old line is disposed and one fresh live line depicting the advanced settings is shown. With it off, the shape, its line and the scene are unchanged, and the line stays live. Values in their wrap ranges stay there for non-negative increments and time. |
| `Views.View.SetDrawing` | src/webgl/View.ts:255-282 | A preset's shape-parameter and material writes, in source order: afterwards those nine fields hold the given values, every other field is unchanged, the old line is disposed and the scene shows exactly one new live line. |
| `Views.View.SetCurve` | src/webgl/View.ts:255-265 | The selector, radiusOne, radiusTwo and distance writes: those four fields hold the given values, every other field is unchanged, the old line is disposed and one new live line is shown. |
| `Views.View.SetSegments` | src/webgl/View.ts:266-271 | The segment count is written while the old multiplier is in force, then the multiplier. Both hold the given values, every other field is unchanged, the old line is disposed and one new live line is shown. |
| `Views.View.SetLook` | src/webgl/View.ts:272-282 | The stretch, scale and opacity writes: those three fields hold the given values, every other field is unchanged, the old line is disposed and one new live line is shown. |
| `Views.View.SetIncrements` | src/webgl/View.ts:286-292 | The radiusOne, radiusTwo and distance increment writes: those three fields hold the given values, every other field is unchanged, and, with no change handler, the same line stays shown and live and the scene is unchanged. |
| `Views.View.Preset01` | src/webgl/View.ts:254-294 | Sets the hypotrochoid with radiusOne = max · 0.3305, radiusTwo = max · 0.66, distance = max · 0.75, segments = min, multiplier = max · 0.75, stretch = max · 0.20, scale = max · 0.20 and opacity = max · 0.25. It sets animate, radiusOneIncrement = max · 0.05, radiusTwoIncrement = 0 and distanceIncrement = max · 0.05. It keeps stretchIncrement. The old line is disposed and the scene then shows exactly one new live line, with every animated value in its wrap range. |
| `Views.View.Preset02` | src/webgl/View.ts:296-334 | Sets the epitrochoid with radiusOne = max · 0.166, radiusTwo = max · 0.133, distance = max · 0.50, segments = max · 0.20, multiplier = max · 0.75, stretch = max · 0.25, scale = max · 0.20 and opacity = max · 0.25. It sets animate, radiusOneIncrement = max · 0.05, and radiusTwoIncrement = distanceIncrement = 0. It keeps stretchIncrement. The old line is disposed and the scene then shows exactly one new live line. |
| `Views.View.Preset03` | src/webgl/View.ts:336-377 | Sets the hypotrochoid with radiusOne = max · 0.2222, radiusTwo = max · 0.4444, distance = max · 0.50, segments = max · 0.20, multiplier = max · 0.75, stretch = max · 0.25, scale = max · 0.10 and opacity = max · 0.25. It sets animate and radiusOneIncrement = max · 0.05, with the other two increments 0. It is the only preset that sets stretchIncrement, to max · 0.05. The old line is disposed and the scene then shows exactly one new live line. |
| `Views.View.constructor` | src/webgl/View.ts:50-90 | A new scene, the configured limit tables, animation on, and a new controller on which the first preset is applied (View.ts:223). The controller holds exactly the first preset's settings, with the stretch increment still 0. The scene shows exactly one new live line, which depicts those settings. |

## Left out

- Floating point: numbers are reals. Rounding in the preset products and in the sampling is not modelled.
- The values of `Math.cos` and `Math.sin`: they are a parameter with only cos 0 = 1 and sin 0 = 0 assumed. The angle `t · 360` is passed to them as it is, so whether degrees were meant does not affect any property stated here.
- NaN and infinities: a draw with `segments = 0` or `radiusTwo = 0` records only how many non-finite samples it makes. `Curves.GetPoint` requires `radiusTwo ≠ 0`. A zero wrap bound, which would make the update produce NaN, is excluded by `Shapes.WrapBoundsNonZero`.
- The array-length error: where `multiplier · segments + 1` is not a whole number in [0, 2^32), the host throws. The model demands `Curves.SampleCountOk` instead of modelling the exception.
- `Shapes.Shape.DrawShape`: a selector other than 0 or 1 leaves the curve undefined and the host faults. The model requires `Drawable`.
- `Views.View.Preset01`, `Views.View.Preset02` and `Views.View.Preset03` require that the new segment count, together with the multiplier still in force when it is set, gives an acceptable array length. The source has no such guard; otherwise the host would throw partway through the preset.
- `Views.View.SetValue` assigns the value exactly. The slider library's own `setValue` clamps a number to the slider's [min, max] and rounds it to the slider's step, for example a multiplier of 7.5 to 8. That library is not part of this model, so the presets' stated values are the products before clamping and rounding.
- The slider library: folder creation, controller handles (every `gui_*` field starts undefined), the display refresh `updateGUI`, and the animate checkbox's own write to `animate`.
- Rendering and camera: the renderer, `resetCamera` (called at the end of every preset), `onWindowResize`, the orbit controls, the scene background, and the camera the scene also holds.
- Three.js objects: `BufferGeometry`, `LineBasicMaterial` and `Line` are a `Line` with a geometry, a material and a `disposed` flag. The controller's `geom` and `mat` fields are the current line's geometry and material. Disposing a geometry and detaching it from its line is the one flag.
- Materials: `drawShape` builds a new `LineBasicMaterial` on every draw (Shape.ts:173), and nothing ever disposes the old one, although the comment in `removeShape` speaks of reusing it. The model's `Line` carries its material as a value and does not track material resources, so this leak is not modelled.
- Logging: the `console.log` calls in `drawShape`.
- The browser driver `src/App.ts`, with its animation loop and fixed time step, and the build configuration: these schedule and package the program and are not part of this model.
