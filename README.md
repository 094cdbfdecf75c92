# ImageClipper, modelled in Dafny

ImageClipper applies a CSS clip boundary to an image element. It keeps a small
mutable options record: shape name, size, anchor `x`/`y`, rotation, transition
and an optional custom path. From these options it generates the boundary: a
circle, an ellipse, an inset box, a polygon, or an opaque path string
(`none` when nothing applies). Setters, `set` and `preset` update the
options record in place; `reset` replaces it with a fresh default record. Each frame of `animate` eases the options from a start
snapshot towards a target.

This project models that core over exact reals:

- `wrappers.dfy` (`Wrappers`): `Option`, used for a property that may be absent.
- `js_math.dfy` (`JsMath`): `Math.min`, `Math.max`, the `[0,100]` clamp and the JavaScript
  remainder `r % 360`. The remainder truncates, so it keeps the sign of `r`.
- `shape_geometry.dfy` (`ShapeGeometry`): `generateClipPath` as a pure function into the
  `ClipPath` datatype. It uses the four vertex templates and the triangle and inset formulas.
- `parameters.dfy` (`Parameters`): the `Options` record and the partial `Patch` record.
  This module also holds `Object.assign` as `Merge`, the default record and the preset table.
- `animator.dfy` (`Animator`): one animation frame. It covers progress, the cubic ease-out,
  interpolation, and the options after the frame as a function `Tick`.
- `clipper.dfy` (`Clipper`): the `ImageClipper` class. It holds the option fields, and its
  methods mutate them as the source does. Each mutator's ensures gives the whole new options
  record: a field update of the old record for the setters (through `ClampPercent` or
  `Rem360` where the source clamps or wraps), `Merge` for `set`, `preset` and the constructor,
  `Defaults` for `reset`, and `Tick` for a frame. `get` and `getClipPath` return the current
  record and its boundary and change nothing.

Options other than the seven the clipper knows (`shape`, `size`, `x`, `y`,
`rotation`, `transition`, `customPath`) can enter through `set`, the
constructor or `animate`. The model keeps numeric ones in `extra`. They never affect the
boundary. They are where `animate`'s "missing start counts as 0" can apply.

Where the code and its documentation disagree, the model follows the code:

- `setRotation` is documented as "0-360 degrees" (image-clipper.js:225). It stores the
  truncated remainder `rotation % 360`, so a negative rotation stays negative (`-10` stays
  `-10`).
- A custom shape with an empty path yields `none`, not the empty path, because the
  source uses `customPath || 'none'`.

## Model

| member | source | states |
|---|---|---|
| JsMath.Min | image-clipper.js:195 | Math.min: no larger than either argument, and equal to one of them |
| JsMath.Max | image-clipper.js:195 | Math.max: no smaller than either argument, and equal to one of them |
| JsMath.ClampPercent | image-clipper.js:195 | `Math.max(0, Math.min(100, v))` lies in [0,100], is v when v is in range, 0 below and 100 above |
| JsMath.Trunc | image-clipper.js:228 | the quotient of `%` is the real truncated toward zero (floor for non-negatives, ceiling for negatives) |
| JsMath.Rem360 | image-clipper.js:228 | `r % 360` has magnitude below 360, the sign of r, differs from r by a whole multiple of 360, and is r itself when abs(r) < 360 |
| JsMath.Rem360Unique | image-clipper.js:228 | those properties determine the remainder uniquely |
| JsMath.Rem360Idempotent | image-clipper.js:228 | normalising a stored rotation again changes nothing |
| JsMath.Rem360Samples | image-clipper.js:228 | 370 becomes 10, -10 stays -10, -370 becomes -10, 360 and 720 become 0 |
| ShapeGeometry.TemplateOf | image-clipper.js:67-173 | the diamond, hexagon, star and heart templates have 4, 6, 10 and 12 vertices, all in the unit square |
| ShapeGeometry.Place | image-clipper.js:82-86 | a placed template vertex is clamp(anchor + (t - 0.5) * size) on each axis separately, so it always lies in [0,100] x [0,100] |
| ShapeGeometry.ScaleTemplate | image-clipper.js:82-88 | mapping a template keeps its vertex count and puts every vertex inside the box |
| ShapeGeometry.GenerateClipPath | image-clipper.js:49-181 | the boundary is total; its kind depends only on the shape name: circle, ellipse, inset for rectangle/inset, polygon for triangle and the template shapes, opaque for every other name |
| ShapeGeometry.TemplatePolygon | image-clipper.js:67-173 | for every size and anchor, the template shapes yield polygons of 4, 6, 10 and 12 vertices, in template order, all inside the box |
| ShapeGeometry.TemplateUnclampedWhenFits | image-clipper.js:82-86 | when the shape's bounding square fits in the element, every vertex is exactly anchor + (t - 0.5) * size (no clamping happens) |
| ShapeGeometry.PlaceExactWhenFits | image-clipper.js:82-86 | the same for one vertex |
| ShapeGeometry.DiamondSample | image-clipper.js:67-88 | the diamond of size 60 at (50,50) has vertices (50,20), (80,50), (50,80), (20,50) |
| ShapeGeometry.HeartPseudoCusp | image-clipper.js:151-164 | the heart's repeated bottom-approach vertex is still repeated after placing: vertex 5 equals vertex 7 |
| ShapeGeometry.TrianglePoints | image-clipper.js:64-65 | for any input, three vertices: the apex on the anchor's vertical and not above the top edge, the base-left not left of the left edge, the base-right not right of the right edge, and both base vertices on one line not below the bottom edge |
| ShapeGeometry.TriangleInBox | image-clipper.js:64-65 | for size, x, y in [0,100], the triangle's three vertices lie in the box, the apex has x equal to the anchor x, and both base vertices have y = min(100, y + size) |
| ShapeGeometry.InsetBox | image-clipper.js:59-62 | rectangle and inset yield the same box for any anchors; its four edges are all (100 - size) / 2, so the box spans size percent |
| ShapeGeometry.InsetEnds | image-clipper.js:59-62 | size 100 gives edges 0, size 0 gives edges 50 |
| ShapeGeometry.RoundShapes | image-clipper.js:53-57 | a circle passes size, x and y through unclamped; an ellipse has rx = size, ry = 0.7 rx and centre (x, y) |
| ShapeGeometry.OpaqueShapes | image-clipper.js:175-179 | custom yields the custom path when it is set and non-empty, otherwise none; any unknown name yields none |
| Parameters.Defaults | image-clipper.js:18-24 | the default record: circle, size 50, at (50,50), rotation 0, transition '0.3s ease', no custom path, no other options |
| Parameters.Merge | image-clipper.js:244-247 | Object.assign: each key the patch has takes the patch's value, every other option keeps its value, and the set of other names is the union of both |
| Parameters.MergeExtras | image-clipper.js:245 | Object.assign on the other numeric names: a name the patch has takes the patch's value, every other name keeps its value |
| Parameters.MergeEmpty | image-clipper.js:245 | merging an empty patch changes nothing |
| Parameters.MergeIdempotent | image-clipper.js:245 | merging the same patch twice equals merging it once |
| Parameters.PresetOf | image-clipper.js:325-336 | exactly the eight names have an entry; each entry sets the shape of the same name (a rectangle for "square"), a size in [0,100], x = y = 50 and rotation 0, and nothing else |
| Parameters.PresetCount | image-clipper.js:325-334 | the preset table has eight names |
| Parameters.PresetApplied | image-clipper.js:336-337 | a known preset centres and unrotates; it keeps transition, custom path and other options; it always draws a real boundary (never none); star gives exactly (star, 70, 50, 50, 0); square draws a rectangle |
| Animator.Progress | image-clipper.js:295 | `Math.min(ratio, 1)` never exceeds 1, is the ratio up to 1, and is 1 from then on |
| Animator.EaseOut | image-clipper.js:298 | `1 - (1 - p)^3` is 0 at p = 0, 1 at p = 1, and in [0,1] for p in [0,1] |
| Animator.EaseOutMonotone | image-clipper.js:298 | the easing never decreases as progress grows |
| Animator.Eased | image-clipper.js:295-298 | the eased progress of a frame is 0 at ratio 0, 1 from ratio 1 on, and in [0,1] for a non-negative ratio |
| Animator.EasedSamples | image-clipper.js:295-298 | the eased progress is 0 at ratio 0, 0.875 at ratio 0.5 and 1 at ratio 1 |
| Animator.Interpolate | image-clipper.js:305 | `start + (end - start) * eased` is start at eased 0 and end at eased 1 |
| Animator.InterpolateBetween | image-clipper.js:305 | with eased progress in [0,1] the interpolated value lies between start and end |
| Animator.InterpolatedExtras | image-clipper.js:301-305 | a frame writes exactly the target's numeric options under other names |
| Animator.Tick | image-clipper.js:301-309 | after a frame, non-numeric options and the set of option names agree with merging the target; numeric options the target lacks are unchanged |
| Animator.TickKeepsUntargeted | image-clipper.js:301-309 | an option the target does not name keeps its current value |
| Animator.TickComplete | image-clipper.js:295-309 | the frame at ratio >= 1 leaves exactly what merging the target would: every numeric target key equals its target value |
| Animator.TickAtStart | image-clipper.js:301-307 | at eased progress 0 every numeric target key is at its start value, or 0 if the start lacks it, and the shape is already the target's |
| Animator.ExtraStart | image-clipper.js:303 | the start value of an option under another name: its stored value when the start snapshot has it, 0 otherwise |
| Animator.TickMissingStart | image-clipper.js:303-305 | an option missing from the start snapshot is animated from 0 |
| Animator.TickBetween | image-clipper.js:295-305 | from a non-negative ratio on, each animated option (size, x, y, rotation and every other numeric name, the latter starting from 0 when missing) lies between its start and target values |
| Animator.InterpolateMonotone | image-clipper.js:295-305 | an option animated upwards is never lower at a later frame |
| Animator.TickSizeMonotone | image-clipper.js:295-305 | animating the size upwards, a later frame's size is at least an earlier frame's |
| Animator.SizeAnimationSample | image-clipper.js:298-305 | animating size 50 to 100 gives 50 at the first frame, 93.75 at eased progress 0.875 (ratio 0.5), 100 at the end |
| Clipper.ImageClipper.constructor | image-clipper.js:18-26 | the new options are the defaults with the caller's overrides merged over them |
| Clipper.ImageClipper.GetClipPath | image-clipper.js:259-261 | returns the boundary generated from the current options, changing nothing |
| Clipper.ImageClipper.Get | image-clipper.js:252-254 | returns a copy of the current options |
| Clipper.ImageClipper.SetShape | image-clipper.js:186-189 | stores the shape name unchecked, changes nothing else, and returns the new boundary |
| Clipper.ImageClipper.SetSize | image-clipper.js:194-197 | stores the size clamped to [0,100], changes nothing else, and returns the new boundary |
| Clipper.ImageClipper.SetPosition | image-clipper.js:202-206 | stores x and y each clamped to [0,100], changes nothing else, and returns the new boundary |
| Clipper.ImageClipper.SetX | image-clipper.js:211-214 | stores x clamped to [0,100], changes nothing else, and returns the new boundary |
| Clipper.ImageClipper.SetY | image-clipper.js:219-222 | stores y clamped to [0,100], changes nothing else, and returns the new boundary |
| Clipper.ImageClipper.SetRotation | image-clipper.js:227-230 | stores `rotation % 360` (magnitude below 360, sign kept), changes nothing else, and returns the new boundary |
| Clipper.ImageClipper.SetCustomPath | image-clipper.js:235-239 | stores the path and switches the shape to custom; the boundary is the path, or none for an empty path |
| Clipper.ImageClipper.Set | image-clipper.js:244-247 | the new options are the old ones with the patch merged in, unclamped |
| Clipper.ImageClipper.Assign | image-clipper.js:245 | the key-by-key copy: every key the patch has is written, every other option keeps its value |
| Clipper.ImageClipper.Reset | image-clipper.js:266-276 | the options become exactly the default record whatever they were, dropping the custom path and other options; the boundary is circle(50) at (50,50) |
| Clipper.ImageClipper.Preset | image-clipper.js:324-342 | a known preset is merged into the options; an unknown name leaves them unchanged |
| Clipper.ImageClipper.AnimateStep | image-clipper.js:293-311 | after one frame the options are Tick of the old options, start snapshot, target and the eased ratio |
| Clipper.ImageClipper.AnimateKnown | image-clipper.js:301-309 | writes the frame's values of the seven known options, and leaves the other options alone |
| Clipper.ImageClipper.AnimateExtras | image-clipper.js:301-309 | writes the target's other numeric options one at a time (a missing start counts as 0), and leaves the rest alone |

## Left out

- Writes to the element's style are left out: the transition at initialisation, the clip path
  and the rotation transform in `updateClip`, and both writes in `clear`. `clear` touches only
  the rendered style, so it has no effect on the modelled state. Setters return the boundary
  that `updateClip` would render.
- Clipper.ImageClipper.Reset: writes the defaults into the clipper's own fields; the source
  instead replaces its options object with a fresh one. The model has no options object with
  an identity of its own (`Get` returns a copy), so it does not capture that a caller still
  holding the old options object keeps the old values after `reset`, while that same object
  would see the changes made by `set` and the setters.
- The constructor's element lookup and its "Element not found" error are left out. They
  depend on the document. The constructor is modelled as defaults merged with overrides.
- `animate`'s scheduling is left out: the `performance.now` start time, the
  `requestAnimationFrame` callbacks, and the rule that frames stop at progress 1. A frame
  takes the ratio elapsed/duration as a parameter. The division, the default duration of
  1000, and a zero or negative duration are not modelled.
- Clipper.ImageClipper.AnimateStep: takes the ratio elapsed/duration instead of the
  timestamp and duration, because clocks are outside the model. A negative ratio is allowed
  and extrapolates backwards, as the source would.
- `createControls`, `syncControls`, `clipAll` and the module-export branching are left out.
  They are user-interface and document glue. This includes the conversion of slider strings
  to numbers.
- The `console.warn` for an unknown preset is left out. Only its "no change" effect is
  modelled.
- The preset table is read as a plain object in the source. Inherited names such as
  `toString` are therefore truthy there and go through `set` with no own keys. The model
  treats them as unknown names. The resulting options are the same; only the warning differs.
- Exact reals stand in for IEEE doubles, and a descriptor datatype stands in for the CSS text.
  Number formatting, rounding, NaN and infinities are not modelled. In doubles,
  `start + (end - start) * 1` can differ from `end` in the last bit. `TickComplete` holds
  exactly over reals.
- JavaScript's dynamic typing is not modelled. Options are typed: a non-string shape, a
  string size, or a key assigned `undefined` through `set` or `animate` cannot be expressed.
  Options under other names are numeric only.
- Animator.ExtraStart: names inherited from `Object.prototype` (`constructor`, `toString`,
  `valueOf`, `hasOwnProperty`, `isPrototypeOf`, `propertyIsEnumerable`, `toLocaleString`)
  are treated as absent from the start snapshot and animate from 0. In the source the
  snapshot is a plain object, so `startOptions[name]` finds the inherited function, which is
  truthy; the frame then computes `function + (target - function) * eased`, storing a string
  ending in `NaN` instead of a number.
- The known numeric options always have a start value. For them, `|| 0` changes nothing,
  since a start of 0 stays 0.
