# Box utility: a verified model

This project models `Box`, the geometry utility of ember-box-utils. A box is
an axis-aligned rectangle stored as four offsets from one origin: `top`,
`left`, `bottom` and `right`. `bottom` and `right` are offsets from the same
origin, not lengths. Nothing stops a box from being inverted (`right < left`);
width and height are then negative, and every operation still works.

The model has three modules:

- `Geometry` (geometry.dfy) holds the value semantics.
  - `Rect` is the four offsets.
  - `EdgeOrCorner` is the eight edge and corner names.
  - `Sides` is the `{top, right, bottom, left}` object with optional numbers.
  - There is one specification function per operation: `Width`, `Height`,
    `MidX`, `MidY`, `PointAt`, `CanContain`, `Grown`, `Shrunk`, `Translated`,
    `PointedTo`, `Constrained` and `Cropped`.
  - The lemmas relate these operations: round trips, idempotence, what
    `canContain` means geometrically, and chains of calls.
- `BoxUtil` (box.dfy) holds the mutable class `Box`.
  - It has the four real fields and the read-only measurements.
  - The transforms update the fields in place and return the same object, as
    the source does.
  - `Constrain` applies the source's four dependent steps in the source's
    order: top, left, bottom, right.
  - Every transform is proved to leave exactly the rectangle that its
    `Geometry` function computes.
- `BoxScenarios` (scenarios.dfy) holds the unit-test scenarios on the box
  top=50, left=50, bottom=100, right=100, stated as lemmas.

Modelling decisions:

- Coordinates are exact `real`s.
- A missing bound of `constrain` or `crop` is `None`, which stands for the
  source's `-Infinity`/`Infinity` default. A missing field of the
  constructor's configuration is `None`, which the constructor reads as 0.
- `constrain` is specified one axis at a time by `Slide`. Its two steps on
  each axis (raise to the low bound, then lower to the high bound) are the
  source's steps. The axes are independent, so interleaving them as the
  method does gives the same result.
- When a box is larger than the bounds on an axis, the bottom or right bound
  wins: the box ends flush with it and past the top or left bound. The
  source's own tests expect this (tests/unit/utils/box-test.js:266-274).
  `ConstrainOversizedFavoursBottomRight` states it, and the contract of
  `Constrained` states the if-and-only-if: the box ends up inside on an axis
  exactly when it fits between that axis's bounds.
- Method chaining (each transform returns `this`) is modelled by
  `Transform` and `Chain`. A list of calls is applied in order.

## Model

| member | source | states |
|---|---|---|
| Geometry.Rect.FromSides | addon/utils/box.js:11-16 | each side given in the configuration is taken as is; each missing side is 0 whatever the other sides are; an empty configuration gives the zero box |
| BoxUtil.Box.constructor | addon/utils/box.js:11-16 | the new box holds exactly the rectangle `FromSides` gives for the configuration |
| BoxUtil.Box.Clone | addon/utils/box.js:22-29 | the copy is a newly allocated object, so it is not `this`, and it has the same four offsets |
| BoxUtil.GrowClone | addon/utils/box.js:22-29 | growing a clone leaves the original object entirely unchanged |
| BoxUtil.TranslateAfterClone | addon/utils/box.js:22-29 | moving the original after cloning leaves the clone at the original's old offsets |
| Geometry.Rect.Width | addon/utils/box.js:35-37 | right is left plus the width; the width is negative exactly when the box is inverted horizontally (no clamping) |
| Geometry.Rect.Height | addon/utils/box.js:43-45 | bottom is top plus the height; the height is negative exactly when the box is inverted vertically (no clamping) |
| Geometry.Rect.MidX | addon/utils/box.js:51-53 | the result is equidistant from left and right, and it lies between them when left <= right |
| Geometry.Rect.MidY | addon/utils/box.js:59-61 | the result is equidistant from top and bottom, and it lies between them when top <= bottom |
| Geometry.EdgeOrCorner.Parse | addon/utils/box.js:213-229 | a string parses to a designator only if that designator's name (the EDGE and CORNER table values) is that string, and every one of the eight names parses to its designator; any other string gives `None` |
| Geometry.ParseName | addon/utils/box.js:213-229 | each of the eight designators' names parses back to that designator |
| Geometry.Rect.PointAt | addon/utils/box.js:68-87 | each designator names a column (left, centre or right) and a row (top, centre or bottom); the point is that column's x and that row's y |
| Geometry.Rect.Grown | addon/utils/box.js:94-100 | width and height grow by 2*amount; the centre stays put; a non-negative amount gives a box enclosing the old one |
| Geometry.Rect.Shrunk | addon/utils/box.js:107-113 | width and height shrink by 2*amount; the centre stays put; growing the result by the same amount gives back the original |
| Geometry.GrowShrinkRoundTrip | addon/utils/box.js:94-113 | grow then shrink by the same amount, in either order, restores all four offsets |
| BoxUtil.Box.Grow | addon/utils/box.js:94-100 | updates the fields in place to `Grown(amount)` of the old value and returns the same object |
| BoxUtil.Box.Shrink | addon/utils/box.js:107-113 | updates the fields in place to `Shrunk(amount)` of the old value and returns the same object |
| Geometry.Rect.Translated | addon/utils/box.js:121-127 | width and height are unchanged; both centres move by the vector |
| Geometry.TranslateMovesEveryPoint | addon/utils/box.js:121-127 | every edge and corner point moves by exactly the translation vector |
| Geometry.TranslateRoundTrip | addon/utils/box.js:121-127 | translating by a vector and then by its opposite restores the box |
| BoxUtil.Box.Translate | addon/utils/box.js:121-127 | updates the fields in place to `Translated(delta)` of the old value, keeps width and height, and returns the same object |
| Geometry.Rect.PointedTo | addon/utils/box.js:136-140 | afterwards the point at the designator is exactly the target; width and height are unchanged |
| Geometry.PointToCurrentPoint | addon/utils/box.js:136-140 | pointing a designator at where it already is leaves the box unchanged |
| BoxUtil.Box.PointTo | addon/utils/box.js:136-140 | moves the box in place so that `PointAt(at) == to`, keeps width and height, and returns the same object |
| Geometry.Slide | addon/utils/box.js:150-165 | the shift is the least needed: none when already inside; flush with the low bound when only that bound was crossed and the segment fits; flush with the high bound when only the high bound was crossed, or when the segment does not fit (then past the low bound); the shifted low end is within the low bound iff the segment fits |
| Geometry.Rect.Constrained | addon/utils/box.js:150-167 | only translates, so width and height are kept; each axis moves by the `Slide` of that axis's own sides and bounds, independently of the other axis; bottom and right end within their bounds; a box already within the bounds is unchanged; top (left) ends within its bound iff the height (width) fits between the bounds |
| BoxUtil.Box.Constrain | addon/utils/box.js:150-167 | the four dependent in-place steps, top, left, bottom, right, leave exactly `Constrained(bounds)` of the old value; the method returns the same object |
| Geometry.ConstrainOversizedFavoursBottomRight | addon/utils/box.js:159-165 | on an axis where the box does not fit, it ends flush with the bottom (right) bound and beyond the top (left) bound |
| Geometry.ConstrainIdempotent | addon/utils/box.js:150-167 | constraining twice by the same bounds equals constraining once |
| Geometry.ConstrainIntoContainer | addon/utils/box.js:150-192 | a box constrained to the sides of a box that `canContain` it ends up enclosed by that box |
| Geometry.Rect.Cropped | addon/utils/box.js:177-183 | the result respects every given bound and lies inside the original box; a missing bound leaves its side unchanged; width and height never increase |
| BoxUtil.Box.Crop | addon/utils/box.js:177-183 | updates the fields in place to `Cropped(bounds)` of the old value and returns the same object |
| Geometry.CropIdempotent | addon/utils/box.js:177-183 | cropping twice by the same bounds equals cropping once |
| Geometry.CropIsIntersection | addon/utils/box.js:177-183 | a box lies inside the cropped box iff it lies inside the original box and within the bounds: the crop is the intersection |
| Geometry.Rect.CanContain | addon/utils/box.js:190-192 | holds exactly when the other box, moved so that its top-left corner is on this box's top-left corner, lies inside this box |
| Geometry.CanContainIffFitsSomewhere | addon/utils/box.js:190-192 | `canContain(other)` holds iff some translation of `other` lies inside this box, so it ignores position |
| Geometry.CanContainPreorder | addon/utils/box.js:190-192 | `canContain` is reflexive and transitive |
| Geometry.InverseUndoes | addon/utils/box.js:94-127 | applying a grow, shrink or translate call and then its inverse restores the box |
| Geometry.ChainAppend | addon/utils/box.js:94-183 | a chain of calls split in two acts as its first part followed by its second |
| Geometry.RigidChainKeepsSize | addon/utils/box.js:121-167 | any chain of `translate`, `pointTo` and `constrain` calls keeps width and height |
| Geometry.UndoRestores | addon/utils/box.js:94-127 | a chain of grow, shrink and translate calls followed by their inverses in reverse order restores the box |
| BoxUtil.GrowThenTranslate | addon/utils/box.js:94-127 | the chained call `box.grow(a).translate(v)` returns the same box and leaves what the two-call `Chain` computes |
| BoxScenarios.ConstructorDefaults | tests/unit/utils/box-test.js:23-49 | no configuration gives 0,0,0,0; the given sides are kept and each missing side is 0 |
| BoxScenarios.FiftyBoxMeasurements | tests/unit/utils/box-test.js:52-114 | width 50, height 50, centre (75, 75), all eight points, and canContain of the clone, a smaller box and a bigger box |
| BoxScenarios.FiftyBoxGrowShrinkTranslate | tests/unit/utils/box-test.js:116-144 | grow(10), shrink(10) and translate([10, 10]) give the expected offsets |
| BoxScenarios.FiftyBoxPointToTop | tests/unit/utils/box-test.js:186-194 | pointTo('top', [100, 100]) gives top=100, left=75, bottom=150, right=125 |
| BoxScenarios.FiftyBoxPointToBottomLeft | tests/unit/utils/box-test.js:166-174 | pointTo('bottom left', [100, 100]) gives top=50, left=100, bottom=100, right=150 |
| BoxScenarios.FiftyBoxConstrainTop | tests/unit/utils/box-test.js:226-234 | constrain({top: 70}) shifts the box down by 20 |
| BoxScenarios.FiftyBoxConstrainLeft | tests/unit/utils/box-test.js:236-244 | constrain({left: 70}) shifts the box right by 20 |
| BoxScenarios.FiftyBoxConstrainBottom | tests/unit/utils/box-test.js:246-254 | constrain({bottom: 80}) shifts the box up by 20 |
| BoxScenarios.FiftyBoxConstrainRight | tests/unit/utils/box-test.js:256-264 | constrain({right: 80}) shifts the box left by 20 |
| BoxScenarios.FiftyBoxConstrainOversized | tests/unit/utils/box-test.js:266-274 | bounds 70..80 on both axes give top=30, left=30, bottom=80, right=80: the bottom and right bounds win |
| BoxScenarios.FiftyBoxCrop | tests/unit/utils/box-test.js:276-284 | crop with bounds 70..80 gives exactly 70, 70, 80, 80 |

## Left out

- `Box.fromElement` (addon/utils/box.js:199-206) is not modelled. It reads the window's size and calls the DOM's `getBoundingClientRect`, and neither is visible to the model.
- JavaScript floating point is not modelled. Coordinates are exact reals, so there is no rounding, no `NaN` and no infinite coordinate. The `-Infinity`/`Infinity` defaults of `constrain` and `crop` are modelled as absent bounds (`None`).
- Unknown designators reach neither `PointAt` nor `PointTo`. In the source, `pointAt` falls through its `switch` and returns `undefined` for a string outside the eight names, and `pointTo` then fails. Here `EdgeOrCorner.Parse` returns `None` for such a string, and the two operations take only a parsed `EdgeOrCorner`.
- Malformed arguments are not modelled: calling `constrain` or `crop` with no argument at all, or `translate`/`pointTo` with an array shorter than two. In the source, destructuring `undefined` throws; a short array yields `NaN`. The model always receives a `Sides` value and a `Point`.
- BoxUtil.Box.Width, Height, MidX, MidY, PointAt and CanContain delegate to the `Geometry.Rect` functions of the same names. Their properties are stated once, on `Rect`.
- The test harness's DOM and PhantomJS handling (tests/unit/utils/box-test.js:18-20, 287-323) is not modelled.
