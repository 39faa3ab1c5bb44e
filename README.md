# Barn estimator core, modelled in Dafny

`barn.js` is a single-page barn sizer. The user sets five dimensions: length,
width, wall height, roof pitch (rise per 12) and window count. The page then:

- derives a bill of quantities (floor, net wall and roof areas, studs, plates,
  rafters);
- prices the bill in an eight-row cost table whose unit costs the user can
  edit;
- draws an orbitable 3D wireframe of the barn on a canvas.

This project models the parts of that script that compute or keep state, and
proves properties of them:

| module | models |
|---|---|
| `Numeric` (numeric.dfy) | `clamp`, `round2` (JavaScript `Math.round` is `floor(v + 0.5)`), and the relation a square root satisfies |
| `Quantities` (quantities.dfy) | `deriveBill` and its fixed conventions: 16" studs, 24" rafters, 0.5 ft overhang, 3x4 ft windows, corner and opening allowances |
| `Ledger` (ledger.dfy) | the `costModel` table and its `costByKey` index as a class over an array of rows; `updateCostQuantities`, `computeGrandTotal` and the unit-cost edit |
| `Wireframe` (wireframe.dfy) | `buildBarnWire`: 25 outline segments and 4 skin diagonals |
| `Projection` (projection.dfy) | `rotY`, `rotX` and `project` |
| `Scene` (scene.dfy) | the computing part of `renderBarn`: scale, transform, the push loops, the back-to-front sort, the depth fade, one stroke per segment |
| `Interaction` (interaction.dfy) | the page `state`, the form controls' values, `applyViewPreset`, `updateAll` and the event handlers, as a `Controller` class |

Arithmetic is on exact reals. `Math.sqrt`, `Math.cos` and `Math.sin` are
parameters:

- `DeriveBill(d, rafterLen)` takes the rafter length. Lemmas that need it to
  be the square root assume `IsRoot(RafterSquare(d), rafterLen)`.
- A rotation is given by its `(cos, sin)` pair `Rot(c, s)`. Lemmas about
  rigidity assume `c*c + s*s == 1`.

A field that `Number(x) || 0` reads is an `Option<real>`, where `None` (not a
number) counts as 0.

**The camera quirk.** Every handler that changes a control, the skin toggle,
a unit cost or the camera ends in `updateAll`, which reads the view
control back into `state.viewPreset` and then calls `applyViewPreset`. A drag
or an arrow key first writes `"iso"` into the view control. So the yaw and
pitch it just changed are overwritten with the iso angles (-0.85, -0.25) in
the same event. The model reproduces this: `MouseMove` and `KeyDown` promise
the iso angles after a drag step or an arrow key.

A manual orbit never switches to a preset of its own: the drag handler and
the arrow-key handler write `"iso"` (barn.js:474-475, 486-489).

## Model

| member | source | states |
|---|---|---|
| Numeric.Clamp | barn.js:27 | the result lies in `[lo, hi]`; it is `x` when `x` is in range, `lo` below the range, `hi` above it |
| Numeric.Round2 | barn.js:28 | the result is a whole number of hundredths within the half-open window `(x - 0.005, x + 0.005]` |
| Numeric.Round2Unique | barn.js:28 | those two facts pin the result down: any whole number of hundredths in the window is `Round2(x)` |
| Numeric.RootMonotone | barn.js:117 | square roots are monotone: a larger square has a root at least as large |
| Quantities.NetWallArea | barn.js:109-113 | net wall area is never negative, is at least gross minus window openings, and is one of the two |
| Quantities.RafterSquare | barn.js:115-117 | the square-root argument (run squared plus rise squared) is non-negative |
| Quantities.StudsPerWall | barn.js:121-122 | studs on one wall at 16" on centre: `n - 1` whole bays fit in the wall and `n` do not |
| Quantities.RafterPairs | barn.js:131 | rafter pairs at 24" along the length plus both overhangs: `n - 1` bays fit and `n` do not |
| Quantities.StudCount | barn.js:121-127 | over non-negative dimensions the stud count is at least one stud per wall plus the 8-stud corner allowance and the 2-stud door allowance |
| Quantities.StudsPerWindow | barn.js:126-127 | each extra window adds exactly two studs |
| Quantities.PlatesLf | barn.js:129 | plate feet are non-negative exactly when the wall perimeter is |
| Quantities.DeriveBill | barn.js:100-147 | the bill's net wall area, studs, rafter pairs, overhang, rafter length and roof area are those quantities of the dimensions |
| Quantities.RafterCoversRun | barn.js:115-117 | the rafter is at least as long as a non-negative run |
| Quantities.BillAreasNonNegative | barn.js:107-119 | with non-negative plan dimensions, floor, net wall and roof areas are non-negative |
| Quantities.BillFramingNonNegative | barn.js:121-132 | with non-negative dimensions, studs, plates and rafter feet are non-negative and there is at least one rafter pair |
| Quantities.BillNonNegative | barn.js:100-147 | every quantity of a bill over non-negative dimensions is non-negative, with at least one rafter pair and a rafter at least as long as the run |
| Quantities.StandardBarnExample | barn.js:107-131 | 16 x 12 x 8 ft with 2 windows: floor 192, net wall 448 - 24 = 424, studs 46 + 8 + 6 = 60, plates 168 ft, 9 rafter pairs |
| Quantities.RafterSquareFactors | barn.js:115-117 | rafter length squared is run squared times (1 + slope squared) |
| Quantities.RoofAreaMonotone | barn.js:119 | over the same non-negative roof length, a longer rafter gives a roof area at least as large |
| Quantities.RafterGrowsWithPitch | barn.js:104-119 | raising the pitch, all else equal, never shortens the rafter or shrinks the roof |
| Quantities.RafterGrowsWithWidth | barn.js:115-119 | widening the barn, all else equal, never shortens the rafter or shrinks the roof |
| Ledger.Total | barn.js:165-173 | an empty table totals 0 and a one-row table totals that row's quantity times unit cost |
| Ledger.TotalNonNegative | barn.js:165-173 | when every row's line cost is non-negative, so is the total |
| Ledger.ApplyBill | barn.js:149-163 | a recompute keeps the number of rows and each row's key, caption, unit and unit cost, and leaves every row whose key is not a bill key exactly as it was |
| Ledger.NumberOrZero | barn.js:168-169 | a number reads as itself and a non-number as 0 |
| Ledger.KeyIndexPositions | barn.js:67 | the `costByKey` index holds exactly the table's keys and maps each key to its own row |
| Ledger.InitialRows | barn.js:56-65 | the table has eight rows whose keys are the eight ledger keys, in order |
| Ledger.ApplyBillByPosition | barn.js:149-163 | on the page's table layout a recompute writes rows 0-6 from the bill (five of them rounded) and leaves the fasteners row alone |
| Ledger.ApplyBillSpec | barn.js:149-163 | a recompute keeps the rows, their order, keys, captions, units and unit costs, and the fasteners quantity; it writes each bill quantity within 0.005 of the bill value, exactly for studs and windows |
| Ledger.ApplyBillForgetsEarlierBill | barn.js:149-163 | quantities are overwritten wholesale: recomputing with bill 2 after bill 1 equals recomputing with bill 2 alone |
| Ledger.TotalAfterUnitCostEdit | barn.js:165-173 | changing one row's unit cost changes the total by exactly that row's quantity times the change |
| Ledger.DefaultPriceTotal | barn.js:165-173 | with the default unit costs, the total after a recompute is the bill priced line by line plus the 250 fasteners allowance |
| Ledger.CostLedger.constructor | barn.js:56-67 | the ledger starts with the page's eight rows and its key index |
| Ledger.CostLedger.SetQuantity | barn.js:150 | assigning through the key index changes the quantity of the row with that key and nothing else |
| Ledger.CostLedger.UpdateCostQuantities | barn.js:149-163 | the table after the seven in-place assignments is `ApplyBill` of the table before |
| Ledger.CostLedger.SetUnitCost | barn.js:197-198 | only row `i`'s unit cost changes, and the total changes by that row's quantity times the change |
| Ledger.CostLedger.ComputeGrandTotal | barn.js:165-173 | the loop's sum is the table's total, non-numbers counting as 0 |
| Wireframe.BuildBarnWire | barn.js:262-325 | always 25 outline segments and 4 skin diagonals, an overhang of 0.5 and the wall height as `H` |
| Wireframe.FrameTopology | barn.js:298-305 | the floor, wall and wall-top segments join the named corners |
| Wireframe.RidgeTopology | barn.js:307-311 | the ridge and the roof edges join the named corners |
| Wireframe.EaveTopology | barn.js:313-317 | the eave rectangle and the roof-plane outlines join the named corners |
| Wireframe.FixedTopology | barn.js:262-325 | for all dimensions, segment `i` joins the same two named corners; only coordinates move |
| Wireframe.RidgeAndEaves | barn.js:287-296 | the ridge has z = 0 and y = `H + (W/2 + 0.5)*pitch/12`; each eave corner is 0.5 outside its wall-top corner in x and in z |
| Wireframe.RoofPlaneOffsets | barn.js:316-317 | each roof-plane outline falls from the ridge by the roof rise across the roof run |
| Wireframe.RoofAreaSpansEaves | barn.js:119 | the bill's roof area is two rafters times the length of the wire's eave line |
| Wireframe.WireMatchesBill | barn.js:115-117 | each roof-plane outline's squared cross-section is the bill's square-root argument, so the bill's rafter is its length |
| Wireframe.OutlineInsideEnvelope | barn.js:262-325 | with non-negative dimensions every outline point lies within the overhang in plan and between the floor and the ridge |
| Projection.RotY | barn.js:233-236 | a yaw rotation keeps `y` |
| Projection.RotX | barn.js:237-240 | a pitch rotation keeps `x` |
| Projection.RotYInverse | barn.js:233-236 | rotating back by the opposite angle undoes a yaw rotation |
| Projection.RotXInverse | barn.js:237-240 | rotating back by the opposite angle undoes a pitch rotation |
| Projection.RotYKeepsLength | barn.js:233-236 | a yaw rotation keeps distance from the origin |
| Projection.RotXKeepsLength | barn.js:237-240 | a pitch rotation keeps distance from the origin |
| Projection.Project | barn.js:242-252 | the depth is kept as `z + 5.2`; a point on the axis lands on the canvas centre line (x) or the 0.58 horizon (y) |
| Projection.ProjectRoundTrip | barn.js:242-252 | on a canvas of non-zero width, the projection with its kept depth is invertible |
| Scene.Scale | barn.js:366 | the scale is positive, at most 0.1, and maps the larger plan dimension plus 5% into one unit |
| Scene.Xform | barn.js:368-373 | for true rotations the transformed point's squared distance from the origin is the scale squared times the original's |
| Scene.Fade | barn.js:402 | the depth fade lies in `[0.25, 1]` |
| Scene.FadeNonIncreasing | barn.js:402 | deeper segments are never faded less than shallower ones |
| Scene.WithDepth | barn.js:382-386 | an item keeps its segment and style, and its depth is the mean of its transformed ends' depths |
| Scene.DepthList | barn.js:376-386 | a frame has 25 items, or 29 with the skin on |
| Scene.InsertByDepth | barn.js:387 | one insertion step extends the back-to-front prefix by one, as a permutation |
| Scene.SortByDepth | barn.js:382-387 | the sort leaves the items back to front (non-increasing depth) and is a permutation |
| Scene.CollectStyled | barn.js:376-380 | the push loops collect every outline segment with opacity 0.95 and width 1.35, then every skin diagonal with 0.28 and 1.0 when the skin is on |
| Scene.StrokeOf | barn.js:392-403 | a stroke keeps the item's width and its ends' depths; its opacity lies between a quarter of the style's opacity and the full opacity |
| Scene.DepthSorted | barn.js:363-387 | the frame's items, sorted: a permutation of the pushed items, back to front |
| Scene.StrokeAll | barn.js:392-403 | the drawing loop issues one stroke per item, in drawing order |
| Scene.RenderBarn | barn.js:344-404 | a frame draws every pushed item once, back to front, with its projected, faded stroke |
| Scene.FadeRisesAlongDrawOrder | barn.js:382-403 | along the drawing order the depth fade never decreases |
| Scene.FrameOpacityBands | barn.js:376-403 | outline strokes have opacity in `[0.2375, 0.95]` and skin strokes in `[0.07, 0.28]` |
| Interaction.PresetAngles | barn.js:327-342 | front (0, -0.1), side (pi/2, -0.1), top (0.9, -1.25), anything else (-0.85, -0.25); every preset pitch lies in `[-1.35, 0.35]` |
| Interaction.OrbitPitch | barn.js:478-479 | the orbited pitch lies in `[-1.35, 0.35]` and is the unclamped sum when that is in range |
| Interaction.Controller.constructor | barn.js:500-503 | start-up: default dimensions, skin on, iso view, controls synced, the ledger priced for the default bill |
| Interaction.Controller.SyncUIFromState | barn.js:69-77 | the controls show the state's dimensions and preset |
| Interaction.Controller.ReadStateFromUI | barn.js:86-94 | the state takes the controls' dimensions and view value |
| Interaction.Controller.ApplyViewPreset | barn.js:327-342 | both angles are overwritten with the preset's angles, whatever they were |
| Interaction.Controller.UpdateAll | barn.js:416-437 | after a recompute the camera is a function of the view control alone, the ledger holds the bill's quantities, and the shown total is the ledger's total |
| Interaction.Controller.ControlsChanged | barn.js:441-444 | a control edit recomputes from the new control values |
| Interaction.Controller.RestoreDefaults | barn.js:446-451 | the state takes the default dimensions, the skin on and the iso preset, and the controls show them |
| Interaction.Controller.Reset | barn.js:446-453 | reset restores default dimensions, the skin and the iso view, keeps unit costs, and recomputes |
| Interaction.Controller.ToggleSkin | barn.js:455-458 | the skin flag flips and everything is recomputed |
| Interaction.Controller.UnitCostEdited | barn.js:197-200 | the edited unit cost is stored and the ledger is recomputed on top of it |
| Interaction.Controller.MouseDown | barn.js:461-465 | a drag starts, anchored at the pointer |
| Interaction.Controller.MouseUp | barn.js:466 | the drag ends |
| Interaction.Controller.ShowView | barn.js:474-480 | setting the preset and the view control and recomputing leaves the camera at that preset's angles |
| Interaction.Controller.MouseMove | barn.js:467-481 | without a drag nothing changes; with one the anchor follows the pointer, the view becomes iso, and the camera ends at the iso angles with the pitch in range |
| Interaction.Controller.KeyDown | barn.js:484-495 | arrows and "4" end at the iso angles, "1" to "3" at front, side and top; the pitch is in range afterwards; any other key changes nothing |

## Left out

- DOM access and event wiring are left out. The form controls are a `Form` value whose fields are already numbers. `updateValuePills` is not modelled.
- Canvas drawing is left out: `drawLine`, the crosshair, stroke and shadow styles, and `resizeCanvas` with its device-pixel ratio. A frame is the sequence of strokes `RenderBarn` returns. The resize listener is not modelled, because it only re-runs the same recompute.
- `renderCostTable` and `money` are left out (HTML and currency formatting). The total they show is kept as `Controller.grandTotal`.
- The geometry and cost readout strings are left out (`toFixed` formatting).
- `Math.sqrt`, `Math.cos` and `Math.sin` are not evaluated. The square root is a parameter with the `IsRoot` relation, and a rotation angle is its `(cos, sin)` pair. `Math.PI/2` is the literal 1.5707963267948966.
- IEEE-754 rounding, overflow, NaN and Infinity are left out. A unit cost the user types that is not a number is `None`, which counts as 0.
- Interaction.Controller.UpdateAll: does not draw a frame. The frame it would draw is `Scene.RenderBarn` applied to the state after the call.
- Projection.Project: requires `v.z + 5.2 != 0`, where the source divides unguarded.
- Scene.RenderBarn: requires every end to be projectable, where the source divides unguarded.
- Scene.SortByDepth: an insertion sort stands in for `Array.prototype.sort`. Whether the sort is stable is not modelled.
- The cost row's `label` field is called `caption`, because `label` is a reserved word in Dafny.
