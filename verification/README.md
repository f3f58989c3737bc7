# Side-by-side map comparison control, modelled in Dafny

This project models the state-update core of a Leaflet control that shows two sets
of map layers side by side, split by a draggable divider. The control keeps a
sequence of candidate layers per side. Of each side's candidates on the map it
activates one and moves every such candidate onto that side's rendering pane. It
fires `leftlayerremove`/`leftlayeradd`/`rightlayerremove`/`rightlayeradd` when a
side's active layer changes. It clips the two panes to the rectangles either side of
the divider and fires `dividermove`. While the slider is pressed it switches the
map's drag and tap gestures off.

Everything is an immutable value. A `State` holds the `Control`, a `World` and the
drag memo. The `World` has every host map by identity, with the layers on it, its
panes' clip styles and its gesture flags, plus each layer's pane assignment. Each
operation is a pure function that returns the new state and, where `index.js` fires
notifications, the `Event`s in firing order.

- `wrappers.dfy`: `Option`.
- `layers.dfy`: layer handles, pane names, `AsArray`.
- `geometry.dfy`: options, divider position, clip rectangles.
- `selection.dfy`: one side's pass over its candidates, with a reference definition of "last candidate on the map".
- `notifications.dfy`: events, the per-side diff, and a subscriber that follows a side's active layer from the events.
- `control.dfy`: the control's transitions (`UpdateClip`, `UpdateLayers`, `Remove`, `AddTo`, the setters, the slider handler).
- `control_props.dfy`: lemmas relating the transitions.
- `drag_guard.dfy`: `cancelMapDrag`/`uncancelMapDrag`.
- `scenarios.dfy`: two concrete runs.

The map's viewport is an input, a `Viewport` holding the top-left and bottom-right
corners in layer coordinates and the width in pixels. In `index.js` these come from
Leaflet's `containerPointToLayerPoint` and `getSize`.

Of a side's candidates on the map, the last one in list order becomes active: the
`forEach` overwrites the active layer at every match. `Selection.ScanActive`
proves the code's behaviour, and `Scenarios.LastPresentCandidateWins` shows it on
`[A, B, C]` with B and C on the map: C is chosen.

## Model

| member | source | states |
|---|---|---|
| `Layers.AsArray` | custom-leaflet-side-by-side/index.js:32-34 | `undefined` gives the empty sequence, an array is kept as it is, any other value gives the one-element sequence; a layer is in the result iff the argument names it |
| `Geometry.MergeOptions` | custom-leaflet-side-by-side/index.js:39-47 | each option the caller leaves out keeps its default (thumb 42, padding 0); each one given replaces it |
| `Geometry.Position` | custom-leaflet-side-by-side/index.js:50-54 | fraction 0.5 gives half the width, 0 gives half the footprint `2*padding + thumbSize`, 1 gives the width less half the footprint; the position is half a footprint plus the fraction times (width − footprint) |
| `Geometry.PositionMonotoneIff` | custom-leaflet-side-by-side/index.js:50-54 | over fractions in [0, 1] the position never decreases iff the width is at least the footprint |
| `Geometry.PositionBounds` | custom-leaflet-side-by-side/index.js:50-54 | for a fraction in [0, 1] on a viewport at least one footprint wide, the divider lies between half a footprint and the width less half a footprint |
| `Geometry.ClipRects` | custom-leaflet-side-by-side/index.js:121-131 | the left rectangle's right edge and the right rectangle's left edge are both `nw.x + position`; both share top `nw.y` and bottom `se.y`; the outer edges are `nw.x` and `se.x` |
| `Geometry.ClipRectsSplitViewport` | custom-leaflet-side-by-side/index.js:121-131 | when the corners are one viewport width apart, the left rectangle is as wide as the divider offset and the two widths add up to the viewport width, for any offset |
| `Geometry.ClipRectsNotInverted` | custom-leaflet-side-by-side/index.js:121-131 | when the corners are one viewport width apart, the fraction is in [0, 1] and the viewport is at least one non-negative footprint wide, neither rectangle is inverted |
| `Selection.Scan` | custom-leaflet-side-by-side/index.js:156-177 | one side's loop ends on the layer it started from or on a candidate on the map |
| `Selection.ScanActive` | custom-leaflet-side-by-side/index.js:156-165 | a side's pass ends on no layer when no candidate is on the map, and otherwise on the last candidate in list order that is on the map |
| `Selection.LastPresentUnique` | custom-leaflet-side-by-side/index.js:156-165 | at most one layer is the last candidate on the map, so the chosen layer is determined |
| `Selection.ScanActiveIgnoresPanes` | custom-leaflet-side-by-side/index.js:156-165 | which layer a side's pass ends on depends only on the candidates and the map's layers, not on the pane assignments it starts from |
| `Selection.ScanPanes` | custom-leaflet-side-by-side/index.js:156-177 | a side's pass assigns exactly the candidates on the map to the side's pane and keeps every other layer's pane |
| `Notifications.SideEvents` | custom-leaflet-side-by-side/index.js:179-186 | a side fires nothing iff its active layer is unchanged; otherwise at most a removal of the old layer, first, and an addition of the new layer, last |
| `Notifications.TrackSideEvents` | custom-leaflet-side-by-side/index.js:179-186 | a subscriber that knew a side's old active layer and applies that side's notifications ends knowing the new one |
| `Notifications.TrackOtherSide` | custom-leaflet-side-by-side/index.js:179-186 | one side's notifications do not change a subscriber's view of the other side |
| `SideBySide.Construct` | custom-leaflet-side-by-side/index.js:44-48 | a new control has both sides' normalised candidates, no active layers, no map and the merged options |
| `SideBySide.UpdateClip` | custom-leaflet-side-by-side/index.js:121-145 | fires exactly one `dividermove` carrying the position and moves the divider there; a side's pane, when it exists, gets that side's rectangle iff the side has an active layer and otherwise keeps its clip; nothing but pane clips and the divider changes |
| `SideBySide.UpdateLayers` | custom-leaflet-side-by-side/index.js:147-188 | without a map the state is unchanged and nothing fires; with one, the candidates, options, slider, map membership, gesture flags and every other map are unchanged |
| `SideBySide.SetLeftLayers` | custom-leaflet-side-by-side/index.js:109-113 | the left candidates become the normalised argument, the right ones are kept; unattached, nothing else changes and nothing fires |
| `SideBySide.SetRightLayers` | custom-leaflet-side-by-side/index.js:115-119 | the right candidates become the normalised argument, the left ones are kept; unattached, nothing else changes and nothing fires |
| `SideBySide.SlideTo` | custom-leaflet-side-by-side/index.js:190-196 | on slider input the fraction becomes the new value and exactly one `dividermove` fires, carrying the position for that value |
| `SideBySide.Remove` | custom-leaflet-side-by-side/index.js:85-107 | unattached it is the identity; attached, it unclips each side's existing pane iff that side has an active layer, keeps every other clip and map, and drops the map reference while keeping the active layers |
| `SideBySide.Attach` | custom-leaflet-side-by-side/index.js:60-78 | the control refers to the map, whose two side panes are present and unclipped, with a new divider and the slider at 0.5; the map's other panes, layers and gestures and every other map are unchanged |
| `SideBySide.AddTo` | custom-leaflet-side-by-side/index.js:58-83 | the control ends attached to the given map with the slider at 0.5, the divider at half the width and both side panes present, and every other map is as `Remove` left it |
| `SideBySideProps.UpdateLayersSelects` | custom-leaflet-side-by-side/index.js:153-177 | after recomputation a side has no active layer iff none of its candidates is on the map, and otherwise its active layer is the last candidate on the map, hence one of its candidates |
| `SideBySideProps.UpdateLayersPanes` | custom-leaflet-side-by-side/index.js:156-177 | every right candidate on the map ends on the right pane, every left-only candidate on the map on the left pane, and every other layer keeps its pane assignment |
| `SideBySideProps.UpdateLayersEvents` | custom-leaflet-side-by-side/index.js:179-187 | the notifications are the left diff, then the right diff, then one `dividermove`; each side's notifications are its diff; a subscriber following them knows both new active layers |
| `SideBySideProps.UpdateLayersClips` | custom-leaflet-side-by-side/index.js:133-144 | after recomputation a side's existing pane is clipped to its rectangle iff the side now has an active layer, and otherwise keeps its old clip |
| `SideBySideProps.RemoveIdempotent` | custom-leaflet-side-by-side/index.js:85-107 | detaching twice gives the same state as detaching once |
| `SideBySideProps.AddToRemovesFirst` | custom-leaflet-side-by-side/index.js:58-60 | attaching an already detached copy of the state gives the same outcome as attaching the state itself |
| `SideBySideProps.AddToThenRemoveUnclips` | custom-leaflet-side-by-side/index.js:58-107 | attaching and then detaching leaves both side panes of the map present and unclipped |
| `SideBySideProps.UpdateLayersActiveDependsOnMembership` | custom-leaflet-side-by-side/index.js:153-177 | two recomputations over the same candidates and the same layers on the map activate the same layers, whatever the pane assignments and viewports |
| `SideBySideProps.UpdateLayersQuiet` | custom-leaflet-side-by-side/index.js:179-187 | a recomputation that activates the layers already active fires only `dividermove` |
| `SideBySideProps.ReattachFiresOnlyDividerMove` | custom-leaflet-side-by-side/index.js:58-107 | `remove` keeps the active layers, so attaching to the same unchanged map twice in a row fires no layer notification the second time, only `dividermove` at half the width |
| `SideBySideProps.ClearRightLayers` | custom-leaflet-side-by-side/index.js:115-119 | emptying the right candidates while a right layer is active fires exactly one `rightlayerremove`, for that layer, no `rightlayeradd`, and leaves the right pane's clip as it was |
| `DragGuard.CancelMapDrag` | custom-leaflet-side-by-side/index.js:14-19 | remembers whether dragging was on and whether a tap handler exists and was on, then switches dragging off and an existing tap handler off; a map without one still has none |
| `DragGuard.UncancelMapDrag` | custom-leaflet-side-by-side/index.js:22-29 | switches dragging on iff it was remembered as on, otherwise leaves it as it is; likewise the tap handler |
| `DragGuard.DragRoundTrip` | custom-leaflet-side-by-side/index.js:14-29 | a press then a release leaves every map, gesture flags included, and the control exactly as before the press |
| `DragGuard.UncancelWithoutCancel` | custom-leaflet-side-by-side/index.js:5-29 | a release before any press, when both remembered flags still read as off, changes nothing |
| `DragGuard.SecondCancelForgetsFirst` | custom-leaflet-side-by-side/index.js:14-19 | only the last press is remembered: two presses then a release leave dragging off |
| `Scenarios.AttachWithBothLayersPresent` | custom-leaflet-side-by-side/index.js:58-83 | one layer per side, both on an 800-pixel map, default options: attaching activates both, fires one addition per side and then `dividermove` at 400, and moves each layer onto its side's pane |
| `Scenarios.LastPresentCandidateWins` | custom-leaflet-side-by-side/index.js:156-165 | with candidates `[A, B, C]` and only B and C on the map, the left side activates C |

## Left out

- Event subscription (`_addEvents`, `_removeEvents`, `getRangeEvent`) and the `L.Control.extend` and factory plumbing are framework wiring. The handlers they register appear as direct calls: `UpdateClip` on a map move, `UpdateLayers` on a layer event, `SlideTo` on slider input, and `CancelMapDrag`/`UncancelMapDrag` on press and release.
- DOM work is presentation only: the container, divider and range elements, CSS classes, pane z-indices, the slider's padding style and the `rect(...px)` clip strings. A clip is a `Rect` or `NoClip`; the divider's style is the `divider` offset.
- `containerPointToLayerPoint` and `getSize` are Leaflet calls. Their results are the `Viewport` input.
- Leaflet's `createPane` is not part of this model. `AddTo` assumes it registers a fresh, unclipped pane under the name, replacing any earlier one.
- `hasLayer`, `layer.remove()` and `layer.addTo()` are Leaflet calls. Membership is the host's layer set. The remove-and-re-add that moves a layer to a side pane is a pane change that keeps membership. The `layeradd`/`layerremove` events it re-fires into the control depend on Leaflet's dispatch and are not modelled.
- `setPosition` is a no-op in `index.js`, so there is nothing to model.
- `range.value` is a string that arithmetic coerces to a number. The model holds the fraction as a `real`, and `SlideTo` takes values in [0, 1], as the range input's bounds allow.
- SideBySide.Construct: the slider does not exist until the first `addTo`. The model starts the fraction at 0.5, a value nothing reads before `AddTo` sets it.
- `getPosition` reads the attached map's size, so the JavaScript control can call it only when attached. `Geometry.Position` takes the width as an argument. `UpdateClip` and `SlideTo` require an attached control, which is the only way `index.js` reaches them.
- `mapWasDragEnabled`/`mapWasTapEnabled` are module-level and shared by every control instance. The model keeps one memo in the state of a single control.
- DragGuard.UncancelMapDrag: requires that the map have a tap handler whenever the memo says tap was on. Without one, `this._map.tap.enable()` in `index.js` throws.
- Layers.AsArray: `asArray` returns the caller's own array, so a later change the caller makes to that array is seen by the next recomputation. The model copies the sequence at the call, so such changes are not modelled.
- Notifications are delivered synchronously in the middle of each operation: `dividermove` fires before the clips are written, and the layer notifications fire before the clip update. A subscriber can observe, and re-enter the control from, those in-between states. `Step` records only the order of the notifications; the states between them and re-entrant calls from subscribers are not modelled.
- Geometry.Position: `getPosition` computes in IEEE double precision. The model uses exact `real` arithmetic, so rounding is not modelled.
- SideBySide.AddTo: panes are identified by name only. On a second `addTo` to the same map, `createPane` registers a new pane element under the name. A layer already assigned to `leftPane` or `rightPane` is then not re-added, because its pane name is unchanged, so it stays in the old element and the clip written to the new one does not reach it. The model does not distinguish the old element from the new, so `ReattachFiresOnlyDividerMove` and `AddToThenRemoveUnclips` speak only of the pane registered under each name.
