# video-layout: a Dafny model of the width stores and slot snappers

This project models the logic of a small Angular demo of video layouts.
There are three pieces of logic in it.

- **Width stores.** There are two of them. The first layout's store
  (`layout-one/resize.service.ts`) clamps every candidate width to at
  least 200. It derives a 16:9 height and remembers a "custom width" the
  user dragged to. The shared store (`services/resize.service.ts`) instead
  *rejects* a width of 200 or less and keeps its old width.
  The first layout (`layout-one.ts`) drives the clamping store in two
  ways: with size presets S, M, L and custom, computed from the window
  size, and with a drag of the panel edge (press, mouse moves, release).
- **Nearest-point snapper** (`layout-two.ts`). It takes six snap points
  (four corners and the two mid-side positions) of the container for a
  fixed 80x160 element. It scans them for the one nearest the pointer; a
  strict `<` makes the first index win ties. It remembers that index and
  returns the winner in page coordinates.
- **Band classifier** (`layout-three.ts`). On drop, it classifies the
  element's centre by horizontal half and by a band of ±20% of the
  container height around the midpoint. While dragging, the drop targets
  are all six slots except the current one.

Each component is a Dafny `class` with the source's fields. Its methods
change those fields. Each method's `ensures` ties the new state to a pure
function of the old state. The stores and the first layout have a
value-level state (`Store`, `View`). The listed properties are lemmas
about those functions. The modules `StorePolicies` and `SnapPolicies`
put the two store policies and the two snapping policies side by side.
They prove where the policies agree and give a concrete input where they
disagree.

Modelling choices:

- Pixel values are `real`.
- `Math.hypot` becomes the squared distance `Geometry.SqDist`. Squaring is
  monotone on non-negatives, so the scan picks the same index.
- The scan's initial `bestDist = Infinity` is modelled as "no best yet",
  so an empty candidate list gives index 0, as in the source.
- Window size, pointer position, element offset and measured rectangles
  are parameters.
- In the first layout, the registered mousemove handler is modelled by the
  left offset it captured (`mouseMoveListener: Option<real>`). The
  registered mouseup handler is a flag.
- The code has two width stores, one that clamps and one that rejects;
  both are modelled. `snapPosition` returns an index and a page point;
  `SnapPolicies` relates index `i` to the slot name `ALL_SLOTS[i]`.

## Model

| member | source | states |
|---|---|---|
| Geometry.ToLocal | src/app/components/layout-two/layout-two.ts:77-78 | local coordinates are the page point minus the container's left/top offset |
| Geometry.ToPage | src/app/components/layout-two/layout-two.ts:94 | page coordinates are the local point plus the container's left/top offset |
| Geometry.LocalPageRoundTrip | src/app/components/layout-two/layout-two.ts:77-94 | shifting into the container's frame and back is the identity, in both orders |
| Geometry.SqDist | src/app/components/layout-two/layout-two.ts:84 | the distance measure is non-negative and zero from a point to itself |
| LayoutOneResize.Clamp | src/app/components/layout-one/resize.service.ts:26 | the accepted width is at least 200; it is the candidate when that is at least 200 and exactly 200 otherwise |
| LayoutOneResize.Height | src/app/components/layout-one/resize.service.ts:15-17 | height and width are in ratio 9:16 |
| LayoutOneResize.Update | src/app/components/layout-one/resize.service.ts:25-27 | updateWidth stores the clamped candidate and leaves the custom width alone |
| LayoutOneResize.Save | src/app/components/layout-one/resize.service.ts:29-31 | saveCustomWidth sets the custom width to the current width and leaves the width alone |
| LayoutOneResize.InitialValid | src/app/components/layout-one/resize.service.ts:8-19 | the initial width is 960, there is no custom width, and the invariant holds |
| LayoutOneResize.UpdatePreservesValid | src/app/components/layout-one/resize.service.ts:25-27 | updateWidth keeps width ≥ 200 and a saved custom width ≥ 200 |
| LayoutOneResize.SavePreservesValid | src/app/components/layout-one/resize.service.ts:29-31 | saveCustomWidth keeps the invariant, so a saved custom width is ≥ 200 |
| LayoutOneResize.UpdateIdempotent | src/app/components/layout-one/resize.service.ts:26 | updating twice with the same candidate equals updating once |
| LayoutOneResize.UpdateOverwrites | src/app/components/layout-one/resize.service.ts:26 | only the most recent update determines the state |
| LayoutOneResize.ResizeService.constructor | src/app/components/layout-one/resize.service.ts:8-19 | a new store holds width 960 and no custom width and satisfies the invariant |
| LayoutOneResize.ResizeService.VideoHeight | src/app/components/layout-one/resize.service.ts:15-17 | the height getter is always 9/16 of the current width, never stored |
| LayoutOneResize.ResizeService.UpdateWidth | src/app/components/layout-one/resize.service.ts:25-27 | the new state is Update of the old one; the invariant is kept |
| LayoutOneResize.ResizeService.SaveCustomWidth | src/app/components/layout-one/resize.service.ts:29-31 | the new state is Save of the old one; the invariant is kept |
| SharedResize.CalculateHeight | src/app/services/resize.service.ts:10-12 | height and width are in ratio 9:16 |
| SharedResize.CalculateHeightMonotone | src/app/services/resize.service.ts:10-12 | a larger width never gives a smaller height |
| SharedResize.CalculateHeightExample | src/app/services/resize.service.ts:10-12 | width 960 gives height 540 |
| SharedResize.Accept | src/app/services/resize.service.ts:14-19 | a candidate above 200 becomes the width; any other candidate leaves the width as it was |
| SharedResize.AcceptPreservesInvariant | src/app/services/resize.service.ts:14-19 | a width above 200 stays above 200 whatever is offered |
| SharedResize.ThresholdRejected | src/app/services/resize.service.ts:15 | exactly 200 is rejected: the test is strict |
| SharedResize.AcceptIdempotent | src/app/services/resize.service.ts:14-19 | offering the same candidate twice equals offering it once |
| SharedResize.ResizeService.constructor | src/app/services/resize.service.ts:8 | the initial width is 640, which satisfies width > 200 |
| SharedResize.ResizeService.UpdateWidth | src/app/services/resize.service.ts:14-19 | the new width is Accept of the old width and the candidate; width > 200 is kept |
| LayoutOne.MaxVideoWidth | src/app/components/layout-one/layout-one.ts:54-58 | the maximum width is at most innerWidth − 600 and at most (innerHeight − 238)·16/9, and equals one of them |
| LayoutOne.ApplySize | src/app/components/layout-one/layout-one.ts:81-96 | setVideoSize always selects the given size. `*` restores the clamped custom width, or changes nothing when there is none. S, M and L give the clamped 0.5·max, 0.75·max and innerWidth. Any other name gives the clamped max. The custom width and the listeners are untouched |
| LayoutOne.BeginResize | src/app/components/layout-one/layout-one.ts:63-79 | without a `.video` ancestor nothing changes; otherwise `*` is selected and both handlers are registered, with the captured offset, and the store is untouched |
| LayoutOne.MoveTo | src/app/components/layout-one/layout-one.ts:72-74 | a mousemove with a registered handler updates the width with clientX − offsetLeft; with no handler nothing changes |
| LayoutOne.EndResize | src/app/components/layout-one/layout-one.ts:98-104 | stopResizing saves the current width as the custom width and clears both listener fields |
| LayoutOne.DragFollowsLastMove | src/app/components/layout-one/layout-one.ts:72-74 | after a non-empty run of mousemoves the width is the clamped last clientX − offsetLeft and nothing else has changed |
| LayoutOne.DragWithoutHandler | src/app/components/layout-one/layout-one.ts:72-74 | mousemoves with no registered handler change nothing |
| LayoutOne.DragThenCustomRestores | src/app/components/layout-one/layout-one.ts:63-104 | after start, one or more moves and stop, choosing `*` restores the last dragged width, which is also the saved custom width |
| LayoutOne.DragPreservesValid | src/app/components/layout-one/layout-one.ts:72-74 | any run of mousemoves keeps the store's invariant |
| LayoutOne.StepsPreserveValid | src/app/components/layout-one/layout-one.ts:63-104 | setVideoSize, startResizing, a mousemove and stopResizing each keep the store's invariant |
| LayoutOne.LayoutOne.constructor | src/app/components/layout-one/layout-one.ts:36-61 | a new component has an empty selected size and no listeners, and uses the injected store |
| LayoutOne.LayoutOne.SetVideoSize | src/app/components/layout-one/layout-one.ts:81-96 | the new component and store state is ApplySize of the old one |
| LayoutOne.LayoutOne.StartResizing | src/app/components/layout-one/layout-one.ts:63-79 | the new state is BeginResize of the old one |
| LayoutOne.LayoutOne.OnMouseMove | src/app/components/layout-one/layout-one.ts:72-74 | the new state is MoveTo of the old one |
| LayoutOne.LayoutOne.OnMouseUp | src/app/components/layout-one/layout-one.ts:76-78 | a mouseup with a registered handler stops resizing; without one nothing changes |
| LayoutOne.LayoutOne.StopResizing | src/app/components/layout-one/layout-one.ts:98-104 | the new state is EndResize of the old one |
| LayoutTwo.SnapPoints | src/app/components/layout-two/layout-two.ts:63-72 | exactly six points. Even indices have x = 0 and odd ones x = W − rectW. Indices 0-1 have y = 0, indices 2-3 have y = H − rectH, and indices 4-5 have y = H/2 − rectH/2 |
| LayoutTwo.SnapPointsInside | src/app/components/layout-two/layout-two.ts:63-72 | when the element fits, every snap point lies in [0, W − rectW] × [0, H − rectH] |
| LayoutTwo.FirstNearestUnique | src/app/components/layout-two/layout-two.ts:80-89 | at most one index is the first nearest, so the scan is deterministic |
| LayoutTwo.NearestIndex | src/app/components/layout-two/layout-two.ts:80-89 | for non-empty candidates the result is a valid index at minimum distance, and every earlier index is strictly farther (ties go to the lowest index); for none it is 0 |
| LayoutTwo.LayoutTwo.constructor | src/app/components/layout-two/layout-two.ts:23-24 | a new component is at slot index 0 and position (0, 0) |
| LayoutTwo.LayoutTwo.UpdatePosition | src/app/components/layout-two/layout-two.ts:42-61 | the position becomes the current slot's snap point for the container size; the slot index is unchanged |
| LayoutTwo.LayoutTwo.SnapPosition | src/app/components/layout-two/layout-two.ts:74-95 | the slot index becomes the first nearest snap point to the pointer in container coordinates; the result, taken back into container coordinates, is that snap point |
| LayoutTwo.InitialPlacementTopLeft | src/app/components/layout-two/layout-two.ts:50-54 | with the initial index 0 the first placement is (0, 0) |
| LayoutTwo.SnapExamples | src/app/components/layout-two/layout-two.ts:63-89 | in a 400x300 container the origin snaps to top-left (index 0) and (400, 300) to bottom-right (index 3) |
| LayoutTwo.TieGoesToFirst | src/app/components/layout-two/layout-two.ts:85 | a point equidistant from top-left and top-right snaps to top-left |
| LayoutThree.SlotAt | src/app/components/layout-three/layout-three.ts:5-11 | every row and column pair names a slot with that row and column |
| LayoutThree.SlotIsRowAndColumn | src/app/components/layout-three/layout-three.ts:5-11 | a slot is determined by its row and column |
| LayoutThree.AllSlotsEnumerates | src/app/components/layout-three/layout-three.ts:13-20 | ALL_SLOTS has six distinct entries and contains every slot |
| LayoutThree.IndexOf | src/app/components/layout-three/layout-three.ts:13-20 | every slot has a position in ALL_SLOTS |
| LayoutThree.CalculateNearestSlot | src/app/components/layout-three/layout-three.ts:67-75 | total over the six slots. Left iff x < w/2, so x = w/2 goes right. Middle iff y lies strictly inside the ±0.2·h band around h/2. Outside the band it is top iff y < h/2 and bottom otherwise |
| LayoutThree.BandExamples | src/app/components/layout-three/layout-three.ts:67-75 | the midpoint on the left is middle-left; the band edges 0.3·h and 0.7·h are top-left and bottom-left; the horizontal centre goes right |
| LayoutThree.Without | src/app/components/layout-three/layout-three.ts:36 | the filter keeps exactly the elements different from the removed slot |
| LayoutThree.WithoutSingle | src/app/components/layout-three/layout-three.ts:36 | filtering out an element that occurs once deletes its position and keeps the order of the rest |
| LayoutThree.WithoutAbsent | src/app/components/layout-three/layout-three.ts:36 | filtering out an absent element changes nothing |
| LayoutThree.DropTargets | src/app/components/layout-three/layout-three.ts:35-37 | while dragging, the drop targets are ALL_SLOTS with the current slot deleted in place: five slots, in order, every slot except the current one; otherwise there are none |
| LayoutThree.LayoutThree.CurrentDropTargets | src/app/components/layout-three/layout-three.ts:35-37 | read from the component's fields: none when not dragging; while dragging five slots, never the current slot, and every other slot |
| LayoutThree.LayoutThree.constructor | src/app/components/layout-three/layout-three.ts:32-34 | initially the slot is middle-right, dragging is false and the drag size is 0x0 |
| LayoutThree.LayoutThree.OnDragStarted | src/app/components/layout-three/layout-three.ts:41-45 | dragging becomes true, the measured size is recorded, the slot is unchanged |
| LayoutThree.LayoutThree.OnDragEnded | src/app/components/layout-three/layout-three.ts:47-65 | dragging becomes false and the slot becomes the classification of the element's centre relative to the container |
| StorePolicies.PoliciesAgreeAboveFloor | src/app/services/resize.service.ts:14-19 | above 200 both stores take the candidate unchanged |
| StorePolicies.PoliciesDisagreeAtOrBelowFloor | src/app/services/resize.service.ts:15 | at or below 200 the clamping store holds 200 while the rejecting store keeps its width, which is above 200, so they always differ |
| StorePolicies.SameAspectRatio | src/app/components/layout-one/resize.service.ts:15-17 | both stores derive the same height from a width |
| SnapPolicies.SnapPointFor | src/app/components/layout-two/layout-two.ts:63-72 | a slot's resting point is determined by its column (x) and row (y); left column has x = 0 and top row y = 0 |
| SnapPolicies.SnapPointsFollowSlotOrder | src/app/components/layout-two/layout-two.ts:63-72 | snap point i is the resting point of slot ALL_SLOTS[i], so both components enumerate the slots in the same order |
| SnapPolicies.PoliciesDisagree | src/app/components/layout-three/layout-three.ts:67-75 | a pointer at (0, 215) in a 1000x1000 container, the element held by its top-left corner, is nearest to the middle-left snap point; the element's centre (40, 295), just above the band, is classified as top-left |

## Left out

- The picture-in-picture components only pass calls through to the browser API and log its errors; they are not part of this model.
- Routing and the app shell are static configuration. The layout-three unit test only checks that the component is created.
- Observers are not modelled: the BehaviorSubject, Angular signals and `computed`. A field plus a function that recomputes on read stands for each of them.
- DOM and framework plumbing is not modelled. This covers ResizeObserver setup and teardown, `renderer.listen`, `NgZone.run`, change detection, `setTimeout`, `setFreeDragPosition` and `event.source.reset()`.
- The `renderedWidth`/`renderedHeight` fields of the first layout are not modelled. They hold the observed size rounded by `Math.round`.
- Rect sizes and window dimensions are parameters; the DOM measurements that produce them are not modelled.
- Numbers are exact reals. Floating-point rounding, NaN and Infinity are not modelled.
- `Math.hypot` is replaced by the squared distance. The two give the same argmin, but the model never computes the actual distance.
- LayoutTwo.LayoutTwo.UpdatePosition: the early return when the view children are missing is not modelled. With `static: true` queries both are present by the time the method runs.
- LayoutOne.ApplySize: preset names are compared as plain strings. A name that is an inherited property of a JavaScript object (`constructor`, `toString`) would read a non-number from the presets record. The model treats it as an unknown name and falls back to the maximum.
- LayoutOne.LayoutOne.StartResizing: the DOM's own list of document listeners is not modelled. A second press before a release replaces the recorded handler. In the browser, the earlier handler would stay registered and no longer be reachable.
