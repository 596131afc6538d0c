# Image viewer controller — a Dafny model

This project models the controller behind a pannable, zoomable viewer for a
multi-resolution tile pyramid: the `useImageController` hook of the
propeller-tiles viewer. It has three parts, plus the module that ties them together:

- **Zoom** (`zoom.dfy`): the `{scale, resolution}` state. The "+" and "-" buttons
  step the resolution within `[minResolution, maxResolution]`. A wheel tick moves
  the scale by the scroll offset and clamps it to `[0.4, 4.0]`. A tick that
  reaches 4.0 below the finest level moves one level finer and resets the scale
  to 2.0. Otherwise, a tick that falls below 1.0 above the coarsest level moves
  one level coarser with the same reset. All of these are pure functions.
- **Pan** (`pan.dfy`): a class with the drag flag, the last pointer position and
  the accumulated offset. Its methods are the mouse handlers.
- **Tiles** (`tiles.dfy`): a class with the published grid, the per-level cache
  (a map; a missing key means the level was never completed), the loading flag,
  and a generation counter that replaces the captured `stale` flag. `RunEffect`
  is the effect that runs on a resolution change. It first runs the previous
  run's cleanup (bumping the generation if that run returned a cleanup). It then
  serves a cached grid, or issues one request `(0, 0, 0)` at level 0, or issues
  one request `(i, j, L)` per cell of a 2L×2L grid at level L > 0 using the
  source's nested loops. `Complete` is the asynchronous completion. Responses are
  written into their own cells. The grid is published and cached only if every
  request succeeded and the batch is not stale.
- **Viewer** (`viewer.dfy`): the hook as one object. The grid effect depends on
  the resolution, so it runs again only when a button or tick changed the
  resolution.

The tile server is an oracle `Coord -> TileResult` passed to each completion.
A result is `Ok(url)` or `Failed(NotFound | BadToken | Unhandled)`, which is how
`getTileAPI` classifies HTTP 404, 403 and everything else. A different oracle may be
passed to each completion, because every fetch creates a new object URL.

The grid effect's dependencies are `[zoom.resolution, cache]`
(src/hooks/useImageController.ts:189). The `cache` dependency never fires: both
`setCache` updaters change the array in place and return the same array
(:140-143, :178-181), so React sees no new value. The effect therefore runs
again exactly when the resolution changes.

Behaviour of the code worth knowing:

- A failed request means nothing is published or cached for that batch.
  On the 2L×2L path `Promise.all` rejects (src/hooks/useImageController.ts:174-184),
  the rejection is only logged, and the grid is never shown with gaps. On the
  level-0 path the `.then` (:137-146) has no `.catch`: the rejection goes
  unhandled, nothing is published, and `loading` stays true from then on
  (`Complete` leaves it unchanged). The other cells of the
  batch's grid still receive their handles (`FailedCellBlocksPublication`).
- The level-0 path returns no cleanup, so a level-0 batch is never stale. Its
  result is published even after the level moved on (`LateRootResultPublished`).
  Two level-0 batches can be in flight at once, so the level-0 cache entry can be
  written twice (`RootEntryRewritten`). The model follows the code.
- `loading` becomes false only on the level-0 path. If the coarsest level were
  above 0 it would never become false. The model follows the code.
- A wheel event with `deltaY == 0` counts as zoom-out, as the code's `deltaY < 0` test implies.
- A button press keeps the scale. So after "+" from the coarsest level at scale
  0.4, a zoom-**in** tick whose new scale is still below 1.0 demotes the level
  (`ZoomInTickCanDemote`). For the same reason, the saturation lemma at the finest
  level needs the first tick not to fall below 1.0 (or a single-level range).

`MIN_RESOLUTION`, `MAX_RESOLUTION` and `SCROLL_OFFSET` come from a constants file
that is not part of this model. They are the fields of `Zoom.Config`. `ValidConfig`
requires `0 <= minResolution <= maxResolution` and a positive offset; the model indexes levels by `nat`, and a negative
level would publish an empty grid. The scale
bounds 0.4 and 4.0, the reset value 2.0 and the demotion threshold 1.0 are named
constants. Scale and pointer coordinates are exact `real`s.

## Model

| member | source | states |
|---|---|---|
| `Zoom.Initial` | src/hooks/useImageController.ts:13-18 | the controller starts at scale 2.0 on the coarsest level, which is within bounds |
| `Zoom.Increase` | src/hooks/useImageController.ts:24-32 | "+" raises the resolution by exactly 1 if and only if it is below the maximum, is otherwise a no-op, and never changes the scale |
| `Zoom.Decrease` | src/hooks/useImageController.ts:34-42 | "-" lowers the resolution by exactly 1 if and only if it is above the minimum, is otherwise a no-op, and never changes the scale |
| `Zoom.IncreaseDecreaseInverse` | src/hooks/useImageController.ts:24-42 | "-" undoes "+" wherever "+" was not a no-op, and "+" undoes "-" likewise |
| `Zoom.ButtonsPreserveBounds` | src/hooks/useImageController.ts:24-42 | both buttons keep level and scale within bounds |
| `Zoom.TickScale` | src/hooks/useImageController.ts:78-81 | a zoom-in tick (deltaY < 0) gives the smaller of 4.0 and scale + offset; any other tick gives the larger of 0.4 and scale − offset |
| `Zoom.Scroll` | src/hooks/useImageController.ts:76-98 | a tick moves the level by at most one; it promotes if and only if the level is not the maximum and the clamped scale is ≥ 4.0; it demotes if and only if it did not promote, the level is not the minimum and the clamped scale is < 1.0; any level change resets the scale to 2.0; otherwise the scale is the clamped one |
| `Zoom.ScrollPreservesBounds` | src/hooks/useImageController.ts:76-97 | every tick leaves the scale in [0.4, 4.0] and the level in bounds |
| `Zoom.ScrollTransitionsInBounds` | src/hooks/useImageController.ts:86-95 | the in-bounds reading of `Scroll`'s rule, in terms of `<` and `>` on the level instead of `!=`: a tick moves to a finer level exactly when the level is below the maximum and the scale reached 4.0, landing on level + 1 at 2.0; it moves to a coarser level exactly when it did not promote, the level is above the minimum and the scale fell below 1.0, landing on level − 1 at 2.0 |
| `Zoom.RunPreservesBounds` | src/hooks/useImageController.ts:24-98 | any sequence of button presses and ticks keeps the level within [min, max] and the scale within [0.4, 4.0] |
| `Zoom.ReachableInBounds` | src/hooks/useImageController.ts:13-98 | every state reachable from the initial state is within bounds |
| `Zoom.UnclampedTicks` | src/hooks/useImageController.ts:79-97 | when no clamp, promotion or demotion happens along the way (zoom-in: the first tick reaches 1.0 and every tick stays below 4.0; zoom-out: every tick stays at or above 1.0), n ticks move the scale by exactly n·offset, up for zoom-in and down otherwise, and keep the level |
| `Zoom.ZoomInSaturatesAtMax` | src/hooks/useImageController.ts:79-95 | at the finest level, if the first tick does not fall below 1.0 (or the range is a single level), n zoom-in ticks give scale min(4.0, scale + n·offset) and never change the level |
| `Zoom.ZoomOutSaturatesAtMin` | src/hooks/useImageController.ts:79-95 | at the coarsest level, n zoom-out ticks give scale max(0.4, scale − n·offset) and never change the level |
| `Zoom.FiveZoomInTicks` | src/hooks/useImageController.ts:76-98 | with levels [0, 3] and offset 1.0, two zoom-in ticks from the start reach level 1 at 2.0 and five reach level 2 at 3.0 |
| `Zoom.ZoomInTickCanDemote` | src/hooks/useImageController.ts:24-95 | four zoom-out ticks and "+" reach level 1 at scale 0.4, after which a zoom-in tick demotes to level 0 |
| `Pan.PanController.constructor` | src/hooks/useImageController.ts:19-49 | the offset (:19-22) and the last pointer start at (0, 0), not dragging (:48-49) |
| `Pan.PanController.MouseDown` | src/hooks/useImageController.ts:51-54 | sets dragging and records the pointer; the offset is unchanged |
| `Pan.PanController.MouseUp` | src/hooks/useImageController.ts:56-58 | clears dragging; nothing else changes |
| `Pan.PanController.MouseMove` | src/hooks/useImageController.ts:60-70 | while dragging, adds (client − previous) to the offset, records the pointer, and keeps offset − pointer fixed; when not dragging, changes nothing |
| `Pan.PanController.MouseLeave` | src/hooks/useImageController.ts:101-103 | clears dragging; nothing else changes |
| `Pan.DragExample` | src/hooks/useImageController.ts:51-70 | a drag from (100, 100) to (130, 145) moves the offset by (30, 45); a move after mouseup has no effect |
| `Pan.DragTelescopes` | src/hooks/useImageController.ts:51-70 | pressing at a and dragging through b to c moves the offset by exactly c − a, from any state |
| `Tiles.ResponseOutcome` | src/utils/getTileAPI.ts:15-27 | a response gives a tile handle if and only if it is ok; status 404 is NotFound and 403 is BadToken |
| `Tiles.Dim` | src/hooks/useImageController.ts:136-154 | the grid side is 1 at level 0 and 2L at level L > 0 |
| `Tiles.RowsCallsShape` | src/hooks/useImageController.ts:160-171 | the first `rows` rows of the nested loops issue rows·n pairwise distinct requests, exactly the addresses with row < rows and column < n |
| `Tiles.CallsCoverGrid` | src/hooks/useImageController.ts:136-171 | an uncached level issues exactly one request per cell: Dim² pairwise distinct requests whose set is the level's grid addresses |
| `Tiles.AllOkIffEveryCell` | src/hooks/useImageController.ts:174-177 | every request of a batch succeeds if and only if every address of the level's grid is fetched successfully |
| `Tiles.ReceiveResponses` | src/hooks/useImageController.ts:163-165 | each successful response is written only into its own cell and each failed one leaves its cell ""; the batch has failed if and only if some request failed |
| `Tiles.GridController.constructor` | src/hooks/useImageController.ts:120-125 | no grid, an empty cache, loading |
| `Tiles.GridController.EffectRan` | src/hooks/useImageController.ts:127-171 | the post-state of one effect run, relative to the state before it: it runs the previous cleanup first (the generation grows by one exactly when that run returned one); a cached level is published with no request; an uncached level returns a fresh all-"" grid of its size and exactly the requests of `Calls(level)`, tagged with the current generation; only the level > 0 path returns a cleanup; the cache and loading are unchanged |
| `Tiles.GridController.RunEffect` | src/hooks/useImageController.ts:127-171 | keeps `Valid` and establishes exactly `EffectRan`: the cleanup first, then a cache hit served with no request or the level's full batch issued with the published grid kept |
| `Tiles.GridController.Unmount` | src/hooks/useImageController.ts:186-188 | the cleanup makes the last guarded batch stale; nothing else changes |
| `Tiles.GridController.Complete` | src/hooks/useImageController.ts:137-184 | if every request succeeded and the batch is level 0 or of the current generation, the published grid is exactly the fetched grid, it is stored at the batch's level with other entries untouched, and a level-0 batch ends loading; otherwise grid, cache and loading are unchanged |
| `Tiles.RevisitServesCache` | src/hooks/useImageController.ts:130-134 | leaving a completed level and returning issues no request and shows exactly the grid fetched the first time |
| `Tiles.StaleBatchDiscarded` | src/hooks/useImageController.ts:174-188 | a level > 0 batch that completes after the level changed is neither published nor cached, even when every request succeeded |
| `Tiles.LateRootResultPublished` | src/hooks/useImageController.ts:136-148 | a level-0 result that arrives after the level moved on is still published as the 1×1 grid and ends loading |
| `Tiles.FailedCellBlocksPublication` | src/hooks/useImageController.ts:160-184 | one failed request of a batch leaves the grid unpublished and the cache empty, although every other cell of the batch's grid holds its handle and the failed cell stays "" |
| `Tiles.RootEntryRewritten` | src/hooks/useImageController.ts:136-146 | two overlapping level-0 batches both write the level-0 cache entry, and the later arrival wins |
| `Viewer.ImageController.constructor` | src/hooks/useImageController.ts:12-23 | the whole hook starts at the initial zoom state, offset (0, 0), no grid, an empty cache, loading |
| `Viewer.ImageController.Mount` | src/hooks/useImageController.ts:127-189 | the first effect run on the initial level, with all of `EffectRan`: a cached level is served, an uncached one issues its fresh batch of the current generation, and the cleanup state follows |
| `Viewer.ImageController.AfterZoomChange` | src/hooks/useImageController.ts:189 | the grid effect runs again, with all of `EffectRan`, exactly when the resolution changed; otherwise nothing in the grid controller changes |
| `Viewer.ImageController.ResolutionIncrease` | src/hooks/useImageController.ts:24-32 | the zoom becomes `Increase` of the old one; at the maximum, no request is issued and the grid controller is untouched; otherwise the effect runs on the new level with all of `EffectRan` (cache hit, or a fresh batch; the generation grows by one exactly when the previous run returned a cleanup) |
| `Viewer.ImageController.ResolutionDecrease` | src/hooks/useImageController.ts:34-42 | the zoom becomes `Decrease` of the old one; at the minimum, no request is issued and the grid controller is untouched; otherwise the effect runs on the new level with all of `EffectRan` |
| `Viewer.ImageController.MouseScroll` | src/hooks/useImageController.ts:72-99 | the zoom becomes `Scroll` of the old one; a tick that keeps the level issues nothing and leaves the grid controller untouched; a promotion or demotion runs the effect on the new level with all of `EffectRan` |
| `Viewer.PromotionIssuesLevelOneBatch` | src/hooks/useImageController.ts:76-171 | with levels [0, 3] and offset 1.0, mounting issues the single level-0 request, a first zoom-in tick issues nothing, and a second one promotes and issues the four level-1 requests |
| `Viewer.StaleMountBatchAfterIncrease` | src/hooks/useImageController.ts:127-189 | with levels [1, 3], the mount batch that completes, fully successful, after "+" moved to level 2 is neither published nor cached |

## Left out

- Rendering: the JSX grid, the CSS transform string and the zoom buttons' class names (`src/App.tsx`, `src/components/ZoomButton.tsx`) are presentation only.
- The HTTP request, `response.blob()` and `URL.createObjectURL` in `getTileAPI` are foreign calls. They are represented by the fetch oracle and `ResponseOutcome`. The `z/x/y` URL layout is not modelled.
- Registering and removing DOM listeners and React's effect scheduling are explicit method calls here. `preventDefault` on the wheel event is not modelled.
- The interleaving of promises inside `Promise.all` is not modelled. A batch is one issue step (`RunEffect`) and one completion step (`Complete`), whose responses arrive in issue order. A response's cell is independent of arrival order, because each response writes only its own cell.
- The `try`/`catch` around each fetch never fires, because the fetch is asynchronous. Console logging is not modelled.
- The level-0 path publishes `[[res]]` without allocating a grid. The model gives that batch a 1×1 cell array instead, which publishes the same grid.
- Floating point: scale, scroll offset and pointer coordinates are exact reals, so rounding in `scale ± SCROLL_OFFSET` is not modelled.
- The cache array pre-sized to `MAX_RESOLUTION` entries is a map with absent keys here.
- The release of object URLs of superseded grids: the source never releases them, and neither does the model.
- `Tiles.GridController.Valid` states only the shape of cached grids (square, of the level's side); that a cached grid was filled by successful requests is stated per completion by `Complete`, not as an invariant.
