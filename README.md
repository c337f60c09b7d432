# Multi-window registry and box rendering, in Dafny

Each open browser window of the page keeps a shared list of window records
(an id and the window's screen geometry) under the local-storage key
`"windowData"`, and draws one rotated, coloured square per registered window,
placed at that window's screen centre reprojected into this window (left
`x - screenLeft + width/2`, top `y - screenTop + height/2`). This project models the
logic of `src/main.ts` over the two record types of `src/types.ts`:

- `types.dfy` (module `Types`): `Dimensions`, `WindowData`, the four host
  queries a window reads about itself (`Host`), and an `Option`.
- `registry.dfy` (module `Registry`): `findIndex` on the id (recursive
  `IndexOf` and the loop `FindIndex`), JavaScript's `splice(start, 1)`
  (`SpliceStart`, `SpliceOne`, `RemovedAt`), what the unload handler does
  to the list (`Unregistered`), a guarded removal (`UnregisteredGuarded`),
  and the geometry update (`Updated`), with the lemmas relating them.
- `bounds.dfy` (module `Bounds`): the min/max loop of
  `updateGlobalWindowDimensions` (`ComputeGlobalDimensions`), specified by the
  fold `Enclosing`, with lemmas that the result encloses every window and that
  each of its edges is some window's edge.
- `boxes.dfy` (module `Boxes`): the per-index style (side `100+50*i`, hue
  `50*i`, rotation `10*i`), the reprojected centre `x - screenLeft + width/2`
  (as a `real`), and the effect of running `renderBox` or `updateRenderBox`
  over the whole registry on the page's boxes, kept as a map from element id
  to box.
- `session.dfy` (module `Session`): class `WindowSession` holding the
  module-level state of `main.ts` (`windowData`, `currentWindowId`,
  `window.worldDimension`, the page's boxes, and the log of every list
  written to the shared key), with the delayed `onload` body (`Register`),
  the `unload` handler (`Unload`), `updateWindowDimensions`,
  `updateGlobalWindowDimensions`, `renderBox`, `updateRenderBox` and the two
  `forEach` loops over them. A client method, `Session.RegisterPollUnload`,
  composes them: a window registers with a fresh id, its next poll with the
  same host geometry writes nothing, and its unload restores the list it
  loaded, leaving exactly two writes in the log.

Modelling choices:

- `windowData` and `currentWindowId` are undefined until the page loads and
  registers; they are `Option`s, and an undefined id matches no record, as
  `data.id === undefined` does for string ids.
- The bounding-box loop starts from `Infinity`/`-Infinity`; the model's
  accumulator starts at `None`, which every window overrides as the infinities
  do under `Math.min`/`Math.max`. On an empty registry the source stores
  infinite values in `worldDimension`; the model stores `None` there.
- `renderBox` calls `remove()` through optional chaining, which yields
  `undefined`, so its early return never fires: the model always leaves
  exactly one freshly styled box under the record's id.
- A "write" is an entry appended to `WindowSession.writes`, holding the list
  that was serialised.
- Removing a window whose id is not in the list: the code calls
  `splice(-1, 1)`, which removes the LAST record (another window's). The
  model follows the code (`Unregistered`, `Session.WindowSession.Unload`) and
  proves the consequence (`Registry.UnregisterAbsent`, with a two-record
  instance in `Registry.UnregisterUndefinedDropsOther`). A safer handler
  would leave the list unchanged for an absent id. That guarded removal is
  `Registry.UnregisteredGuarded`, proved to be a no-op for an absent id and
  to agree with the code's removal otherwise (`Registry.GuardedUnregister`).
- The `unload` handler dereferences `windowData` without a guard; when the
  registry was never loaded it throws before writing. `Unload` returns
  `ok == false` and changes nothing in that case.

## Model

| member | source | states |
|---|---|---|
| Registry.IndexOf | src/main.ts:33-35 | `findIndex` on the id: -1 exactly when no record matches, otherwise a matching position with no match before it |
| Registry.FindIndex | src/main.ts:60-62 | the loop search returns exactly the position `IndexOf` specifies |
| Registry.SpliceStart | src/main.ts:37 | `splice`'s start: an in-range start is kept, a negative one counts back from the end, one below -n gives 0 and one past the end gives n |
| Registry.RemovedAt | src/main.ts:37 | removing one element: length drops by one, earlier elements stay, later ones shift down by one, the multiset loses exactly that element |
| Registry.Updated | src/main.ts:60-75 | nothing is written iff the id is absent or all four fields are equal; otherwise same length and ids, every other record unchanged, the own record carries the new dimensions |
| Registry.UnregisterPresent | src/main.ts:33-37 | unloading an id whose first position is i removes element i and the length drops by one |
| Registry.UnregisterUnique | src/main.ts:33-37 | with unique ids, after unloading no record has that id, all others remain in their order, ids stay unique |
| Registry.UnregisterAbsent | src/main.ts:33-37 | an absent id removes the last record of a non-empty list; an empty list stays empty |
| Registry.UnregisterUndefinedDropsOther | src/main.ts:33-37 | with the own id still undefined, unloading `[a, b]` leaves `[a]`: another window's record is lost |
| Registry.GuardedUnregister | src/main.ts:33-37 | the guarded removal leaves the list unchanged for an absent id and equals the code's removal for a present one |
| Registry.IndexOfAppend | src/main.ts:48-49 | after a push, lookup finds the old position if any, else the new record's position if it matches, else -1 |
| Registry.RegisterThenUnregister | src/main.ts:33-49 | registering a fresh id and then unloading it gives back the list that was loaded |
| Registry.RegisterThenSameGeometry | src/main.ts:46-74 | right after registering, a frame with unchanged host geometry writes nothing |
| Registry.RegisterKeepsUnique | src/main.ts:48-49 | appending a fresh id keeps ids unique |
| Registry.IndexOfSameIds | src/main.ts:60-62 | lists with the same ids position by position give the same lookup result |
| Registry.UpdatedSettles | src/main.ts:69-75 | once a change is written, the same geometry on the next frame writes nothing |
| Registry.UpdatedKeepsUnique | src/main.ts:75 | replacing dimensions keeps ids unique |
| Bounds.Include | src/main.ts:104-107 | one loop step: the result encloses the window and the extremes so far, and each edge is either the window's or the previous extreme |
| Bounds.Enclosing | src/main.ts:96-108 | the extremes are undefined (the infinite seed) exactly for an empty registry |
| Bounds.ComputeGlobalDimensions | src/main.ts:95-117 | the min/max loop yields the rectangle of the fold `Enclosing`: left, top, right - left, bottom - top |
| Bounds.EnclosingContains | src/main.ts:102-108 | every registered window lies inside the extremes |
| Bounds.EnclosingAttained | src/main.ts:102-108 | each of the four extremes is the matching edge of some registered window |
| Bounds.GlobalDimensionsBound | src/main.ts:110-117 | for a non-empty registry `worldDimension` encloses every window and its x, y, right and bottom edges are each attained by a window |
| Bounds.TwoWindowsExample | src/main.ts:95-117 | windows (0,0,100,100) and (50,50,200,200) give (0,0,250,250) |
| Boxes.StyleIncreasing | src/main.ts:153-157 | side, hue and rotation grow strictly with the index, side and hue by equal steps, five times the rotation's |
| Boxes.CentreIsScreenCentre | src/main.ts:159-169 | a box's position plus this window's offset is the remote window's screen centre, and moving both windows alike does not move the box |
| Boxes.SamePlacement | src/main.ts:131-141 | `updateRenderBox` computes the same left and top as `renderBox`, and re-placing a freshly styled box changes nothing |
| Boxes.LastIndexOf | src/main.ts:53-55 | the last position holding a given id: no later record has it |
| Boxes.RenderedKeys | src/main.ts:53-55 | rendering every record adds one box per record id and removes none |
| Boxes.RenderedAt | src/main.ts:53-55 | a record's box is the one styled for the last index carrying its id |
| Boxes.RenderedElsewhere | src/main.ts:53-55 | boxes of ids outside the registry are neither added nor changed |
| Boxes.RenderedUnique | src/main.ts:53-55 | with unique ids every record ends with exactly the box its own index gives |
| Boxes.RepositionedKeys | src/main.ts:78-80 | repositioning never adds or removes a box |
| Boxes.RepositionedKeepsStyle | src/main.ts:127-142 | repositioning keeps each box's side, hue and rotation |
| Boxes.RepositionedAt | src/main.ts:78-80 | an existing box of a registered id ends at the position of the last record with that id, its style kept |
| Boxes.RepositionedElsewhere | src/main.ts:78-80 | boxes of ids outside the registry are not moved |
| Boxes.RenderThenReposition | src/main.ts:127-178 | repositioning freshly rendered boxes with the same registry and host changes nothing: both paths place boxes alike |
| Session.WindowSession.constructor | src/main.ts:5-18 | registry and own id undefined, world rectangle all zeros, no boxes, nothing written |
| Session.WindowSession.UpdateGlobalWindowDimensions | src/main.ts:95-118 | `worldDimension` becomes the registry's enclosing rectangle; nothing else changes |
| Session.WindowSession.RenderBox | src/main.ts:144-178 | the id ends with exactly one freshly styled box; other boxes unchanged |
| Session.WindowSession.UpdateRenderBox | src/main.ts:127-142 | only the left and top of an existing box change; a missing box is skipped |
| Session.WindowSession.RenderAll | src/main.ts:53-55 | the boxes become `Rendered` of the old boxes over the registry |
| Session.WindowSession.UpdateRenderAll | src/main.ts:78-80 | the boxes become `Repositioned` of the old boxes over the registry |
| Session.WindowSession.Register | src/main.ts:41-57 | the loaded list with exactly one record `{id, own dimensions}` appended, the own id set, the world rectangle recomputed, that list written once, every box drawn |
| Session.WindowSession.Unload | src/main.ts:32-39 | the list becomes the spliced list and is written once; with no registry loaded the handler fails and nothing changes |
| Session.WindowSession.UpdateWindowDimensions | src/main.ts:59-84 | writes iff the own id is present and some field differs; then only the own record's dimensions change, the world rectangle and box positions follow and exactly one write happens; otherwise nothing changes |

## Left out

- Local-storage reads and writes and JSON parsing/serialisation: a read is a
  parameter (`stored`), a write is an entry in `WindowSession.writes`.
- The `storage` event listener (reload on another window's write) and its
  redraw, the 500 ms `setTimeout` before registering, and the
  `requestAnimationFrame` loop that calls `updateWindowDimensions` on every
  frame: event-loop scheduling. The race between windows registering at the
  same time cannot be stated for one sequential window.
- `uuidv4()`: the new id is a parameter, assumed not to be in the loaded list
  where a lemma needs that.
- `window.screenLeft`, `screenTop`, `innerWidth`, `innerHeight`: inputs (`Host`).
- CSS strings, element creation, class lists and `hsl(...)`/`px` formatting:
  only the numeric style values and the id-to-box map are kept. The hue is the
  number `50*i`; its reading modulo 360 by the style engine is not modelled.
- JavaScript numbers are doubles; the model uses exact integers for geometry
  and exact reals for the half-width positions, so rounding of very large
  coordinates is not captured.
- `src/types.ts` declares types only; it gives `Types.Dimensions` and
  `Types.WindowData`.
- Other drawing strategies (a full-rebuild variant, a canvas variant) are not
  part of `src/main.ts` and are not modelled.
