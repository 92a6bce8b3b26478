# Drag-to-reorder image upload: a Dafny model

`InteractUpload` is a React image-upload widget. Its images are shown as a
grid of tiles, and a tile can be dragged onto another tile to exchange the two
images. This project models the logic behind that gesture, plus the rule that
decides whether the "add" tile is shown:

- **Offset accumulation** (`Dom`). Every move event adds its delta to the
  tile's stored `data-x`/`data-y` offset, where an absent attribute reads as 0,
  and translates the tile by the new offset. `Dom.Element` is the tile.
  `DragMove` is the move listener and `ResetOffset` is the last step of a
  release. `AfterMoves` folds a sequence of moves, and the lemmas show that a
  gesture ends at the sum of its deltas.
- **Collision scan** (`Collision`). A release scans the rendered tiles in
  display order, in one loop (`Scan`):
  - The **move index** is the last tile whose stored offset equals the
    released tile's. Tiles are matched by attribute value, not by identity.
  - The **replace index** is the last other tile whose layout corner lies
    strictly within the released tile's width and height of its real
    position. The real position is the layout position plus the stored
    offset.
  - `SelfIndex` and `ReplaceIndex` are the reference definitions: the last
    index satisfying each test, or -1.
- **Swap** (`Reorder`). The two entries of the upload list are exchanged, and
  nothing else changes.
- **The widget** (`Upload`). The class `Upload.InteractUpload` holds the
  internal list and the `limit`/`value` props. It also logs every list passed
  to the owner's `onChange` in `reported`.
  - `InteractEnd` runs the release handler: scan, optional swap with one
    report, then an unconditional reset.
  - `HandleChange` stores a list the upload widget reports.
  - `EffectiveLimit`, `DisplayedList` and `ShowsAddTile` are the expressions
    of `render`.
  - The method `Upload.DragFirstTileOverTwoOthers` replays a whole gesture on
    four tiles.

Pixels are integers. A missing `data-x`/`data-y` attribute is the value
`Absent`, distinct from every number. `parseInt` of a missing attribute gives
NaN, so an element released without a stored offset overlaps nothing
(`Collision.Overlaps`, `Collision.NoOffsetNoReplace`).

When the released tile lands within reach of two tiles, the code keeps the
later one. Take four 100-pixel tiles at x = 0, 100, 200 and 300, and drag the
first by (250, 0). That overlaps both the third tile (|250 - 200| = 50) and the
fourth (|250 - 300| = 50), so the code exchanges the first and **fourth**
entries, not the first and third. The model follows the code
(`Collision.LastOverlapWins`, `Upload.DragFirstTileOverTwoOthers`).

## Model

| member | source | states |
|---|---|---|
| `Dom.Element.DragMove` | src/index.tsx:26-39 | the new stored offset on each axis is the old one (absent read as 0) plus the event delta, and the translation equals the new offset |
| `Dom.Moved` | src/index.tsx:29-30 | one move step on one axis: the new stored offset is present and exceeds the old one (absent read as 0) by exactly the delta |
| `Dom.AfterMovesSum` | src/index.tsx:29-30 | after one or more moves the stored offset is the starting offset (absent as 0) plus the sum of the deltas; with no move it is untouched |
| `Dom.AfterMovesFromAbsent` | src/index.tsx:29-30 | a gesture on a never-dragged tile ends with exactly the sum of its deltas stored |
| `Dom.AfterMovesFromReset` | src/index.tsx:29-30 | a tile reset to (0, 0) accumulates the next gesture exactly like a never-dragged tile |
| `Dom.AfterMovesAppend` | src/index.tsx:37-38 | one more move after a sequence is one more accumulation step, so successive `DragMove` calls compose into the fold |
| `Dom.Element.ResetOffset` | src/index.tsx:181-184 | stored offset and translation become (0, 0) whatever they were, so resetting twice equals resetting once |
| `Collision.LastIndex` | src/index.tsx:151-164 | the result is -1 or an index whose element passes the test, and no later element passes it (last match wins, -1 exactly when none matches) |
| `Collision.SelfIndex` | src/index.tsx:148-156 | the move index is the largest index whose stored offset equals the released tile's, or -1 when there is none |
| `Collision.ReplaceIndex` | src/index.tsx:149-163 | the replace index is the largest index not taken for the released tile whose layout position is strictly closer than width and height to the real position, or -1 when there is none |
| `Collision.Scan` | src/index.tsx:143-164 | the single forward loop computes exactly the move index and the replace index, and they differ whenever both are found |
| `Collision.MoveAndReplaceDiffer` | src/index.tsx:155-163 | a tile falls into at most one branch, so the move and replace indices never coincide |
| `Collision.SelfFound` | src/index.tsx:151-156 | when the released tile is among the rendered tiles, the move index is found, at or after its position |
| `Collision.SelfIndexIsReleasedTile` | src/index.tsx:155-156 | when every other tile is at rest (absent or (0, 0)) and the released one is not back at (0, 0), the move index is the released tile's own position |
| `Collision.ZeroOffsetMistakesResetTile` | src/index.tsx:155-156 | a gesture ending at (0, 0) is indistinguishable from a tile reset earlier, and a later such tile is taken as the move index |
| `Collision.NoOffsetNoReplace` | src/index.tsx:140-144 | a tile released without a stored offset has no replace index, because its real position is NaN |
| `Collision.LastOverlapWins` | src/index.tsx:151-163 | dragging the first of four 100-pixel tiles by (250, 0) gives move index 0 and replace index 3, even though the third tile overlaps too |
| `Collision.DropOutsideRow` | src/index.tsx:157-163 | dragging the first of four 100-pixel tiles by (500, 0) gives no replace index |
| `Reorder.Swap` | src/index.tsx:170-173 | the two positions exchange their entries, every other entry and the length are unchanged, and the multiset of entries is preserved |
| `Reorder.SwapTwice` | src/index.tsx:170-173 | exchanging the same two positions again restores the list |
| `Reorder.SwapSymmetric` | src/index.tsx:170-173 | the order in which the two positions are named does not matter |
| `Reorder.SwapEnds` | src/index.tsx:170-173 | exchanging the first and last of four entries gives the expected list |
| `Upload.EffectiveLimit` | src/index.tsx:196 | the effective limit is never 0; it is the configured limit when that is present and non-zero, and 8 otherwise |
| `Upload.DisplayedList` | src/index.tsx:198 | the displayed list is the internal list, unless the internal list is empty and a `value` was given, in which case it is that `value` |
| `Upload.ShowsAddTile` | src/index.tsx:196-210 | the add tile is rendered exactly when the displayed list is shorter than the effective limit: the owner's `value` is measured when the internal list is empty and a `value` was given, the internal list otherwise |
| `Upload.ZeroLimitIsDefault` | src/index.tsx:196 | a limit of 0 shows the add tile exactly as no limit does, namely while fewer than 8 images are displayed |
| `Upload.AddTileIffRoom` | src/index.tsx:210 | with any non-zero limit the add tile is shown exactly when one more image fits under it (for a negative limit, never) |
| `Upload.NegativeLimitHidesAddTile` | src/index.tsx:196-210 | a negative limit is kept as it is, so the add tile never shows |
| `Upload.AddTileReturnsAfterRemoval` | src/index.tsx:210 | with limit 2, two images hide the add tile and one image shows it |
| `Upload.InteractUpload.constructor` | src/index.tsx:84-88 | the widget starts with an empty internal list and has reported nothing |
| `Upload.InteractUpload.HandleChange` | src/index.tsx:132-136 | a list reported by the upload widget is passed to `onChange` once and becomes the internal list |
| `Upload.InteractUpload.InteractEnd` | src/index.tsx:138-185 | the scan runs on the released element and the tiles as they were at release. With no replace index, the list and the reports are unchanged. Otherwise the move index is a valid position, and the list is the old one with the move and replace entries exchanged, reported once. The multiset of entries is preserved, and the released tile ends at offset and translation (0, 0) |

## Left out

- Upload transport (`customRequest`, src/index.tsx:8-15). The file is sent to a network service whose module is not part of this model.
- Previews (`getBase64`, `handlePreview`, `handleCancel`, and the preview state and modal). These are asynchronous file reading and modal UI state.
- Drag-engine wiring (`setInteract`, `componentDidMount`, `componentWillUnmount` and the `window.dragMoveListener` global). Also left out are the engine's inertia and its restriction of the tile to its parent. All of this is foreign-library and lifecycle plumbing. The model takes the move and release events as method calls.
- DOM reads. `querySelectorAll`, `offsetLeft`, `offsetTop`, `offsetWidth` and `offsetHeight` become the `Element` fields and the `items` parameter. The CSS `transform` strings become the integer translation fields.
- The mismatch between the drag selector (`.interact_upload--box`) and the scan selector (`.cus_upload--box`). This is a wiring concern: the model passes the scanned tiles in directly.
- Float and integer parsing. Pixels are integers, so `parseFloat` and `parseInt` are the identity on present attributes. The string comparison of attributes becomes equality of `Attr` values.
- Upload.InteractUpload.InteractEnd: its first requires excludes exactly the release where a replace index is found but no move index. In the source that path would write the property `-1` and leave an `undefined` entry in the list. Releases where the element is not among the scanned tiles remain modelled when some tile matches its attributes or nothing overlaps.
- Upload.InteractUpload.InteractEnd: `requires |items| == |fileList|` excludes the case where the owner's `value` is displayed while the swap indexes the internal list.
- Aliasing. The source exchanges entries in place in the same array object it previously handed to `onChange` and to `setState`. The model treats lists as values.
- React re-rendering after `setState`, the JSX of `render`, and the antd `Upload` component's own list management. `HandleChange` stands for all the list changes that component makes.
