# FindPoints selection engine, in Dafny

This project models the selection engine of the FindPoints tool (`FindPointsApp` in
`main.py`). The tool shows a screenshot of a game window scaled down to 1200 x 675.
The operator places two points on it with right clicks, adjusts them by dragging
with the left button and with the arrow keys, and then copies the points' coordinates
or exports the region between them. Coordinates are copied and exported in the
full-resolution ("source") space of the screenshot.

Modules:

- `Geometry`: the display constants, positions, `clamp_center`, and the conversion
  `int(v / SCALE)` from display to source coordinates. The conversion is modelled as
  exact integer division truncated toward zero (`TruncDiv(v * W, 1200)`).
- `Text`: Python's decimal printing of an `int`, and readers that recover integers
  from such text. The readers are used to state that the copied text and the export
  file name determine the numbers they carry.
- `Labels`: `unscale` and the coordinates label from `update_labels`, and the
  clipboard text of `copy_coords`.
- `Export`: the normalised source box and the file name of `export_region`.
- `Magnifier`: the crop-bound arithmetic of `update_zoom_window`.
- `Selection`: the class `FindPointsApp` with the fields `pick_mode`, `point1`,
  `point2`, `rect` and `dragging_point`, its handlers, and the hit test.
  `Valid()` is the class invariant that every handler keeps:
  - `point2` implies `point1`;
  - pick mode is on exactly while a point remains to be placed after a reset;
  - both points stay on the display;
  - the rectangle exists exactly when both points do, and joins their centres;
  - a drag target is always an existing point.
- `Scenarios`: a client that drives the class through example sessions, using
  only the contracts.

A canvas item handle becomes a slot (`P1`, `P2`), and a point is kept as the
optional integer centre of its marker. `MarkerBox` states that reading the centre
back from the marker's oval, as `get_point_coords` does, gives that centre.
The source resolution (`ScreenConfig.WIDTH`, `ScreenConfig.HEIGHT`) is a parameter,
`Screen`, required to be positive. The capture date is a string parameter.

## Model

| member | source | states |
|---|---|---|
| `Geometry.Clamp` | main.py:262-265 | the result is always on the display; an on-display position is returned unchanged; a coordinate below 0 becomes 0 and one beyond the display edge becomes that edge |
| `Geometry.ClampIsNearest` | main.py:262-265 | no on-display position is closer to the pointer, axis by axis, than the clamped one |
| `Geometry.ClampIdempotent` | main.py:262-265 | clamping a clamped position changes nothing |
| `Geometry.TruncDiv` | main.py:303-304 | `int()` of a quotient: for a non-negative dividend the quotient is the floor; for a negative one it is rounded toward zero |
| `Geometry.ToSource` | main.py:333-334 | a display coordinate v becomes the largest r with r * 1200 <= v * W (likewise with 675 and H), the truncated v / SCALE |
| `Geometry.ToSourceInRange` | main.py:355-358 | an on-display coordinate maps into [0, source size] |
| `Geometry.ToSourceMonotone` | main.py:355-361 | conversion to source coordinates never reverses the order of two coordinates |
| `Geometry.SourcePosInBounds` | main.py:405-406 | every on-display position maps inside the screenshot |
| `Geometry.MarkerBox` | main.py:199-208 | a point's oval is a square of side 2*POINT_RADIUS, and the centre read back from it is the centre it was drawn at |
| `Geometry.PointCoords` | main.py:270-274 | each centre coordinate is the midpoint of the item's bounds truncated toward zero by `int()` (within one half-pixel, never rounded away from zero), and lies inside an ordered box |
| `Text.NatToString` | main.py:369 | the decimal text of a number is non-empty, all digits, and has no leading zero |
| `Text.IntToString` | main.py:336 | the printed form of an int is non-empty; it is all digits for a non-negative value, and a `-` followed by digits without a leading zero for a negative one |
| `Text.ReadIntOfString` | main.py:336 | the printed form of any integer reads back as that integer, leaving the following text untouched |
| `Text.SplitAtFirstOfConcat` | main.py:369 | a name split at its first `_` gives back a prefix that has no `_` and the text after it |
| `Labels.Unscale` | main.py:300-305 | a point's label part is "-" exactly when the point is missing; otherwise it is "(x, y)" and reads back as the point's source position |
| `Labels.CoordsLabel` | main.py:310-312 | the label reads back as the two parts, each missing or the point's source position, with one point or two |
| `Labels.CopyText` | main.py:326-336 | there is no text unless both points exist; the text equals the coordinates label shown at that moment, and reads back as exactly the two source positions |
| `Export.Normalize` | main.py:360-361 | the box is ordered (left <= right, top <= bottom) and its x and y bounds are exactly the two points' coordinates |
| `Export.NormalizeSymmetric` | main.py:360-361 | the box does not depend on which point is first |
| `Export.FileName` | main.py:369 | the name starts with the date and `_` and ends with `.png` |
| `Export.FileNameRoundTrip` | main.py:366-369 | a date without `_` and the box can both be read back from `<date>_<left>.<top>_<right>.<bottom>.png` |
| `Export.ExportRegion` | main.py:347-369 | there is an export exactly when both points exist; its box is ordered; for on-display points it lies inside the screenshot; its file name is `FileName` of the date and the box, and determines both |
| `Export.ExportRegionSymmetric` | main.py:347-369 | swapping the points gives the same box and the same file name |
| `Export.ExportBoxIsSourceOfRectangle` | main.py:354-361 | the exported box is the display rectangle, normalised, converted to source coordinates |
| `Magnifier.View` | main.py:404-411 | the caption is the source position; the crop starts at 0 or beyond, ends at the screenshot size or before, and is at most 2*ZOOM_RADIUS a side; for an on-display position it is ordered and contains the source position |
| `Magnifier.CropIsClippedSquare` | main.py:408-411 | the crop is the square of radius ZOOM_RADIUS around the source position intersected with the screenshot: cut at edges, never padded |
| `Selection.FirstHit` | main.py:214-218 | a press selects nothing exactly when it hits no marker; otherwise it selects a marker it hits, and no earlier marker is hit |
| `Selection.FirstHitPrefersPoint1` | main.py:214-218 | point1 is chosen exactly when the press hits it; point2 only when the press hits point2 and misses point1 |
| `Selection.KeyDelta` | main.py:442-450 | each arrow key asks for a step of exactly one pixel along exactly one axis |
| `Selection.Nudged` | main.py:452-455 | a nudged centre is always on the display |
| `Selection.NudgedStep` | main.py:452-455 | an on-display centre moves exactly one pixel in the key's direction, or stays put at the edge it faces |
| `Selection.FindPointsApp.constructor` | main.py:72-76 | a new session has no points, no rectangle, no drag target and pick mode off |
| `Selection.FindPointsApp.EnablePickMode` | main.py:161-172 | from any state, both points, the rectangle and the drag target are cleared and pick mode is on |
| `Selection.FindPointsApp.OnRightClick` | main.py:177-194 | outside pick mode, and so once both points exist, nothing changes; otherwise the clamped click becomes point1, or else point2, which ends pick mode; the drag target is untouched and the invariant holds |
| `Selection.FindPointsApp.UpdateRectangle` | main.py:279-294 | with both points the rectangle joins their centres; otherwise it is left as it was |
| `Selection.FindPointsApp.FindTarget` | main.py:213-218 | the loop over the markers in stacking order returns the first marker hit |
| `Selection.FindPointsApp.OnLeftPress` | main.py:213-218 | the first marker hit becomes the drag target; a press on no marker leaves the target unchanged; the press is accepted in any phase |
| `Selection.FindPointsApp.MoveTo` | main.py:226-234 | only the given point moves, to the given on-display centre; the rectangle follows and the invariant holds |
| `Selection.FindPointsApp.OnDrag` | main.py:220-241 | without a target nothing changes; otherwise only the target moves, to the clamped pointer, the rectangle follows, and the magnifier shows the new position |
| `Selection.FindPointsApp.OnRelease` | main.py:243-247 | the drag target is cleared whatever the state |
| `Selection.FindPointsApp.OnArrowKey` | main.py:438-467 | without a target nothing changes; otherwise only the target moves one pixel for the key, clamped, the rectangle follows, and the magnifier shows it there |

## Left out

- Tk widgets are not modelled: windows, the canvas drawing, labels, the status text, buttons and their `pack`/`pack_forget`, the cursor change in `on_motion`, and icon loading.
- The magnifier window is not modelled: its creation on the first drag motion, its destruction on release, its placement next to the pointer, and its pixels (`crop`, `resize`, crosshair and marker). The handlers return the caption and crop box they would draw.
- `on_arrow_key` calls `update_zoom_window` even when no drag motion has created the magnifier window. In that case the callback raises after the points and the rectangle have been updated. Only the state change is modelled.
- Screen capture (`DotaAuto`, `ImageGrab`), `time.sleep` and `main` are external I/O and are not modelled.
- The clipboard calls, `os.makedirs` and `region.save` are I/O. The model gives the text and the file name they receive.
- `datetime.now()` and `strftime` are not modelled; the date text is a parameter.
- `SCALE_X` and `SCALE_Y` are floats in the source. The model divides exactly, as `v * W / 1200` truncated toward zero. Where floating-point rounding puts `v / SCALE` just below an integer, the source can be one pixel lower.
- The size label (`Размер`) uses float division and is not modelled.
- Tk's hit test for ovals (outline width, the item under the pointer) is modelled as the disc of radius `POINT_RADIUS` around the centre. The background image and the rectangle in the overlap list are skipped, because they carry no `point` tag.
- Only the four arrow keys are bound to `on_arrow_key`, so its fall-through for other keys (no movement) is not modelled.
- The behaviour of PIL on an empty export box (two points with equal source x or y) is not modelled.
- `on_left_press` does not check `pick_mode`, so point1 can be dragged while point2 is still awaited. The model does the same.
