/**
 * The integer arithmetic of update_zoom_window: the source-space square of
 * radius ZOOM_RADIUS around the dragged point, clipped to the screenshot.
 */
module Magnifier {
  import opened Geometry

  /** Half the side of the magnified square, in source pixels (ZOOM_RADIUS). */
  const ZoomRadius: int := 30

  /** What the magnifier shows: the caption (source position) and the crop box. */
  datatype ZoomView = ZoomView(origin: Pos, crop: Box)

  /**
   * update_zoom_window for a display position c: its source position and the
   * crop around it. The crop never leaves the screenshot and is never larger
   * than 2*ZOOM_RADIUS a side; for an on-display c it is ordered and contains
   * the source position.
   */
  function View(c: Pos, screen: Screen): (v: ZoomView)
    ensures v.origin == SourcePos(c, screen)
    ensures 0 <= v.crop.left && 0 <= v.crop.top
    ensures v.crop.right <= screen.width && v.crop.bottom <= screen.height
    ensures v.crop.right - v.crop.left <= 2 * ZoomRadius
    ensures v.crop.bottom - v.crop.top <= 2 * ZoomRadius
    ensures ValidScreen(screen) && InDisplay(c) ==>
      InSource(v.crop, screen) &&
      v.crop.left <= v.origin.x <= v.crop.right && v.crop.top <= v.origin.y <= v.crop.bottom
  {
    var o := SourcePos(c, screen);
    var left := if 0 < o.x - ZoomRadius then o.x - ZoomRadius else 0;
    var top := if 0 < o.y - ZoomRadius then o.y - ZoomRadius else 0;
    var right := if screen.width < o.x + ZoomRadius then screen.width else o.x + ZoomRadius;
    var bottom := if screen.height < o.y + ZoomRadius then screen.height else o.y + ZoomRadius;
    SourcePosInBounds(c, screen);
    ZoomView(o, Box(left, top, right, bottom))
  }

  /**
   * The crop is the square of radius ZOOM_RADIUS around the source position,
   * intersected with the screenshot: near an edge it is cut, never padded.
   */
  lemma CropIsClippedSquare(c: Pos, screen: Screen, u: int, w: int)
    ensures var v := View(c, screen);
      (v.crop.left <= u <= v.crop.right <==>
        v.origin.x - ZoomRadius <= u <= v.origin.x + ZoomRadius && 0 <= u <= screen.width) &&
      (v.crop.top <= w <= v.crop.bottom <==>
        v.origin.y - ZoomRadius <= w <= v.origin.y + ZoomRadius && 0 <= w <= screen.height)
  {
  }
}
