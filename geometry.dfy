/**
 * Coordinate mapping between the downscaled display image (1200 x 675) and the
 * full-resolution source screenshot, and the clamping that keeps every point on
 * the display.
 */
module Geometry {

  /** Size of the canvas the screenshot is scaled to (DISPLAY_WIDTH, DISPLAY_HEIGHT). */
  const DisplayWidth: int := 1200
  const DisplayHeight: int := 675

  /** Half the side of the square drawn for a point marker (POINT_RADIUS). */
  const PointRadius: int := 6

  /** An integer pixel position. */
  datatype Pos = Pos(x: int, y: int)

  /** An axis-aligned box as (left, top, right, bottom), the order PIL's crop takes. */
  datatype Box = Box(left: int, top: int, right: int, bottom: int)

  /** The source resolution (ScreenConfig.WIDTH, ScreenConfig.HEIGHT). */
  datatype Screen = Screen(width: int, height: int)

  predicate ValidScreen(screen: Screen) {
    screen.width > 0 && screen.height > 0
  }

  predicate InDisplay(p: Pos) {
    0 <= p.x <= DisplayWidth && 0 <= p.y <= DisplayHeight
  }

  /** A box is ordered and lies inside the source image. */
  predicate InSource(b: Box, screen: Screen) {
    0 <= b.left <= b.right <= screen.width && 0 <= b.top <= b.bottom <= screen.height
  }

  function ClampAxis(v: int, hi: int): (r: int)
    requires 0 <= hi
    ensures 0 <= r <= hi
    ensures 0 <= v <= hi ==> r == v
    ensures v < 0 ==> r == 0
    ensures hi < v ==> r == hi
  {
    if v < 0 then 0 else if hi < v then hi else v
  }

  /** clamp_center: the pointer position pulled back onto the display, axis by axis. */
  function Clamp(x: int, y: int): (r: Pos)
    ensures InDisplay(r)
    ensures InDisplay(Pos(x, y)) ==> r == Pos(x, y)
    ensures x < 0 ==> r.x == 0
    ensures DisplayWidth < x ==> r.x == DisplayWidth
    ensures y < 0 ==> r.y == 0
    ensures DisplayHeight < y ==> r.y == DisplayHeight
  {
    Pos(ClampAxis(x, DisplayWidth), ClampAxis(y, DisplayHeight))
  }

  /** No display position is closer to the pointer, on either axis, than the clamped one. */
  lemma ClampIsNearest(x: int, y: int, q: Pos)
    requires InDisplay(q)
    ensures var r := Clamp(x, y);
      (if r.x <= x then x - r.x else r.x - x) <= (if q.x <= x then x - q.x else q.x - x) &&
      (if r.y <= y then y - r.y else r.y - y) <= (if q.y <= y then y - q.y else q.y - y)
  {
  }

  lemma ClampIdempotent(x: int, y: int)
    ensures var r := Clamp(x, y); Clamp(r.x, r.y) == r
  {
  }

  /** Python's int() of a quotient: division truncated toward zero. */
  function TruncDiv(a: int, b: int): (q: int)
    requires b > 0
    ensures 0 <= a ==> 0 <= q && q * b <= a < (q + 1) * b
    ensures a < 0 ==> q <= 0 && -q * b <= -a < (-q + 1) * b
  {
    if a >= 0 then (DivFloor(a, b); a / b) else (DivFloor(-a, b); -((-a) / b))
  }

  lemma DivFloor(a: int, b: int)
    requires 0 <= a && 0 < b
    ensures 0 <= a / b && (a / b) * b <= a < (a / b + 1) * b
  {
    var q := a / b;
    assert a == q * b + a % b;
    assert (q + 1) * b == q * b + b;
  }

  /**
   * int(v / SCALE) with SCALE = displaySize / sourceSize: the display coordinate
   * v expressed in source pixels, truncated toward zero. The quotient is taken
   * exactly, as v * sourceSize / displaySize.
   */
  function ToSource(v: int, sourceSize: int, displaySize: int): (r: int)
    requires displaySize > 0
    ensures 0 <= v * sourceSize ==> r * displaySize <= v * sourceSize < (r + 1) * displaySize
  {
    TruncDiv(v * sourceSize, displaySize)
  }

  /** A display position in source coordinates. */
  function SourcePos(p: Pos, screen: Screen): Pos {
    Pos(ToSource(p.x, screen.width, DisplayWidth), ToSource(p.y, screen.height, DisplayHeight))
  }

  /** A display coordinate maps into the source range [0, sourceSize]. */
  lemma ToSourceInRange(v: int, sourceSize: int, displaySize: int)
    requires displaySize > 0 && 0 <= sourceSize
    requires 0 <= v <= displaySize
    ensures 0 <= ToSource(v, sourceSize, displaySize) <= sourceSize
  {
    var r := ToSource(v, sourceSize, displaySize);
    MulMonotone(0, v, sourceSize);
    MulMonotone(v, displaySize, sourceSize);
    assert r * displaySize <= sourceSize * displaySize;
    MulCancel(r, sourceSize, displaySize);
  }

  /** Conversion to source coordinates never reverses the order of two coordinates. */
  lemma ToSourceMonotone(u: int, v: int, sourceSize: int, displaySize: int)
    requires displaySize > 0 && 0 <= sourceSize
    requires u <= v
    ensures ToSource(u, sourceSize, displaySize) <= ToSource(v, sourceSize, displaySize)
  {
    MulMonotone(u, v, sourceSize);
    TruncDivMonotone(u * sourceSize, v * sourceSize, displaySize);
  }

  lemma TruncDivMonotone(a: int, b: int, d: int)
    requires d > 0 && a <= b
    ensures TruncDiv(a, d) <= TruncDiv(b, d)
  {
    var qa, qb := TruncDiv(a, d), TruncDiv(b, d);
    if qa > qb {
      if 0 <= a {
        MulMonotone(qb + 1, qa, d);
      } else if b < 0 {
        MulMonotone(-qa + 1, -qb, d);
      }
    }
  }

  lemma MulMonotone(a: int, b: int, c: int)
    ensures a <= b && 0 <= c ==> a * c <= b * c
  {
    assert b * c - a * c == (b - a) * c;
  }

  lemma MulCancel(a: int, b: int, c: int)
    ensures 0 < c && a * c <= b * c ==> a <= b
  {
    MulMonotone(b + 1, a, c);
    assert (b + 1) * c == b * c + c;
  }

  /** On-display positions, and so every placed point, map into the source image. */
  lemma SourcePosInBounds(p: Pos, screen: Screen)
    ensures ValidScreen(screen) && InDisplay(p) ==>
      var s := SourcePos(p, screen);
      0 <= s.x <= screen.width && 0 <= s.y <= screen.height
  {
    if ValidScreen(screen) && InDisplay(p) {
      ToSourceInRange(p.x, screen.width, DisplayWidth);
      ToSourceInRange(p.y, screen.height, DisplayHeight);
    }
  }

  /**
   * The canvas oval for a point centred at c (create_point, and the coords
   * calls that move a point): a square of side 2*POINT_RADIUS whose centre,
   * read back as get_point_coords does, is c again. Points can therefore be
   * kept as their centres.
   */
  function MarkerBox(c: Pos): (b: Box)
    ensures b.right - b.left == 2 * PointRadius && b.bottom - b.top == 2 * PointRadius
    ensures PointCoords(b) == c
  {
    Box(c.x - PointRadius, c.y - PointRadius, c.x + PointRadius, c.y + PointRadius)
  }

  /**
   * get_point_coords: the centre of an item's bounding box, each coordinate
   * the midpoint truncated by int(); it lies inside an ordered box.
   */
  function PointCoords(b: Box): (c: Pos)
    ensures -1 <= 2 * c.x - (b.left + b.right) <= 1 && -1 <= 2 * c.y - (b.top + b.bottom) <= 1
    ensures 0 <= b.left + b.right ==> 2 * c.x <= b.left + b.right
    ensures b.left + b.right < 0 ==> b.left + b.right <= 2 * c.x
    ensures 0 <= b.top + b.bottom ==> 2 * c.y <= b.top + b.bottom
    ensures b.top + b.bottom < 0 ==> b.top + b.bottom <= 2 * c.y
    ensures b.left <= b.right ==> b.left <= c.x <= b.right
    ensures b.top <= b.bottom ==> b.top <= c.y <= b.bottom
  {
    Pos(TruncDiv(b.left + b.right, 2), TruncDiv(b.top + b.bottom, 2))
  }
}
