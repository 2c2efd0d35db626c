/**
 * export_region: the source-space box spanned by the two points and the name
 * of the PNG file the crop is saved under.
 */
module Export {
  import opened Wrappers
  import opened Geometry
  import opened Text

  /** The box with the two positions as opposite corners, left <= right and top <= bottom. */
  function Normalize(a: Pos, b: Pos): (r: Box)
    ensures r.left <= r.right && r.top <= r.bottom
    ensures {r.left, r.right} == {a.x, b.x} && {r.top, r.bottom} == {a.y, b.y}
  {
    Box(if a.x <= b.x then a.x else b.x, if a.y <= b.y then a.y else b.y,
        if a.x <= b.x then b.x else a.x, if a.y <= b.y then b.y else a.y)
  }

  /** The box does not depend on which point was placed first. */
  lemma NormalizeSymmetric(a: Pos, b: Pos)
    ensures Normalize(a, b) == Normalize(b, a)
  {
  }

  /** A display box expressed in source coordinates, corner by corner. */
  function SourceBox(b: Box, screen: Screen): Box {
    var lt, rb := SourcePos(Pos(b.left, b.top), screen), SourcePos(Pos(b.right, b.bottom), screen);
    Box(lt.x, lt.y, rb.x, rb.y)
  }

  /** "<date>_<left>.<top>_<right>.<bottom>.png": the date and "_" first, ".png" last. */
  function FileName(date: string, b: Box): (name: string)
    ensures |date| + 1 + 4 <= |name|
    ensures name[..|date| + 1] == date + "_"
    ensures name[|name| - 4..] == ".png"
  {
    date + "_" + IntToString(b.left) + "." + IntToString(b.top) + "_"
      + IntToString(b.right) + "." + IntToString(b.bottom) + ".png"
  }

  /** Reads the date and the box back from an export file name. */
  function ParseFileName(name: string): Option<(string, Box)> {
    var (date, r0) :- SplitAtFirst(name, '_');
    var (left, r1) :- ReadIntThen(r0, ".");
    var (top, r2) :- ReadIntThen(r1, "_");
    var (right, r3) :- ReadIntThen(r2, ".");
    var (bottom, r4) :- ReadIntThen(r3, ".png");
    if r4 == [] then Some((date, Box(left, top, right, bottom))) else None
  }

  /** A date without '_' and the box can both be read back from the file name. */
  lemma {:induction false} FileNameRoundTrip(date: string, b: Box)
    ensures '_' !in date ==> ParseFileName(FileName(date, b)) == Some((date, b))
  {
    if '_' in date {
      return;
    }
    var r4: string := [];
    var r3 := IntToString(b.bottom) + ".png" + r4;
    var r2 := IntToString(b.right) + "." + r3;
    var r1 := IntToString(b.top) + "_" + r2;
    var r0 := IntToString(b.left) + "." + r1;
    assert FileName(date, b) == date + ['_'] + r0;
    SplitAtFirstOfConcat(date, '_', r0);
    ReadIntThenOfString(b.left, ".", r1);
    ReadIntThenOfString(b.top, "_", r2);
    ReadIntThenOfString(b.right, ".", r3);
    ReadIntThenOfString(b.bottom, ".png", r4);
  }

  /** What export_region crops and writes: the source box and the file name. */
  datatype Exported = Exported(box: Box, fileName: string)

  /**
   * export_region: nothing when a point is missing. Otherwise the box spanned
   * by the two points in source coordinates, saved under FileName of the
   * capture date and the box; for on-display points the box lies inside the
   * source image, and the name determines the date and the box.
   */
  function ExportRegion(p1: Option<Pos>, p2: Option<Pos>, screen: Screen, date: string): (r: Option<Exported>)
    ensures r.Some? <==> p1.Some? && p2.Some?
    ensures r.Some? ==> r.value.box.left <= r.value.box.right && r.value.box.top <= r.value.box.bottom
    ensures r.Some? && ValidScreen(screen) && InDisplay(p1.value) && InDisplay(p2.value) ==>
      InSource(r.value.box, screen)
    ensures r.Some? ==> r.value.fileName == FileName(date, r.value.box)
    ensures r.Some? && '_' !in date ==> ParseFileName(r.value.fileName) == Some((date, r.value.box))
  {
    if p1.None? || p2.None? then None
    else
      var a, b := SourcePos(p1.value, screen), SourcePos(p2.value, screen);
      var box := Normalize(a, b);
      SourcePosInBounds(p1.value, screen);
      SourcePosInBounds(p2.value, screen);
      FileNameRoundTrip(date, box);
      Some(Exported(box, FileName(date, box)))
  }

  /** Swapping the two points exports the same box under the same name. */
  lemma ExportRegionSymmetric(p1: Option<Pos>, p2: Option<Pos>, screen: Screen, date: string)
    ensures ExportRegion(p1, p2, screen, date) == ExportRegion(p2, p1, screen, date)
  {
  }

  /**
   * The exported box is the green display rectangle, normalised, converted to
   * source coordinates: converting and normalising commute.
   */
  lemma ExportBoxIsSourceOfRectangle(p1: Pos, p2: Pos, screen: Screen, date: string)
    requires ValidScreen(screen)
    ensures ExportRegion(Some(p1), Some(p2), screen, date).value.box == SourceBox(Normalize(p1, p2), screen)
  {
    if p1.x <= p2.x {
      ToSourceMonotone(p1.x, p2.x, screen.width, DisplayWidth);
    } else {
      ToSourceMonotone(p2.x, p1.x, screen.width, DisplayWidth);
    }
    if p1.y <= p2.y {
      ToSourceMonotone(p1.y, p2.y, screen.height, DisplayHeight);
    } else {
      ToSourceMonotone(p2.y, p1.y, screen.height, DisplayHeight);
    }
  }
}
