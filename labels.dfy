/**
 * The coordinate text the operator sees (the coordinates label) and copies to
 * the clipboard. Both print the points in source coordinates.
 */
module Labels {
  import opened Wrappers
  import opened Geometry
  import opened Text

  /** A position printed the way Python prints an int pair: "(x, y)". */
  function PosText(p: Pos): string {
    "(" + IntToString(p.x) + ", " + IntToString(p.y) + ")"
  }

  /** Reads "(x, y)" from the front of s. */
  function ReadPos(s: string): Option<(Pos, string)> {
    var r0 :- Expect("(", s);
    var (x, r1) :- ReadIntThen(r0, ", ");
    var (y, r2) :- ReadIntThen(r1, ")");
    Some((Pos(x, y), r2))
  }

  /** Reads a whole string "(x, y)". */
  function ParsePosText(s: string): Option<Pos> {
    var (p, rest) :- ReadPos(s);
    if rest == [] then Some(p) else None
  }

  lemma ReadPosOfText(p: Pos, rest: string)
    ensures ReadPos(PosText(p) + rest) == Some((p, rest))
  {
    var r1 := IntToString(p.y) + ")" + rest;
    var r0 := IntToString(p.x) + ", " + r1;
    var s := "(" + r0;
    assert PosText(p) + rest == s;
    assert Expect("(", s) == Some(r0) by {
      assert "(" <= s;
      assert s[1..] == r0;
    }
    ReadIntThenOfString(p.x, ", ", r1);
    ReadIntThenOfString(p.y, ")", rest);
  }

  /** A point, if present, in source coordinates. */
  function SourcePoint(p: Option<Pos>, screen: Screen): Option<Pos> {
    if p.None? then None else Some(SourcePos(p.value, screen))
  }

  /**
   * unscale in update_labels: "-" for a missing point, else the point's source
   * coordinates printed as "(x, y)".
   */
  function Unscale(p: Option<Pos>, screen: Screen): (s: string)
    ensures s == "-" <==> p.None?
    ensures p.Some? ==> ParsePosText(s) == Some(SourcePos(p.value, screen))
  {
    if p.None? then "-"
    else
      var q := SourcePos(p.value, screen);
      ReadPosOfText(q, []);
      assert PosText(q) + [] == PosText(q);
      PosText(q)
  }

  /** Reads "-" or "(x, y)" from the front of s. */
  function ReadPart(s: string): Option<(Option<Pos>, string)> {
    if "-" <= s then Some((None, s[1..]))
    else
      var (p, rest) :- ReadPos(s);
      Some((Some(p), rest))
  }

  /** Reads both parts back from a coordinates label. */
  function ParseCoordsLabel(s: string): Option<(Option<Pos>, Option<Pos>)> {
    var r0 :- Expect("Point1: ", s);
    var (a, r1) :- ReadPart(r0);
    var r2 :- Expect(" | Point2: ", r1);
    var (b, r3) :- ReadPart(r2);
    if r3 == [] then Some((a, b)) else None
  }

  lemma ReadPartOfUnscale(p: Option<Pos>, screen: Screen, rest: string)
    ensures ReadPart(Unscale(p, screen) + rest) == Some((SourcePoint(p, screen), rest))
  {
    var s := Unscale(p, screen) + rest;
    if p.None? {
      assert "-" <= s && s[1..] == rest;
    } else {
      var q := SourcePos(p.value, screen);
      assert s == PosText(q) + rest;
      assert s[0] == '(';
      ReadPosOfText(q, rest);
    }
  }

  lemma ParseCoordsLabelOfParts(p1: Option<Pos>, p2: Option<Pos>, screen: Screen)
    ensures ParseCoordsLabel("Point1: " + Unscale(p1, screen) + " | Point2: " + Unscale(p2, screen))
      == Some((SourcePoint(p1, screen), SourcePoint(p2, screen)))
  {
    var u1, u2 := Unscale(p1, screen), Unscale(p2, screen);
    var r3: string := [];
    var r2 := u2 + r3;
    var r1 := " | Point2: " + r2;
    var r0 := u1 + r1;
    var s := "Point1: " + r0;
    assert s == "Point1: " + u1 + " | Point2: " + u2;
    assert Expect("Point1: ", s) == Some(r0) by {
      assert "Point1: " <= s;
      assert s[|"Point1: "|..] == r0;
    }
    ReadPartOfUnscale(p1, screen, r1);
    assert Expect(" | Point2: ", r1) == Some(r2) by {
      assert " | Point2: " <= r1;
      assert r1[|" | Point2: "|..] == r2;
    }
    ReadPartOfUnscale(p2, screen, r3);
  }

  /**
   * The text of the coordinates label: each point's part is "-" when it is
   * missing and its source coordinates otherwise, and both read back.
   */
  function CoordsLabel(p1: Option<Pos>, p2: Option<Pos>, screen: Screen): (s: string)
    ensures ParseCoordsLabel(s) == Some((SourcePoint(p1, screen), SourcePoint(p2, screen)))
  {
    ParseCoordsLabelOfParts(p1, p2, screen);
    "Point1: " + Unscale(p1, screen) + " | Point2: " + Unscale(p2, screen)
  }

  /**
   * copy_coords: nothing when a point is missing; otherwise the clipboard text
   * "Point1: (x1, y1) | Point2: (x2, y2)" in source coordinates. It is the
   * coordinates label shown at the same moment, and it gives back exactly the
   * two source positions.
   */
  function CopyText(p1: Option<Pos>, p2: Option<Pos>, screen: Screen): (r: Option<string>)
    ensures r.Some? <==> p1.Some? && p2.Some?
    ensures r.Some? ==> r.value == CoordsLabel(p1, p2, screen)
    ensures r.Some? ==>
      ParseCoordsLabel(r.value) == Some((Some(SourcePos(p1.value, screen)), Some(SourcePos(p2.value, screen))))
  {
    if p1.None? || p2.None? then None
    else
      var a, b := SourcePos(p1.value, screen), SourcePos(p2.value, screen);
      var text := "Point1: (" + IntToString(a.x) + ", " + IntToString(a.y) + ") | Point2: ("
        + IntToString(b.x) + ", " + IntToString(b.y) + ")";
      CopyTextIsLabel(a, b);
      Some(text)
  }

  lemma CopyTextIsLabel(a: Pos, b: Pos)
    ensures "Point1: (" + IntToString(a.x) + ", " + IntToString(a.y) + ") | Point2: ("
        + IntToString(b.x) + ", " + IntToString(b.y) + ")"
      == "Point1: " + PosText(a) + " | Point2: " + PosText(b)
  {
  }
}
