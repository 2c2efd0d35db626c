/**
 * The selection state of FindPointsApp: pick mode, the two points, the
 * rectangle between them and the point being dragged, with the event handlers
 * that change them.
 */
module Selection {
  import opened Wrappers
  import opened Geometry
  import Magnifier

  /** Which of the two point markers a handle refers to. */
  datatype Slot = P1 | P2

  /** The arrow keys bound to on_arrow_key. */
  datatype Key = Up | Down | Left | Right

  /** The stages of a selection, read off the state fields. */
  datatype Phase = Idle | AwaitingFirstPoint | AwaitingSecondPoint | Ready

  /** The canvas rectangle, drawn from point1's centre to point2's centre. */
  datatype Rect = Rect(from: Pos, to: Pos)

  /** A point marker on the canvas. */
  datatype Marker = Marker(slot: Slot, centre: Pos)

  function Other(s: Slot): Slot {
    if s == P1 then P2 else P1
  }

  /** The rectangle the canvas should show for the given points. */
  function RectOf(p1: Option<Pos>, p2: Option<Pos>): Option<Rect> {
    if p1.Some? && p2.Some? then Some(Rect(p1.value, p2.value)) else None
  }

  /** A press at (px, py) lies on the marker centred at c. */
  predicate Hits(c: Pos, px: int, py: int) {
    (px - c.x) * (px - c.x) + (py - c.y) * (py - c.y) <= PointRadius * PointRadius
  }

  /** The point markers on the canvas in stacking order: point1 is always created first. */
  function Markers(p1: Option<Pos>, p2: Option<Pos>): seq<Marker> {
    (if p1.Some? then [Marker(P1, p1.value)] else []) + (if p2.Some? then [Marker(P2, p2.value)] else [])
  }

  /**
   * The marker a press selects: the first one in stacking order that the press
   * hits, or none when it hits none.
   */
  function FirstHit(markers: seq<Marker>, px: int, py: int): (r: Option<Slot>)
    ensures r.None? <==> forall k :: 0 <= k < |markers| ==> !Hits(markers[k].centre, px, py)
    ensures r.Some? ==>
      exists k :: 0 <= k < |markers| && markers[k].slot == r.value && Hits(markers[k].centre, px, py) &&
        (forall j :: 0 <= j < k ==> !Hits(markers[j].centre, px, py))
  {
    if markers == [] then None
    else if Hits(markers[0].centre, px, py) then Some(markers[0].slot)
    else
      FirstHit(markers[1..], px, py)
  }

  /** Where the markers overlap, point1 wins; point2 is chosen only when point1 is missed. */
  lemma FirstHitPrefersPoint1(p1: Option<Pos>, p2: Option<Pos>, px: int, py: int)
    ensures FirstHit(Markers(p1, p2), px, py) == Some(P1) <==> p1.Some? && Hits(p1.value, px, py)
    ensures FirstHit(Markers(p1, p2), px, py) == Some(P2) <==>
      p2.Some? && Hits(p2.value, px, py) && !(p1.Some? && Hits(p1.value, px, py))
  {
    var m := Markers(p1, p2);
    if p1.Some? {
      assert m[0] == Marker(P1, p1.value);
    }
    if p2.Some? {
      assert m[|m| - 1] == Marker(P2, p2.value);
    }
  }

  /** The step an arrow key asks for: exactly one pixel along exactly one axis. */
  function KeyDelta(k: Key): (d: (int, int))
    ensures (d.0 == 0) != (d.1 == 0)
    ensures -1 <= d.0 <= 1 && -1 <= d.1 <= 1
  {
    match k
    case Up => (0, -1)
    case Down => (0, 1)
    case Left => (-1, 0)
    case Right => (1, 0)
  }

  /** A centre moved one pixel for key k and pulled back onto the display. */
  function Nudged(c: Pos, k: Key): (r: Pos)
    ensures InDisplay(r)
  {
    var d := KeyDelta(k);
    Clamp(c.x + d.0, c.y + d.1)
  }

  /**
   * For an on-display centre a nudge moves exactly one pixel in the key's
   * direction, except at the display edge it faces, where the centre stays.
   */
  lemma NudgedStep(c: Pos, k: Key)
    requires InDisplay(c)
    ensures k == Up ==> Nudged(c, k) == Pos(c.x, if c.y == 0 then 0 else c.y - 1)
    ensures k == Down ==> Nudged(c, k) == Pos(c.x, if c.y == DisplayHeight then c.y else c.y + 1)
    ensures k == Left ==> Nudged(c, k) == Pos(if c.x == 0 then 0 else c.x - 1, c.y)
    ensures k == Right ==> Nudged(c, k) == Pos(if c.x == DisplayWidth then c.x else c.x + 1, c.y)
  {
  }

  class FindPointsApp {
    /** The source resolution (ScreenConfig); fixed for the session. */
    const screen: Screen

    var pickMode: bool
    var point1: Option<Pos>
    var point2: Option<Pos>
    var rect: Option<Rect>
    var draggingPoint: Option<Slot>

    /**
     * point2 needs point1; pick mode is on exactly while a point is still to
     * be placed after a reset; points stay on the display; the rectangle is
     * there exactly when both points are and joins their centres; a drag
     * target is an existing point.
     */
    ghost predicate Valid()
      reads this
    {
      ValidScreen(screen) &&
      (point2.Some? ==> point1.Some?) &&
      (pickMode ==> point2.None?) &&
      (point1.Some? && point2.None? ==> pickMode) &&
      (point1.Some? ==> InDisplay(point1.value)) &&
      (point2.Some? ==> InDisplay(point2.value)) &&
      rect == RectOf(point1, point2) &&
      (draggingPoint.Some? ==> Point(draggingPoint.value).Some?)
    }

    function Point(s: Slot): Option<Pos>
      reads this
    {
      match s
      case P1 => point1
      case P2 => point2
    }

    function CurrentPhase(): Phase
      reads this
    {
      if point2.Some? then Ready
      else if point1.Some? then AwaitingSecondPoint
      else if pickMode then AwaitingFirstPoint
      else Idle
    }

    constructor (screen: Screen)
      requires ValidScreen(screen)
      ensures Valid() && this.screen == screen
      ensures !pickMode && point1.None? && point2.None? && rect.None? && draggingPoint.None?
      ensures CurrentPhase() == Idle
    {
      this.screen := screen;
      pickMode := false;
      point1 := None;
      point2 := None;
      rect := None;
      draggingPoint := None;
    }

    /** enable_pick_mode: forget both points, the rectangle and the drag target, and wait for point1. */
    method EnablePickMode()
      requires Valid()
      modifies this
      ensures Valid()
      ensures pickMode && point1.None? && point2.None? && rect.None? && draggingPoint.None?
      ensures CurrentPhase() == AwaitingFirstPoint
    {
      pickMode := true;
      point1 := None;
      point2 := None;
      rect := None;
      draggingPoint := None;
    }

    /**
     * on_right_click: outside pick mode nothing changes, so no third point is
     * ever placed; otherwise the clamped click becomes point1, or point2,
     * which ends pick mode.
     */
    method OnRightClick(x: int, y: int)
      requires Valid()
      modifies this
      ensures Valid()
      ensures !old(pickMode) ==> unchanged(this)
      ensures old(CurrentPhase()) == Ready ==> unchanged(this)
      ensures old(pickMode) && old(point1).None? ==>
        point1 == Some(Clamp(x, y)) && point2.None? && pickMode && CurrentPhase() == AwaitingSecondPoint
      ensures old(pickMode) && old(point1).Some? ==>
        point1 == old(point1) && point2 == Some(Clamp(x, y)) && !pickMode && CurrentPhase() == Ready
      ensures draggingPoint == old(draggingPoint)
    {
      if !pickMode {
        return;
      }
      var c := Clamp(x, y);
      if point1.None? {
        point1 := Some(c);
      } else if point2.None? {
        point2 := Some(c);
        pickMode := false;
      }
      UpdateRectangle();
    }

    /** update_rectangle: when both points exist, the rectangle joins their centres; otherwise it is left as it is. */
    method UpdateRectangle()
      modifies this`rect
      ensures point1.Some? && point2.Some? ==> rect == Some(Rect(point1.value, point2.value))
      ensures point1.None? || point2.None? ==> rect == old(rect)
    {
      if point1.None? || point2.None? {
        return;
      }
      rect := Some(Rect(point1.value, point2.value));
    }

    /** The hit test of on_left_press: walk the markers in stacking order and stop at the first one hit. */
    method FindTarget(px: int, py: int) returns (target: Option<Slot>)
      ensures target == FirstHit(Markers(point1, point2), px, py)
    {
      var markers := Markers(point1, point2);
      var i := 0;
      while i < |markers|
        invariant 0 <= i <= |markers|
        invariant forall j :: 0 <= j < i ==> !Hits(markers[j].centre, px, py)
      {
        if Hits(markers[i].centre, px, py) {
          return Some(markers[i].slot);
        }
        i := i + 1;
      }
      return None;
    }

    /** on_left_press: the marker under the press becomes the drag target; a press on no marker changes nothing. */
    method OnLeftPress(px: int, py: int)
      requires Valid()
      modifies this`draggingPoint
      ensures Valid()
      ensures var t := FirstHit(Markers(point1, point2), px, py);
        draggingPoint == if t.Some? then t else old(draggingPoint)
    {
      var t := FindTarget(px, py);
      if t.Some? {
        draggingPoint := t;
        assert Point(t.value).Some? by {
          FirstHitPrefersPoint1(point1, point2, px, py);
        }
      }
    }

    /** Moves the marker of an existing point (canvas.coords) and refreshes the rectangle. */
    method MoveTo(s: Slot, c: Pos)
      requires Valid() && Point(s).Some? && InDisplay(c)
      modifies this
      ensures Valid()
      ensures Point(s) == Some(c) && Point(Other(s)) == old(Point(Other(s)))
      ensures pickMode == old(pickMode) && draggingPoint == old(draggingPoint)
    {
      if s == P1 {
        point1 := Some(c);
      } else {
        point2 := Some(c);
      }
      UpdateRectangle();
    }

    /**
     * on_drag: without a drag target nothing happens; otherwise only the target
     * moves, to the clamped pointer, and the magnifier shows the new position.
     */
    method OnDrag(x: int, y: int) returns (view: Option<Magnifier.ZoomView>)
      requires Valid()
      modifies this
      ensures Valid()
      ensures old(draggingPoint).None? ==> unchanged(this) && view.None?
      ensures old(draggingPoint).Some? ==>
        var s := old(draggingPoint).value;
        Point(s) == Some(Clamp(x, y)) && Point(Other(s)) == old(Point(Other(s))) &&
        view == Some(Magnifier.View(Clamp(x, y), screen))
      ensures pickMode == old(pickMode) && draggingPoint == old(draggingPoint)
    {
      if draggingPoint.None? {
        return None;
      }
      var c := Clamp(x, y);
      MoveTo(draggingPoint.value, c);
      view := Some(Magnifier.View(c, screen));
    }

    /** on_release: the drag ends, whatever the state. */
    method OnRelease()
      requires Valid()
      modifies this`draggingPoint
      ensures Valid()
      ensures draggingPoint.None?
    {
      draggingPoint := None;
    }

    /**
     * on_arrow_key: without a drag target nothing happens; otherwise the target
     * moves one pixel for the key, clamped, and the magnifier shows it there.
     */
    method OnArrowKey(k: Key) returns (view: Option<Magnifier.ZoomView>)
      requires Valid()
      modifies this
      ensures Valid()
      ensures old(draggingPoint).None? ==> unchanged(this) && view.None?
      ensures old(draggingPoint).Some? ==>
        var s := old(draggingPoint).value;
        old(Point(s)).Some? &&
        Point(s) == Some(Nudged(old(Point(s)).value, k)) && Point(Other(s)) == old(Point(Other(s))) &&
        view == Some(Magnifier.View(Point(s).value, screen))
      ensures pickMode == old(pickMode) && draggingPoint == old(draggingPoint)
    {
      if draggingPoint.None? {
        return None;
      }
      var s := draggingPoint.value;
      var c := Nudged(Point(s).value, k);
      MoveTo(s, c);
      view := Some(Magnifier.View(c, screen));
    }
  }
}
