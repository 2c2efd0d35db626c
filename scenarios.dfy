/**
 * Sessions driven through the public handlers: what a caller can conclude
 * from the contracts alone (1920 x 1080 screenshot shown at 1200 x 675).
 */
module Scenarios {
  import opened Wrappers
  import opened Geometry
  import opened Selection
  import Labels

  /** Resets, then places point1 at (100, 100) and point2 at (200, 200) on a 1920 x 1080 screenshot. */
  method PlacePoints() returns (app: FindPointsApp)
    ensures fresh(app) && app.Valid() && app.screen == Screen(1920, 1080)
    ensures app.point1 == Some(Pos(100, 100)) && app.point2 == Some(Pos(200, 200))
    ensures app.draggingPoint.None?
  {
    app := new FindPointsApp(Screen(1920, 1080));
    app.EnablePickMode();
    app.OnRightClick(100, 100);
    app.OnRightClick(200, 200);
    assert app.CurrentPhase() == Ready;
    assert app.rect == Some(Rect(Pos(100, 100), Pos(200, 200)));
    // A third right click is ignored.
    app.OnRightClick(5, 5);
  }

  /** The copied text of that session carries the source coordinates (160, 160) and (320, 320). */
  method CopyPoints() {
    var screen := Screen(1920, 1080);
    var text := Labels.CopyText(Some(Pos(100, 100)), Some(Pos(200, 200)), screen);
    assert SourcePos(Pos(100, 100), screen) == Pos(160, 160);
    assert SourcePos(Pos(200, 200), screen) == Pos(320, 320);
    assert Labels.ParseCoordsLabel(text.value) == Some((Some(Pos(160, 160)), Some(Pos(320, 320))));
  }

  /** Drags point1 off the corner, then nudges it with the arrow keys. */
  method DragAndNudge() {
    var app := PlacePoints();
    // Press on point1, drag it off the top-left corner: it stops at (0, 0).
    FirstHitPrefersPoint1(app.point1, app.point2, 102, 98);
    app.OnLeftPress(102, 98);
    assert app.draggingPoint == Some(P1);
    var view := app.OnDrag(-50, -50);
    assert app.point1 == Some(Pos(0, 0)) && app.point2 == Some(Pos(200, 200));
    assert view.value.crop == Box(0, 0, 30, 30);

    // Drag to (50, 50), then two presses of Up move it to (50, 48).
    view := app.OnDrag(50, 50);
    view := app.OnArrowKey(Up);
    view := app.OnArrowKey(Up);
    assert app.point1 == Some(Pos(50, 48));
    assert app.rect == Some(Rect(Pos(50, 48), Pos(200, 200)));

    // After release the keys do nothing.
    app.OnRelease();
    view := app.OnArrowKey(Up);
    assert view.None? && app.point1 == Some(Pos(50, 48));
  }
}
