/**
 * Worked cases of the classifier and the editor, derived from the contracts
 * alone: each method below is a client that uses only what the members it
 * calls promise.
 */
module Scenarios {
  import opened Geometry
  import opened PointMover
  import DS = DocumentScanner

  /** A polygon whose leftmost point is lower than its rightmost point is rotated to the right. */
  method ExampleToRight() returns (o: DS.Orientation, corners: map<DS.Corner, Point>)
    ensures o == DS.ToRight
    ensures corners == map[DS.UpperLeft := Point(50, 10), DS.UpperRight := Point(300, 60),
                           DS.LowerLeft := Point(30, 220), DS.LowerRight := Point(280, 260)]
  {
    var scanner := new DS.DocumentScanner("Detection");
    var polygon := [Point(50, 10), Point(300, 60), Point(280, 260), Point(30, 220)];
    assert polygon[0].x > 0 && polygon[0].x < DS.IntMax && polygon[0].y > 0 && polygon[0].y < DS.IntMax;
    scanner.FindCorners(polygon);
    assert DS.FirstExtremes(polygon, 3, 1, 0, 2);
    ghost var a, b, c, d :| DS.FirstExtremes(polygon, a, b, c, d)
      && DS.Classified(map[], polygon[a], polygon[b], polygon[c], polygon[d], scanner.orientation, scanner.cornerPoints);
    DS.FirstExtremeUnique(polygon, 4, DS.X, a, 3);
    DS.FirstExtremeUnique(polygon, 4, DS.X, b, 1);
    DS.FirstExtremeUnique(polygon, 4, DS.Y, c, 0);
    DS.FirstExtremeUnique(polygon, 4, DS.Y, d, 2);
    o, corners := scanner.orientation, scanner.cornerPoints;
  }

  /** A polygon whose leftmost point is higher than its rightmost point is rotated to the left. */
  method ExampleToLeft() returns (o: DS.Orientation, corners: map<DS.Corner, Point>)
    ensures o == DS.ToLeft
    ensures corners == map[DS.UpperLeft := Point(10, 50), DS.UpperRight := Point(60, 10),
                           DS.LowerLeft := Point(50, 100), DS.LowerRight := Point(110, 60)]
  {
    var scanner := new DS.DocumentScanner("Detection");
    var polygon := [Point(10, 50), Point(60, 10), Point(110, 60), Point(50, 100)];
    assert polygon[0].x > 0 && polygon[0].x < DS.IntMax && polygon[0].y > 0 && polygon[0].y < DS.IntMax;
    scanner.FindCorners(polygon);
    assert DS.FirstExtremes(polygon, 0, 2, 1, 3);
    ghost var a, b, c, d :| DS.FirstExtremes(polygon, a, b, c, d)
      && DS.Classified(map[], polygon[a], polygon[b], polygon[c], polygon[d], scanner.orientation, scanner.cornerPoints);
    DS.FirstExtremeUnique(polygon, 4, DS.X, a, 0);
    DS.FirstExtremeUnique(polygon, 4, DS.X, b, 2);
    DS.FirstExtremeUnique(polygon, 4, DS.Y, c, 1);
    DS.FirstExtremeUnique(polygon, 4, DS.Y, d, 3);
    o, corners := scanner.orientation, scanner.cornerPoints;
  }

  /**
   * Correcting the corners detected on the polygon above: the upper left corner is
   * dragged from near (50, 10) to (40, 0), the user quits with 'q', and a move
   * after the quit key is never dispatched; the edited corners are written back.
   */
  method ExampleEditAfterDetection(scanner: DS.DocumentScanner)
    requires scanner.Valid() && scanner.orientation == DS.ToRight
    requires scanner.cornerPoints == map[DS.UpperLeft := Point(50, 10), DS.UpperRight := Point(300, 60),
                                         DS.LowerLeft := Point(30, 220), DS.LowerRight := Point(280, 260)]
    modifies scanner, scanner.pointMover
    ensures scanner.cornerPoints == map[DS.UpperLeft := Point(40, 0), DS.UpperRight := Point(300, 60),
                                        DS.LowerLeft := Point(30, 220), DS.LowerRight := Point(280, 260)]
  {
    var slots := DS.ToSlots(scanner.cornerPoints);
    assert slots == [Point(50, 10), Point(300, 60), Point(280, 260), Point(30, 220)];

    var drag := [MouseEvent(EventLButtonDown, 52, 12), MouseEvent(EventMouseMove, 40, 0),
                 MouseEvent(EventLButtonUp, 40, 0)];
    var inputs := [DS.Mouse(EventLButtonDown, 52, 12), DS.Mouse(EventMouseMove, 40, 0),
                   DS.Mouse(EventLButtonUp, 40, 0), DS.Key(DS.QuitKey), DS.Mouse(EventMouseMove, 500, 500)];
    assert DS.MouseBeforeQuit(inputs) == drag by {
      assert inputs[3..][0] == DS.Key(DS.QuitKey);
      assert DS.MouseBeforeQuit(inputs[3..]) == [];
      assert inputs[2..][1..] == inputs[3..];
      assert DS.MouseBeforeQuit(inputs[2..]) == drag[2..];
      assert inputs[1..][1..] == inputs[2..];
      assert DS.MouseBeforeQuit(inputs[1..]) == drag[1..];
    }

    ghost var s := scanner.pointMover.State().(points := slots);
    var hit := ClosestPoint(slots, Point(52, 12));
    assert Dist2(Point(52, 12), Point(50, 10)) == 8;
    assert slots[UpperLeft.Index()] == Point(50, 10);
    assert hit.dist2 <= 8;
    assert Dist2(Point(52, 12), Point(300, 60)) > 8 && Dist2(Point(52, 12), Point(280, 260)) > 8
      && Dist2(Point(52, 12), Point(30, 220)) > 8;
    assert hit.loc == UpperLeft;
    DragMovesNearestSlot(s, Point(52, 12), Point(40, 0));

    scanner.DrawLines(inputs);
    DS.AllCornersListed();
  }

  /** An axis-aligned square is upright, and then no corner is written. */
  method ExampleUpright() returns (o: DS.Orientation, corners: map<DS.Corner, Point>)
    ensures o == DS.Upright && corners == map[]
  {
    var scanner := new DS.DocumentScanner("Detection");
    var square := [Point(10, 10), Point(200, 10), Point(200, 200), Point(10, 200)];
    assert square[0].x > 0 && square[0].x < DS.IntMax && square[0].y > 0 && square[0].y < DS.IntMax;
    scanner.FindCorners(square);
    assert DS.FirstExtremes(square, 0, 1, 0, 2);
    ghost var a, b, c, d :| DS.FirstExtremes(square, a, b, c, d)
      && DS.Classified(map[], square[a], square[b], square[c], square[d], scanner.orientation, scanner.cornerPoints);
    DS.FirstExtremeUnique(square, 4, DS.X, a, 0);
    DS.FirstExtremeUnique(square, 4, DS.X, b, 1);
    o, corners := scanner.orientation, scanner.cornerPoints;
  }

  /** When the user quits the editor at once after an upright detection, every corner reads back as (0, 0). */
  method ExampleUprightQuit(scanner: DS.DocumentScanner)
    requires scanner.Valid() && scanner.orientation == DS.Upright && scanner.cornerPoints == map[]
    modifies scanner, scanner.pointMover
    ensures scanner.cornerPoints == map[DS.UpperLeft := Point(0, 0), DS.UpperRight := Point(0, 0),
                                        DS.LowerLeft := Point(0, 0), DS.LowerRight := Point(0, 0)]
  {
    var inputs := [DS.Key('q')];
    assert DS.MouseBeforeQuit(inputs) == [];
    scanner.DrawLines(inputs);
    DS.AllCornersListed();
  }

  /** The corner points of the stand-alone editor harness. */
  function HarnessPoints(): seq<Point>
  {
    [Point(100, 100), Point(1000, 100), Point(1000, 1000), Point(100, 1000)]
  }

  /** A press near the upper left corner, a move to (10, 10) and a release move only that corner. */
  method ExampleDrag() returns (points: seq<Point>, status: ButtonStatus)
    ensures points == [Point(10, 10), Point(1000, 100), Point(1000, 1000), Point(100, 1000)]
    ensures status == Released
  {
    var mover := new CVPointMover.WithPoints(HarnessPoints(), DefaultWinName);
    var hit := ClosestPoint(HarnessPoints(), Point(110, 105));
    assert Dist2(Point(110, 105), HarnessPoints()[UpperLeft.Index()]) == 125;
    assert hit.loc == UpperLeft;
    var _ := mover.MouseEventHandler(EventLButtonDown, 110, 105);
    assert mover.btnStatus == Pressed && mover.pointLoc == UpperLeft;
    var _ := mover.MouseEventHandler(EventMouseMove, 10, 10);
    var _ := mover.MouseEventHandler(EventLButtonUp, 10, 10);
    points, status := mover.pPoints, mover.btnStatus;
  }

  /** A press far from every corner grabs nothing, and the move that follows changes nothing. */
  method ExampleFarPress() returns (points: seq<Point>, status: ButtonStatus)
    ensures points == HarnessPoints()
    ensures status == Released
  {
    var mover := new CVPointMover.WithPoints(HarnessPoints(), DefaultWinName);
    var _ := mover.MouseEventHandler(EventLButtonDown, 550, 550);
    PressTargetsNearestSlot(EditorState(HarnessPoints(), Released, UpperLeft, 0, None), Point(550, 550));
    assert forall l: PointLoc :: Dist2(Point(550, 550), HarnessPoints()[l.Index()]) > HitThreshold2;
    assert mover.btnStatus == Released;
    var _ := mover.MouseEventHandler(EventMouseMove, 300, 300);
    points, status := mover.pPoints, mover.btnStatus;
  }

  /** A press as far from the upper left as from the upper right corner grabs the upper left. */
  method ExampleTieGoesToLowerSlot() returns (loc: PointLoc, status: ButtonStatus)
    ensures loc == UpperLeft && status == Pressed
  {
    var square := [Point(0, 0), Point(10, 0), Point(10, 10), Point(0, 10)];
    var mover := new CVPointMover.WithPoints(square, DefaultWinName);
    assert Dist2(Point(5, 0), Point(0, 0)) == 25 && Dist2(Point(5, 0), Point(10, 0)) == 25;
    assert Dist2(Point(5, 0), Point(10, 10)) == 125 && Dist2(Point(5, 0), Point(0, 10)) == 125;
    var hit := ClosestPoint(square, Point(5, 0));
    assert square[UpperLeft.Index()] == Point(0, 0) && square[UpperRight.Index()] == Point(10, 0);
    assert hit.dist2 <= 25;
    assert hit.loc != LowerRight && hit.loc != LowerLeft;
    assert hit.loc != UpperRight;
    var _ := mover.MouseEventHandler(EventLButtonDown, 5, 0);
    loc, status := mover.pointLoc, mover.btnStatus;
  }

  /**
   * Two redraws with no edit in between issue the same requests, and each
   * draws the quadrilateral's four edges and its four handles.
   */
  method ExampleRedrawTwice(points: seq<Point>, name: string) returns (first: seq<DrawCommand>, second: seq<DrawCommand>)
    requires |points| >= 4
    ensures first == second
    ensures LinesOf(first) == CyclicEdges(points)
    ensures HandlesOf(first) == points[..4]
  {
    var mover := new CVPointMover.WithPoints(points, name);
    first := mover.DrawLines(DefaultMessages);
    second := mover.DrawLines(DefaultMessages);
    FrameGeometry(points, DefaultMessages, name);
  }
}
