/**
 * The corner classifier and the corner hand-off of DocumentScanner: one pass
 * over the approximated paper polygon finds its extreme points, the heights of
 * the leftmost and rightmost points decide the orientation, and the extremes
 * are written into the corner map; the editor then works on a copy of the map
 * in its own slot order, which is copied back when the user quits.
 */
module DocumentScanner {
  import opened Geometry
  import PointMover

  /** INT_MAX of a 32-bit int, the starting value of the running minima. */
  const IntMax: int := 0x7fff_ffff

  datatype Orientation = NotSet | ToLeft | ToRight | Upright

  /** The keys of the corner map, in CornerPoints' declared order (which is not the editor's slot order). */
  datatype Corner = UpperLeft | UpperRight | LowerLeft | LowerRight

  function OrientationToString(o: Orientation): (r: string)
    ensures r == "Not a valid orientation" <==> o == NotSet
  {
    match o
    case Upright => "Upright"
    case ToLeft => "To left"
    case ToRight => "To right"
    case NotSet => "Not a valid orientation"
  }

  /** The names of the three orientations the classifier sets. */
  lemma OrientationNames()
    ensures OrientationToString(Upright) == "Upright"
    ensures OrientationToString(ToLeft) == "To left"
    ensures OrientationToString(ToRight) == "To right"
  {
  }

  /** Different orientations have different names. */
  lemma OrientationNamesDistinct(a: Orientation, b: Orientation)
    requires a != b
    ensures OrientationToString(a) != OrientationToString(b)
  {
  }

  /*************************** Extreme points ***************************/

  datatype Axis = X | Y

  function Coord(p: Point, a: Axis): int
  {
    match a
    case X => p.x
    case Y => p.y
  }

  /** Among the first n points, k is the first one whose coordinate on axis a is the largest. */
  predicate IsFirstMax(s: seq<Point>, n: int, a: Axis, k: int)
  {
    && 0 <= k < n <= |s|
    && (forall j | 0 <= j < n :: Coord(s[j], a) <= Coord(s[k], a))
    && (forall j | 0 <= j < k :: Coord(s[j], a) < Coord(s[k], a))
  }

  /** Among the first n points, k is the first one whose coordinate on axis a is the smallest. */
  predicate IsFirstMin(s: seq<Point>, n: int, a: Axis, k: int)
  {
    && 0 <= k < n <= |s|
    && (forall j | 0 <= j < n :: Coord(s[k], a) <= Coord(s[j], a))
    && (forall j | 0 <= j < k :: Coord(s[k], a) < Coord(s[j], a))
  }

  /** a, b, c and d are the first leftmost, rightmost, topmost and bottommost points of s. */
  predicate FirstExtremes(s: seq<Point>, a: int, b: int, c: int, d: int)
  {
    && IsFirstMin(s, |s|, X, a) && IsFirstMax(s, |s|, X, b)
    && IsFirstMin(s, |s|, Y, c) && IsFirstMax(s, |s|, Y, d)
  }

  /** The first extreme is unique. */
  lemma FirstExtremeUnique(s: seq<Point>, n: int, a: Axis, k1: int, k2: int)
    requires (IsFirstMax(s, n, a, k1) && IsFirstMax(s, n, a, k2)) || (IsFirstMin(s, n, a, k1) && IsFirstMin(s, n, a, k2))
    ensures k1 == k2
  {
  }

  /** The running maximum of the scan: it starts at 0 with no index, so only positive coordinates are recorded. */
  ghost predicate TracksMax(s: seq<Point>, n: int, a: Axis, best: int, idx: int)
  {
    0 <= n <= |s| &&
    if idx == -1 then best == 0 && forall j | 0 <= j < n :: Coord(s[j], a) <= 0
    else IsFirstMax(s, n, a, idx) && best == Coord(s[idx], a) && best > 0
  }

  /** The running minimum of the scan: it starts at INT_MAX with no index. */
  ghost predicate TracksMin(s: seq<Point>, n: int, a: Axis, best: int, idx: int)
  {
    0 <= n <= |s| &&
    if idx == -1 then best == IntMax && forall j | 0 <= j < n :: Coord(s[j], a) >= IntMax
    else IsFirstMin(s, n, a, idx) && best == Coord(s[idx], a) && best < IntMax
  }

  /** One comparison of the scan: a strictly larger coordinate becomes the running maximum. */
  method KeepMax(s: seq<Point>, i: int, a: Axis, best: int, idx: int) returns (best': int, idx': int)
    requires 0 <= i < |s| && TracksMax(s, i, a, best, idx)
    ensures TracksMax(s, i + 1, a, best', idx')
    ensures Coord(s[i], a) > best ==> best' == Coord(s[i], a) && idx' == i
    ensures Coord(s[i], a) <= best ==> best' == best && idx' == idx
  {
    best', idx' := best, idx;
    if Coord(s[i], a) > best {
      best', idx' := Coord(s[i], a), i;
    }
  }

  /** One comparison of the scan: a strictly smaller coordinate becomes the running minimum. */
  method KeepMin(s: seq<Point>, i: int, a: Axis, best: int, idx: int) returns (best': int, idx': int)
    requires 0 <= i < |s| && TracksMin(s, i, a, best, idx)
    ensures TracksMin(s, i + 1, a, best', idx')
    ensures Coord(s[i], a) < best ==> best' == Coord(s[i], a) && idx' == i
    ensures Coord(s[i], a) >= best ==> best' == best && idx' == idx
  {
    best', idx' := best, idx;
    if Coord(s[i], a) < best {
      best', idx' := Coord(s[i], a), i;
    }
  }

  /** A running maximum over the whole sequence: no index exactly when no coordinate is positive. */
  lemma TracksMaxDone(s: seq<Point>, a: Axis, best: int, idx: int)
    requires TracksMax(s, |s|, a, best, idx)
    ensures idx == -1 <==> forall j | 0 <= j < |s| :: Coord(s[j], a) <= 0
    ensures idx != -1 ==> IsFirstMax(s, |s|, a, idx)
  {
  }

  /** A running minimum over the whole sequence: no index exactly when no coordinate is below INT_MAX. */
  lemma TracksMinDone(s: seq<Point>, a: Axis, best: int, idx: int)
    requires TracksMin(s, |s|, a, best, idx)
    ensures idx == -1 <==> forall j | 0 <= j < |s| :: Coord(s[j], a) >= IntMax
    ensures idx != -1 ==> IsFirstMin(s, |s|, a, idx)
  {
  }

  /**
   * The extreme-point pass of findCorners. Each index is -1 exactly when no
   * point beats the starting value (0 for the maxima, INT_MAX for the minima);
   * otherwise it is the first point with the extreme coordinate, because the
   * comparisons are strict.
   */
  method ScanExtremes(s: seq<Point>) returns (minXIdx: int, maxXIdx: int, minYIdx: int, maxYIdx: int)
    ensures maxXIdx == -1 <==> forall j | 0 <= j < |s| :: s[j].x <= 0
    ensures maxXIdx != -1 ==> IsFirstMax(s, |s|, X, maxXIdx)
    ensures minXIdx == -1 <==> forall j | 0 <= j < |s| :: s[j].x >= IntMax
    ensures minXIdx != -1 ==> IsFirstMin(s, |s|, X, minXIdx)
    ensures maxYIdx == -1 <==> forall j | 0 <= j < |s| :: s[j].y <= 0
    ensures maxYIdx != -1 ==> IsFirstMax(s, |s|, Y, maxYIdx)
    ensures minYIdx == -1 <==> forall j | 0 <= j < |s| :: s[j].y >= IntMax
    ensures minYIdx != -1 ==> IsFirstMin(s, |s|, Y, minYIdx)
  {
    var minX, maxX := IntMax, 0;
    var minY, maxY := IntMax, 0;
    minXIdx, maxXIdx := -1, -1;
    minYIdx, maxYIdx := -1, -1;
    for i := 0 to |s|
      invariant TracksMax(s, i, X, maxX, maxXIdx)
      invariant TracksMin(s, i, X, minX, minXIdx)
      invariant TracksMax(s, i, Y, maxY, maxYIdx)
      invariant TracksMin(s, i, Y, minY, minYIdx)
    {
      maxX, maxXIdx := KeepMax(s, i, X, maxX, maxXIdx);
      minX, minXIdx := KeepMin(s, i, X, minX, minXIdx);
      maxY, maxYIdx := KeepMax(s, i, Y, maxY, maxYIdx);
      minY, minYIdx := KeepMin(s, i, Y, minY, minYIdx);
    }
    TracksMaxDone(s, X, maxX, maxXIdx);
    TracksMinDone(s, X, minX, minXIdx);
    TracksMaxDone(s, Y, maxY, maxYIdx);
    TracksMinDone(s, Y, minY, minYIdx);
  }

  /**
   * The corner assignment of findCorners, given the first leftmost, rightmost,
   * topmost and bottommost points. A left side higher than the right side is
   * rotated to the left, a lower one to the right; equal heights are upright,
   * and then no corner is written.
   */
  predicate Classified(before: map<Corner, Point>, minXPt: Point, maxXPt: Point, minYPt: Point, maxYPt: Point,
                       o: Orientation, after: map<Corner, Point>)
  {
    if minXPt.y < maxXPt.y then
      o == ToLeft && after == before[UpperLeft := minXPt][UpperRight := minYPt][LowerLeft := maxYPt][LowerRight := maxXPt]
    else if minXPt.y == maxXPt.y then
      o == Upright && after == before
    else
      o == ToRight && after == before[UpperLeft := minYPt][UpperRight := maxXPt][LowerLeft := minXPt][LowerRight := maxYPt]
  }

  /*************************** Corner map and editor slots ***************************/

  /** The editor slot of each corner: the slot of the same name. */
  function SlotOf(c: Corner): PointMover.PointLoc
  {
    match c
    case UpperLeft => PointMover.UpperLeft
    case UpperRight => PointMover.UpperRight
    case LowerLeft => PointMover.LowerLeft
    case LowerRight => PointMover.LowerRight
  }

  /** Different corners go to different slots. */
  lemma SlotOfInjective(a: Corner, b: Corner)
    requires a != b
    ensures SlotOf(a) != SlotOf(b)
  {
  }

  /** cornerPoints[c] as std::map reads it: a missing key reads as Point (0, 0), which is then inserted. */
  function CornerAt(m: map<Corner, Point>, c: Corner): Point
  {
    if c in m then m[c] else Point(0, 0)
  }

  const AllCorners: set<Corner> := {UpperLeft, UpperRight, LowerLeft, LowerRight}

  lemma AllCornersListed()
    ensures forall c: Corner :: c in AllCorners
  {
    forall c: Corner
      ensures c in AllCorners
    {
      match c
      case UpperLeft =>
      case UpperRight =>
      case LowerLeft =>
      case LowerRight =>
    }
  }

  /** The map after every corner has been read with operator[]. */
  function Completed(m: map<Corner, Point>): map<Corner, Point>
  {
    map c | c in AllCorners :: CornerAt(m, c)
  }

  /** The editor's vector built from the corner map: each corner at the slot of its name. */
  function ToSlots(m: map<Corner, Point>): (v: seq<Point>)
    ensures |v| == 4
    ensures forall c: Corner :: v[SlotOf(c).Index()] == CornerAt(m, c)
  {
    [CornerAt(m, UpperLeft), CornerAt(m, UpperRight), CornerAt(m, LowerRight), CornerAt(m, LowerLeft)]
  }

  /** The corner map written back from the editor's vector: every corner from the slot of its name. */
  function FromSlots(v: seq<Point>): (m: map<Corner, Point>)
    requires |v| >= 4
    ensures m.Keys == AllCorners
    ensures forall c: Corner :: c in m && m[c] == v[SlotOf(c).Index()]
  {
    AllCornersListed();
    map[UpperLeft := v[0], UpperRight := v[1], LowerRight := v[2], LowerLeft := v[3]]
  }

  /** Map to vector to map without edits gives back the map, with unset corners read as (0, 0). */
  lemma MapRoundTrip(m: map<Corner, Point>)
    ensures FromSlots(ToSlots(m)) == Completed(m)
    ensures m.Keys == AllCorners ==> FromSlots(ToSlots(m)) == m
  {
  }

  /** drawLines' four write-backs, one per corner, give the map read back by name from the vector. */
  lemma WriteBackByName(m: map<Corner, Point>, v: seq<Point>)
    requires |v| >= 4
    ensures m[UpperLeft := v[0]][UpperRight := v[1]][LowerRight := v[2]][LowerLeft := v[3]] == FromSlots(v)
  {
  }

  /** Vector to map to vector gives back the four slots. */
  lemma SlotsRoundTrip(v: seq<Point>)
    requires |v| == 4
    ensures ToSlots(FromSlots(v)) == v
  {
  }

  /*************************** The scanner object ***************************/

  /** What the corner window delivers while drawLines waits: mouse events, and keys from waitKey. */
  datatype WindowInput = Mouse(event: int, x: int, y: int) | Key(key: char)

  /** The key that ends the editing session. */
  const QuitKey: char := 'q'

  /** The mouse events delivered before the first quit key; keys other than the quit key are ignored. */
  function MouseBeforeQuit(inputs: seq<WindowInput>): seq<PointMover.MouseEvent>
    decreases |inputs|
  {
    if inputs == [] then []
    else
      match inputs[0]
      case Key(c) => if c == QuitKey then [] else MouseBeforeQuit(inputs[1..])
      case Mouse(e, x, y) => [PointMover.MouseEvent(e, x, y)] + MouseBeforeQuit(inputs[1..])
  }

  class DocumentScanner {
    var orientation: Orientation
    var cornerPoints: map<Corner, Point>
    const pointMover: PointMover.CVPointMover

    ghost predicate Valid()
      reads this, pointMover
    {
      pointMover.Valid()
    }

    /** The parts of the constructor that concern the corners: no orientation, no corners, an editor for the corner window. */
    constructor (cornersWinName: string)
      ensures Valid() && fresh(pointMover)
      ensures orientation == NotSet && cornerPoints == map[]
      ensures pointMover.pPoints == [] && pointMover.winName == cornersWinName
      ensures pointMover.btnStatus == PointMover.Released
    {
      orientation := NotSet;
      cornerPoints := map[];
      pointMover := new PointMover.CVPointMover();
      new;
      pointMover.SetWinName(cornersWinName);
    }

    /** setCornerPoint: writes one corner and nothing else. */
    method SetCornerPoint(cp: Corner, point: Point)
      modifies this
      ensures cornerPoints == old(cornerPoints)[cp := point]
      ensures orientation == old(orientation)
    {
      cornerPoints := cornerPoints[cp := point];
    }

    /**
     * findCorners on the approximated polygon approxRect. Each index the scan
     * leaves at -1 would be read out of bounds, so the polygon must have a
     * point with x > 0, one with x < INT_MAX, and likewise for y.
     */
    method FindCorners(approxRect: seq<Point>)
      requires exists j | 0 <= j < |approxRect| :: approxRect[j].x > 0
      requires exists j | 0 <= j < |approxRect| :: approxRect[j].x < IntMax
      requires exists j | 0 <= j < |approxRect| :: approxRect[j].y > 0
      requires exists j | 0 <= j < |approxRect| :: approxRect[j].y < IntMax
      modifies this
      ensures orientation != NotSet
      ensures exists a, b, c, d ::
        && FirstExtremes(approxRect, a, b, c, d)
        && Classified(old(cornerPoints), approxRect[a], approxRect[b], approxRect[c], approxRect[d],
                      orientation, cornerPoints)
      ensures forall c | c in cornerPoints ::
        (c in old(cornerPoints) && cornerPoints[c] == old(cornerPoints)[c]) || cornerPoints[c] in approxRect
    {
      ghost var before := cornerPoints;
      var minXIdx, maxXIdx, minYIdx, maxYIdx := ScanExtremes(approxRect);
      var minXPt, maxXPt := approxRect[minXIdx], approxRect[maxXIdx];
      var minYPt, maxYPt := approxRect[minYIdx], approxRect[maxYIdx];
      if minXPt.y < maxXPt.y {
        orientation := ToLeft;
        SetCornerPoint(UpperLeft, minXPt);
        SetCornerPoint(UpperRight, minYPt);
        SetCornerPoint(LowerLeft, maxYPt);
        SetCornerPoint(LowerRight, maxXPt);
      } else if minXPt.y == maxXPt.y {
        orientation := Upright;
      } else {
        orientation := ToRight;
        SetCornerPoint(UpperLeft, minYPt);
        SetCornerPoint(UpperRight, maxXPt);
        SetCornerPoint(LowerLeft, minXPt);
        SetCornerPoint(LowerRight, maxYPt);
      }
      assert Classified(before, minXPt, maxXPt, minYPt, maxYPt, orientation, cornerPoints);
      assert minXPt in approxRect && maxXPt in approxRect && minYPt in approxRect && maxYPt in approxRect;
      assert FirstExtremes(approxRect, minXIdx, maxXIdx, minYIdx, maxYIdx);
    }

    /**
     * The wait loop of drawLines: inputs are taken in order until the quit key;
     * each mouse event among them is handed to the editor, other keys are dropped.
     */
    method WaitForQuit(inputs: seq<WindowInput>)
      requires pointMover.Valid() && |pointMover.pPoints| == 4 && Key(QuitKey) in inputs
      modifies pointMover
      ensures pointMover.Valid() && pointMover.winName == old(pointMover.winName)
      ensures pointMover.State() == PointMover.Replay(old(pointMover.State()), MouseBeforeQuit(inputs))
    {
      ghost var start := pointMover.State();
      var i := 0;
      while true
        invariant 0 <= i <= |inputs| && Key(QuitKey) in inputs[i..]
        invariant pointMover.Valid() && |pointMover.pPoints| == 4
        invariant pointMover.winName == old(pointMover.winName)
        invariant PointMover.Replay(pointMover.State(), MouseBeforeQuit(inputs[i..]))
               == PointMover.Replay(start, MouseBeforeQuit(inputs))
        decreases |inputs| - i
      {
        var input := inputs[i];
        assert inputs[i..][1..] == inputs[i + 1..];
        i := i + 1;
        if input == Key(QuitKey) {
          break;
        }
        if input.Mouse? {
          var _ := pointMover.MouseEventHandler(input.event, input.x, input.y);
        }
      }
    }

    /**
     * drawLines: without an orientation it returns at once. Otherwise the
     * corners are handed to the editor in its slot order, the editor handles
     * the mouse events that arrive until the quit key, and the edited slots
     * are written back to the corners of the same names.
     */
    method DrawLines(inputs: seq<WindowInput>)
      requires Valid()
      requires orientation != NotSet ==> Key(QuitKey) in inputs
      modifies this, pointMover
      ensures Valid()
      ensures orientation == old(orientation)
      ensures pointMover.winName == old(pointMover.winName)
      ensures old(orientation) == NotSet ==>
        cornerPoints == old(cornerPoints) && pointMover.State() == old(pointMover.State())
      ensures old(orientation) != NotSet ==>
        var session := PointMover.Replay(old(pointMover.State()).(points := ToSlots(old(cornerPoints))),
                                         MouseBeforeQuit(inputs));
        pointMover.State() == session && cornerPoints == FromSlots(session.points)
      ensures old(orientation) != NotSet && MouseBeforeQuit(inputs) == [] ==>
        cornerPoints == Completed(old(cornerPoints))
    {
      if orientation == NotSet {
        return;
      }
      var points := ToSlots(cornerPoints);
      pointMover.SetPPoints(points);
      var _ := pointMover.DrawLines(PointMover.DefaultMessages);
      WaitForQuit(inputs);
      var edited := pointMover.pPoints;
      cornerPoints := cornerPoints[UpperLeft := edited[0]];
      cornerPoints := cornerPoints[UpperRight := edited[1]];
      cornerPoints := cornerPoints[LowerRight := edited[2]];
      cornerPoints := cornerPoints[LowerLeft := edited[3]];
      WriteBackByName(old(cornerPoints), edited);
      MapRoundTrip(old(cornerPoints));
    }
  }
}
