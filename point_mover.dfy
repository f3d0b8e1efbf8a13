/**
 * The interactive corner editor (CVPointMover_<int>): a vector of corner points
 * in clockwise order from the upper left, a nearest-point hit tester, and a
 * press / move / release state machine that drags one point at a time.
 *
 * The editor's state is specified as a value (EditorState) with a pure
 * transition function (Step); the class CVPointMover holds the same state in
 * fields and its methods are proved to follow Step.
 */
module PointMover {
  import opened Geometry

  datatype Option<T> = None | Some(value: T)

  /** The slots of the point vector, clockwise from the upper left, in PointLoc's declared order. */
  datatype PointLoc = UpperLeft | UpperRight | LowerRight | LowerLeft {
    /** The enumerator's value, which is also its position in the point vector. */
    function Index(): (i: nat)
      ensures i < 4
    {
      match this
      case UpperLeft => 0
      case UpperRight => 1
      case LowerRight => 2
      case LowerLeft => 3
    }
  }

  /** The slot at position i, as static_cast<PointLoc>(i). */
  function SlotAt(i: nat): (l: PointLoc)
    requires i < 4
    ensures l.Index() == i
  {
    if i == 0 then UpperLeft
    else if i == 1 then UpperRight
    else if i == 2 then LowerRight
    else LowerLeft
  }

  datatype ButtonStatus = Released | Pressed

  /** The radius of a corner handle, in pixels. */
  const PointRadius: int := 20

  /** A press grabs a point within five handle radii: minDist <= pointRadius * 5, squared. */
  const HitThreshold2: nat := (5 * PointRadius) * (5 * PointRadius)

  /** The mouse event codes the handler dispatches on (OpenCV's values). */
  const EventMouseMove: int := 0
  const EventLButtonDown: int := 1
  const EventLButtonUp: int := 4

  /*************************** Hit tester ***************************/

  /**
   * std::min_element over a non-empty sequence: the position of the first
   * smallest element (a later element replaces the candidate only when it is
   * strictly smaller).
   */
  function FirstMinIndex(d: seq<int>): (k: nat)
    requires |d| > 0
    ensures k < |d|
    ensures forall j | 0 <= j < |d| :: d[k] <= d[j]
    ensures forall j | 0 <= j < k :: d[k] < d[j]
    decreases |d|
  {
    if |d| == 1 then 0
    else
      var k := FirstMinIndex(d[..|d| - 1]);
      if d[|d| - 1] < d[k] then |d| - 1 else k
  }

  /** The distances from q to the four slots, in slot order. */
  function Distances(points: seq<Point>, q: Point): seq<nat>
    requires |points| >= 4
  {
    [Dist2(q, points[0]), Dist2(q, points[1]), Dist2(q, points[2]), Dist2(q, points[3])]
  }

  /** A hit-test result: the nearest slot and its squared distance. */
  datatype Hit = Hit(loc: PointLoc, dist2: nat)

  /**
   * getClosestPoint: the slot nearest to q and its distance. The slot's
   * distance is no larger than any other slot's, and every slot before it is
   * strictly farther, so a tie goes to the lowest slot.
   */
  function ClosestPoint(points: seq<Point>, q: Point): (h: Hit)
    requires |points| >= 4
    ensures h.dist2 == Dist2(q, points[h.loc.Index()])
    ensures forall l: PointLoc :: h.dist2 <= Dist2(q, points[l.Index()])
    ensures forall l: PointLoc :: l.Index() < h.loc.Index() ==> h.dist2 < Dist2(q, points[l.Index()])
  {
    var d := Distances(points, q);
    var k := FirstMinIndex(d);
    assert forall l: PointLoc :: d[l.Index()] == Dist2(q, points[l.Index()]);
    Hit(SlotAt(k), d[k])
  }

  /*************************** Redraw ***************************/

  /** The draw requests of one redraw; colours, thickness and fonts are not modelled. */
  datatype DrawCommand =
    | ResetCanvas                  // the overlay image becomes a fresh copy of the clean image
    | Line(from: Point, to: Point)
    | Circle(center: Point, radius: int)
    | Text(text: string, origin: Point)
    | Show(window: string)

  /** The window name the point-vector constructors use when the caller gives none. */
  const DefaultWinName: string := "Window"

  /** drawLines' default annotation lines. */
  const DefaultMessages: seq<string> := ["Press any 'q' to Extract", "Drag circles to correct"]

  /** Annotation lines start at (100, 100) and are 60 pixels apart. */
  const MessageOrigin: int := 100
  const MessageSpacing: int := 60

  /** std::to_string of a slot position. */
  function IndexLabel(i: nat): string
    requires i < 10
  {
    [('0' as int + i) as char]
  }

  /** The first n annotation lines, each at its offset below the previous one. */
  function MessageCommands(messages: seq<string>, n: nat): seq<DrawCommand>
    requires n <= |messages|
  {
    if n == 0 then []
    else
      MessageCommands(messages, n - 1)
        + [Text(messages[n - 1], Point(MessageOrigin, MessageOrigin + (n - 1) * MessageSpacing))]
  }

  /** What one pass of drawLines' loop draws for slot i. */
  function SlotCommands(points: seq<Point>, i: nat, messages: seq<string>, winName: string): seq<DrawCommand>
    requires i < 4 <= |points|
  {
    [Line(points[i], points[(i + 1) % 4]), Circle(points[i], PointRadius)]
      + MessageCommands(messages, |messages|)
      + [Text(IndexLabel(i), points[i]), Show(winName)]
  }

  /** The requests of a redraw after its first n loop passes. */
  function FrameUpTo(points: seq<Point>, n: nat, messages: seq<string>, winName: string): seq<DrawCommand>
    requires n <= 4 <= |points|
  {
    if n == 0 then [ResetCanvas]
    else FrameUpTo(points, n - 1, messages, winName) + SlotCommands(points, n - 1, messages, winName)
  }

  /** The requests of a full redraw. */
  function Frame(points: seq<Point>, messages: seq<string>, winName: string): seq<DrawCommand>
    requires 4 <= |points|
  {
    FrameUpTo(points, 4, messages, winName)
  }

  /** The edges a list of requests draws, in order. */
  function LinesOf(cmds: seq<DrawCommand>): seq<(Point, Point)>
  {
    if cmds == [] then []
    else (if cmds[0].Line? then [(cmds[0].from, cmds[0].to)] else []) + LinesOf(cmds[1..])
  }

  /** The handle centres a list of requests draws, in order. */
  function HandlesOf(cmds: seq<DrawCommand>): seq<Point>
  {
    if cmds == [] then []
    else (if cmds[0].Circle? then [cmds[0].center] else []) + HandlesOf(cmds[1..])
  }

  /** The quadrilateral's edges: slot i is joined to slot (i + 1) mod 4. */
  function CyclicEdges(points: seq<Point>): seq<(Point, Point)>
    requires |points| >= 4
  {
    seq(4, i requires 0 <= i < 4 => (points[i], points[(i + 1) % 4]))
  }

  /** The edges and handles of two request lists drawn one after the other. */
  lemma GeometryOfConcat(a: seq<DrawCommand>, b: seq<DrawCommand>)
    ensures LinesOf(a + b) == LinesOf(a) + LinesOf(b)
    ensures HandlesOf(a + b) == HandlesOf(a) + HandlesOf(b)
  {
    LinesOfConcat(a, b);
    HandlesOfConcat(a, b);
  }

  lemma {:induction false} LinesOfConcat(a: seq<DrawCommand>, b: seq<DrawCommand>)
    ensures LinesOf(a + b) == LinesOf(a) + LinesOf(b)
    decreases |a|
  {
    if a == [] {
      assert a + b == b;
    } else {
      assert (a + b)[0] == a[0];
      assert (a + b)[1..] == a[1..] + b;
      LinesOfConcat(a[1..], b);
    }
  }

  lemma {:induction false} HandlesOfConcat(a: seq<DrawCommand>, b: seq<DrawCommand>)
    ensures HandlesOf(a + b) == HandlesOf(a) + HandlesOf(b)
    decreases |a|
  {
    if a == [] {
      assert a + b == b;
    } else {
      assert (a + b)[0] == a[0];
      assert (a + b)[1..] == a[1..] + b;
      HandlesOfConcat(a[1..], b);
    }
  }

  lemma GeometryOfOne(c: DrawCommand)
    ensures LinesOf([c]) == if c.Line? then [(c.from, c.to)] else []
    ensures HandlesOf([c]) == if c.Circle? then [c.center] else []
  {
    assert [c][1..] == [];
  }

  /** Annotation text draws no edge and no handle. */
  lemma {:induction false} MessagesHaveNoGeometry(messages: seq<string>, n: nat)
    requires n <= |messages|
    ensures LinesOf(MessageCommands(messages, n)) == []
    ensures HandlesOf(MessageCommands(messages, n)) == []
  {
    if n > 0 {
      var prefix := MessageCommands(messages, n - 1);
      var last := Text(messages[n - 1], Point(MessageOrigin, MessageOrigin + (n - 1) * MessageSpacing));
      assert MessageCommands(messages, n) == prefix + [last];
      MessagesHaveNoGeometry(messages, n - 1);
      GeometryOfOne(last);
      GeometryOfConcat(prefix, [last]);
    }
  }

  /** Pass i of the loop draws exactly the edge from slot i to slot i + 1 (mod 4) and the handle of slot i. */
  lemma SlotGeometry(points: seq<Point>, i: nat, messages: seq<string>, winName: string)
    requires i < 4 <= |points|
    ensures LinesOf(SlotCommands(points, i, messages, winName)) == [(points[i], points[(i + 1) % 4])]
    ensures HandlesOf(SlotCommands(points, i, messages, winName)) == [points[i]]
  {
    var line := [Line(points[i], points[(i + 1) % 4])];
    var handle := [Circle(points[i], PointRadius)];
    var msgs := MessageCommands(messages, |messages|);
    var number := [Text(IndexLabel(i), points[i])];
    var show := [Show(winName)];
    assert SlotCommands(points, i, messages, winName) == line + handle + msgs + number + show;
    GeometryOfOne(line[0]);
    GeometryOfOne(handle[0]);
    GeometryOfOne(number[0]);
    GeometryOfOne(show[0]);
    MessagesHaveNoGeometry(messages, |messages|);
    GeometryOfConcat(line, handle);
    GeometryOfConcat(line + handle, msgs);
    GeometryOfConcat(line + handle + msgs, number);
    GeometryOfConcat(line + handle + msgs + number, show);
  }

  /**
   * A redraw draws the four edges of the quadrilateral in cyclic order and a
   * handle at each of the four points, in slot order.
   */
  lemma FrameGeometry(points: seq<Point>, messages: seq<string>, winName: string)
    requires |points| >= 4
    ensures LinesOf(Frame(points, messages, winName)) == CyclicEdges(points)
    ensures HandlesOf(Frame(points, messages, winName)) == points[..4]
  {
    FrameGeometryUpTo(points, 4, messages, winName);
    assert points[..4] == [points[0], points[1], points[2], points[3]];
  }

  /** After n passes a redraw has drawn the first n edges and handles. */
  lemma {:induction false} FrameGeometryUpTo(points: seq<Point>, n: nat, messages: seq<string>, winName: string)
    requires n <= 4 <= |points|
    ensures LinesOf(FrameUpTo(points, n, messages, winName)) == CyclicEdges(points)[..n]
    ensures HandlesOf(FrameUpTo(points, n, messages, winName)) == points[..n]
  {
    if n == 0 {
      GeometryOfOne(ResetCanvas);
    } else {
      var before := FrameUpTo(points, n - 1, messages, winName);
      var pass := SlotCommands(points, n - 1, messages, winName);
      FrameGeometryUpTo(points, n - 1, messages, winName);
      SlotGeometry(points, n - 1, messages, winName);
      GeometryOfConcat(before, pass);
      assert CyclicEdges(points)[..n] == CyclicEdges(points)[..n - 1] + [CyclicEdges(points)[n - 1]];
      assert points[..n] == points[..n - 1] + [points[n - 1]];
    }
  }

  /*************************** State machine ***************************/

  /**
   * The editor's state: the point vector, the button status, and the three
   * function-local statics of mouseEventHandler (the remembered slot, the last
   * hit-test distance, and the copy of the grabbed point).
   */
  datatype EditorState = EditorState(
    points: seq<Point>,
    status: ButtonStatus,
    pointLoc: PointLoc,
    minDist: nat,
    activePoint: Option<Point>)

  /** While the button is pressed there is a grabbed point (pActivePoint is not null). */
  predicate Consistent(s: EditorState)
  {
    s.status == Pressed ==> s.activePoint.Some?
  }

  /**
   * What an event needs of the state: a press hit-tests slots 0..3, and a move
   * while pressed writes a slot and redraws slots 0..3.
   */
  predicate CanHandle(s: EditorState, event: int)
  {
    (event == EventLButtonDown || (event == EventMouseMove && s.status == Pressed)) ==> |s.points| >= 4
  }

  /** One call of mouseEventHandler. */
  function Step(s: EditorState, event: int, q: Point): (r: EditorState)
    requires CanHandle(s, event)
    ensures |r.points| == |s.points|
    ensures Consistent(s) ==> Consistent(r)
  {
    if event == EventLButtonDown then
      var h := ClosestPoint(s.points, q);
      if h.dist2 <= HitThreshold2 then
        s.(status := Pressed, pointLoc := h.loc, minDist := h.dist2, activePoint := Some(s.points[h.loc.Index()]))
      else
        s.(pointLoc := h.loc, minDist := h.dist2)
    else if event == EventLButtonUp then
      s.(status := Released, activePoint := None)
    else if event == EventMouseMove && s.status == Pressed then
      s.(points := s.points[s.pointLoc.Index() := q], activePoint := Some(q))
    else
      s
  }

  /**
   * A press remembers the nearest slot (the lowest one on a tie) and its
   * distance, whether or not it hits. It grabs that slot exactly when some
   * slot lies within the threshold; on a miss the button status is unchanged,
   * so a far press while pressed only retargets the drag. No point moves.
   */
  lemma PressTargetsNearestSlot(s: EditorState, q: Point)
    requires |s.points| >= 4
    ensures var r := Step(s, EventLButtonDown, q);
      && r.points == s.points
      && r.minDist == Dist2(q, s.points[r.pointLoc.Index()])
      && (forall l: PointLoc :: r.minDist <= Dist2(q, s.points[l.Index()]))
      && (forall l: PointLoc :: l.Index() < r.pointLoc.Index() ==> r.minDist < Dist2(q, s.points[l.Index()]))
      && ((exists l: PointLoc :: Dist2(q, s.points[l.Index()]) <= HitThreshold2) ==>
            r.status == Pressed && r.activePoint == Some(s.points[r.pointLoc.Index()]))
      && ((forall l: PointLoc :: Dist2(q, s.points[l.Index()]) > HitThreshold2) ==>
            r.status == s.status && r.activePoint == s.activePoint)
  {
  }

  /** A release lets go from any state and moves no point. */
  lemma ReleaseLetsGo(s: EditorState, q: Point)
    ensures var r := Step(s, EventLButtonUp, q);
      r.points == s.points && r.status == Released && r.activePoint == None && r.pointLoc == s.pointLoc
  {
  }

  /** A move while pressed puts the remembered slot at q; the other points and the status stay. */
  lemma MoveDragsRememberedSlot(s: EditorState, q: Point)
    requires |s.points| >= 4 && s.status == Pressed
    ensures var r := Step(s, EventMouseMove, q);
      && |r.points| == |s.points|
      && r.points[s.pointLoc.Index()] == q
      && (forall i | 0 <= i < |s.points| && i != s.pointLoc.Index() :: r.points[i] == s.points[i])
      && r.status == Pressed && r.pointLoc == s.pointLoc
  {
  }

  /** A move while released, and every event other than a left press, a left release or a move, changes nothing. */
  lemma OtherEventsAreIgnored(s: EditorState, event: int, q: Point)
    requires event != EventLButtonDown && event != EventLButtonUp
    requires event == EventMouseMove ==> s.status == Released
    ensures Step(s, event, q) == s
  {
  }

  /** A mouse event as the window delivers it. */
  datatype MouseEvent = MouseEvent(event: int, x: int, y: int)

  /** The state after a series of events, handled in order. */
  function Replay(s: EditorState, events: seq<MouseEvent>): (r: EditorState)
    requires |s.points| >= 4
    ensures |r.points| == |s.points|
    ensures Consistent(s) ==> Consistent(r)
    decreases |events|
  {
    if events == [] then s
    else Replay(Step(s, events[0].event, Point(events[0].x, events[0].y)), events[1..])
  }

  /**
   * After any series of events, each point is either where it was or at the
   * location of one of the move events; slots past the fourth never change.
   */
  lemma {:induction false} ReplayPointOrigins(s: EditorState, events: seq<MouseEvent>, i: nat)
    requires |s.points| >= 4 && i < |s.points|
    ensures var r := Replay(s, events);
      || r.points[i] == s.points[i]
      || exists e | e in events :: e.event == EventMouseMove && r.points[i] == Point(e.x, e.y)
    ensures 4 <= i ==> Replay(s, events).points[i] == s.points[i]
    decreases |events|
  {
    if events != [] {
      var e := events[0];
      var s' := Step(s, e.event, Point(e.x, e.y));
      ReplayPointOrigins(s', events[1..], i);
      assert forall e' | e' in events[1..] :: e' in events;
    }
  }

  /** From the released state, events without a left press never move a point. */
  lemma {:induction false} ReplayWithoutPressIsInert(s: EditorState, events: seq<MouseEvent>)
    requires |s.points| >= 4 && s.status == Released
    requires forall e | e in events :: e.event != EventLButtonDown
    ensures Replay(s, events).points == s.points
    ensures Replay(s, events).status == Released
    decreases |events|
  {
    if events != [] {
      var e := events[0];
      var s' := Step(s, e.event, Point(e.x, e.y));
      assert s'.points == s.points && s'.status == Released;
      assert forall e' | e' in events[1..] :: e' in events;
      ReplayWithoutPressIsInert(s', events[1..]);
    }
  }

  /**
   * A drag: a press that hits, a move to q and a release leave the nearest
   * slot at q, every other point where it was, and the button released.
   */
  lemma DragMovesNearestSlot(s: EditorState, press: Point, q: Point)
    requires |s.points| >= 4
    requires ClosestPoint(s.points, press).dist2 <= HitThreshold2
    ensures var r := Replay(s, [MouseEvent(EventLButtonDown, press.x, press.y),
                                MouseEvent(EventMouseMove, q.x, q.y),
                                MouseEvent(EventLButtonUp, q.x, q.y)]);
      r.points == s.points[ClosestPoint(s.points, press).loc.Index() := q] && r.status == Released
  {
    var events := [MouseEvent(EventLButtonDown, press.x, press.y),
                   MouseEvent(EventMouseMove, q.x, q.y),
                   MouseEvent(EventLButtonUp, q.x, q.y)];
    var s1 := Step(s, EventLButtonDown, press);
    var s2 := Step(s1, EventMouseMove, q);
    var s3 := Step(s2, EventLButtonUp, q);
    assert events[1..][1..][1..] == [];
    calc {
      Replay(s, events);
      Replay(s1, events[1..]);
      Replay(s2, events[1..][1..]);
      Replay(s3, events[1..][1..][1..]);
      s3;
    }
  }

  /**
   * A press that misses while the button is still pressed keeps the drag
   * going but retargets it: the next move drags the slot nearest to the
   * missed press, not the slot that was grabbed.
   */
  lemma FarPressRetargetsDrag(s: EditorState, press: Point, q: Point)
    requires |s.points| >= 4 && s.status == Pressed
    requires ClosestPoint(s.points, press).dist2 > HitThreshold2
    ensures var r := Replay(s, [MouseEvent(EventLButtonDown, press.x, press.y),
                                MouseEvent(EventMouseMove, q.x, q.y)]);
      r.points == s.points[ClosestPoint(s.points, press).loc.Index() := q] && r.status == Pressed
  {
    var events := [MouseEvent(EventLButtonDown, press.x, press.y), MouseEvent(EventMouseMove, q.x, q.y)];
    var s1 := Step(s, EventLButtonDown, press);
    var s2 := Step(s1, EventMouseMove, q);
    assert events[1..][1..] == [];
    calc {
      Replay(s, events);
      Replay(s1, events[1..]);
      Replay(s2, events[1..][1..]);
      s2;
    }
  }

  /*************************** The editor object ***************************/

  class CVPointMover {
    /** The corner points, from the upper left clockwise; an unset vector is empty. */
    var pPoints: seq<Point>
    var winName: string
    var btnStatus: ButtonStatus
    // mouseEventHandler's function-local statics, held by the editor
    var pointLoc: PointLoc
    var minDist: nat
    var activePoint: Option<Point>

    function State(): EditorState
      reads this
    {
      EditorState(pPoints, btnStatus, pointLoc, minDist, activePoint)
    }

    ghost predicate Valid()
      reads this
    {
      Consistent(State())
    }

    /** The default constructor: no points yet, button released. */
    constructor ()
      ensures Valid()
      ensures pPoints == [] && winName == "" && btnStatus == Released && activePoint == None
    {
      pPoints := [];
      winName := "";
      btnStatus := Released;
      pointLoc := UpperLeft;
      minDist := 0;
      activePoint := None;
    }

    /** The constructor from a point vector and a window name; it draws the overlay once. */
    constructor WithPoints(points: seq<Point>, name: string)
      requires |points| >= 4
      ensures Valid()
      ensures pPoints == points && winName == name && btnStatus == Released && activePoint == None
    {
      pPoints := points;
      winName := name;
      btnStatus := Released;
      pointLoc := UpperLeft;
      minDist := 0;
      activePoint := None;
      new;
      var _ := DrawLines(DefaultMessages);
    }

    /** The copy constructor: shares the source's points and window name, starts released, and draws. */
    constructor Copy(src: CVPointMover)
      requires |src.pPoints| >= 4
      ensures Valid()
      ensures pPoints == src.pPoints && winName == src.winName && btnStatus == Released && activePoint == None
    {
      pPoints := src.pPoints;
      winName := src.winName;
      btnStatus := Released;
      pointLoc := UpperLeft;
      minDist := 0;
      activePoint := None;
      new;
      var _ := DrawLines(DefaultMessages);
    }

    /**
     * Assignment takes the source's points and window name only where the
     * source's are non-empty, keeps its own otherwise, and redraws. The button
     * status and the drag statics are not copied.
     */
    method Assign(src: CVPointMover)
      requires Valid()
      requires |if src.pPoints != [] then src.pPoints else pPoints| >= 4
      modifies this
      ensures Valid()
      ensures pPoints == if old(src.pPoints) != [] then old(src.pPoints) else old(pPoints)
      ensures winName == if old(src.winName) != "" then old(src.winName) else old(winName)
      ensures btnStatus == old(btnStatus) && pointLoc == old(pointLoc)
      ensures minDist == old(minDist) && activePoint == old(activePoint)
    {
      if src.pPoints != [] {
        pPoints := src.pPoints;
      }
      if src.winName != "" {
        winName := src.winName;
      }
      var _ := DrawLines(DefaultMessages);
    }

    method SetPPoints(points: seq<Point>)
      requires Valid()
      modifies this
      ensures Valid()
      ensures State() == old(State()).(points := points) && winName == old(winName)
    {
      pPoints := points;
    }

    method SetWinName(name: string)
      modifies this
      ensures winName == name && State() == old(State())
    {
      winName := name;
    }

    /**
     * drawLines: the overlay is reset, then for each slot i the edge to slot
     * (i + 1) mod 4, the handle, the annotation lines, the slot's number, and
     * the window is shown. It reads the points and changes nothing.
     */
    method DrawLines(messages: seq<string>) returns (frame: seq<DrawCommand>)
      requires |pPoints| >= 4
      ensures frame == Frame(pPoints, messages, winName)
    {
      frame := [ResetCanvas];
      for i := 0 to 4
        invariant frame == FrameUpTo(pPoints, i, messages, winName)
      {
        frame := frame + [Line(pPoints[i], pPoints[(i + 1) % 4]), Circle(pPoints[i], PointRadius)];
        ghost var head := frame;
        var yPlus := 0;
        var j := 0;
        while j < |messages|
          invariant 0 <= j <= |messages|
          invariant yPlus == j * MessageSpacing
          invariant frame == head + MessageCommands(messages, j)
        {
          frame := frame + [Text(messages[j], Point(MessageOrigin, MessageOrigin + yPlus))];
          yPlus := yPlus + MessageSpacing;
          j := j + 1;
        }
        frame := frame + [Text(IndexLabel(i), pPoints[i]), Show(winName)];
      }
    }

    /**
     * mouseEventHandler: a left press hit-tests and may grab the nearest slot,
     * a left release lets go, a move while pressed drags the remembered slot
     * to (x, y) and redraws; everything else is ignored.
     */
    method MouseEventHandler(event: int, x: int, y: int) returns (frame: seq<DrawCommand>)
      requires Valid()
      requires CanHandle(State(), event)
      modifies this
      ensures Valid()
      ensures State() == Step(old(State()), event, Point(x, y))
      ensures winName == old(winName)
      ensures frame == if event == EventMouseMove && old(btnStatus) == Pressed
                       then Frame(pPoints, DefaultMessages, winName) else []
    {
      frame := [];
      if event == EventLButtonDown {
        var hit := ClosestPoint(pPoints, Point(x, y));
        pointLoc, minDist := hit.loc, hit.dist2;
        if minDist <= HitThreshold2 {
          btnStatus := Pressed;
          activePoint := Some(pPoints[pointLoc.Index()]);
        }
      } else if event == EventLButtonUp {
        btnStatus := Released;
        activePoint := None;
      } else if event == EventMouseMove {
        if btnStatus == Pressed {
          activePoint := Some(Point(x, y));
          pPoints := pPoints[pointLoc.Index() := Point(x, y)];
          frame := DrawLines(DefaultMessages);
        }
      }
    }
  }
}
