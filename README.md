# DocumentScanner corner classifier and corner editor, in Dafny

This project models the two pieces of custom logic in DocumentScanner.

The first is the **corner classifier**, `DocumentScanner::findCorners`. It makes one scan over the
approximated paper polygon and finds the first leftmost, rightmost, topmost and bottommost points.
It compares the heights of the leftmost and rightmost points to choose an orientation (to left,
upright or to right). It then writes the extreme points into the `cornerPoints` map, keyed by
`CornerPoints`.

The second is the **interactive corner editor**, `CVPointMover_<int>`. It holds four points in
clockwise order from the upper left. It hit-tests a press against the nearest point and then runs
a press / move / release state machine that drags one point at a time. Each redraw draws the
quadrilateral's edges and a handle on each point.

The glue between the two is `DocumentScanner::drawLines`. It copies the corner map into the
editor's vector in the editor's slot order. The editor then handles mouse events until the quit
key arrives. Afterwards the vector is copied back into the map. Two enum-to-string helpers
complete the core.

Files:

- `geometry.dfy` (module `Geometry`): integer points and the squared Euclidean distance.
- `point_mover.dfy` (module `PointMover`):
  - the slot enum;
  - the hit tester (`FirstMinIndex` for `std::min_element`, `ClosestPoint` for
    `getClosestPoint`);
  - the redraw requests (`Frame`);
  - the editor's state as a value with a transition function (`Step`, `Replay`) and lemmas about
    it;
  - the class `CVPointMover`, whose methods are proved to follow `Step` and `Frame`.
- `point_loc_names.dfy` (module `PointLocNames`): `pointLocToString`.
- `document_scanner.dfy` (module `DocumentScanner`):
  - the orientation names;
  - the extreme-point scan (`ScanExtremes`);
  - the branch table (`Classified`);
  - the map↔vector marshalling (`ToSlots`, `FromSlots`);
  - the class `DocumentScanner`, with `SetCornerPoint`, `FindCorners` and `DrawLines`.
- `scenarios.dfy` (module `Scenarios`): worked cases proved from the contracts alone:
  - a polygon rotated to the right;
  - a polygon rotated to the left;
  - an upright square;
  - a drag;
  - a far press;
  - a hit-test tie;
  - two redraws;
  - a correction session after detection.

Modelling decisions:

- **Coordinates and distances.** Coordinates are unbounded `int`. Distances are squared integers.
  The square root is monotone, so comparing exact square roots gives the same nearest slot and
  the same ties as comparing squares. The source stores the roots as `float`, which merges distinct
  distances above about 2048 pixels; this affects only the slot remembered on a miss (see
  "## Left out"). Every distance up to 100 is exact, so hits agree. The hit threshold `minDist <= pointRadius * 5` becomes `d² <= (5 * 20)² = 10000`.
- **Statics.** `mouseEventHandler`'s function-local statics (`pointLoc`, `minDist`,
  `pActivePoint`) are fields of the editor object. They are also fields of its state value
  `EditorState`.
- **Points.** The editor's point vector is a `seq<Point>` value field. A null point vector is the
  empty sequence.
- **The quit loop.** The loop that waits for `'q'` becomes a sequence of window inputs
  (`WindowInput`). The mouse events that arrive before the first `'q'` go to the editor, in order.
  Other keys are ignored. No mouse event after the first `'q'` is handled.
- **Draw requests.** The drawing calls of a redraw (reset, `line`, `circle`, `putText`,
  `imshow`) become a list of draw requests (`DrawCommand`). `DrawLines` returns that list.

Behaviour of the code that the model keeps as it is:

- **Short or degenerate polygons.** `findCorners` does not check the polygon's size. It reads
  `approxRect[minXIdx]` and `approxRect[maxXIdx]` in every branch, so it reads `approxRect[-1]`
  on an empty polygon, when no point has x > 0, or when none has x < INT_MAX. The y indices are
  read only in the two rotated branches. `FindCorners` requires a point with x > 0, one with
  x < INT_MAX, and likewise for y. The y requirements are stronger than the upright branch needs,
  but they hold where the scanner calls `findCorners`: the contour lies inside the GrabCut
  rectangle, which starts `borderSize` pixels (2 by default) in from the image edge
  (DocumentScanner.cpp:30-33). A polygon with fewer than four points that meets the requirements
  is classified like any other.
- **The upright case.** In the upright branch no corner is written, so the map keeps what it had.
  `drawLines` reads the map through `operator[]`, so a missing corner becomes (0, 0).
  `Scenarios.ExampleUpright` and `Scenarios.ExampleUprightQuit` show this on the axis-aligned
  square.
- **A press that misses.** A press that misses still overwrites `pointLoc` and `minDist`. While
  the button is still pressed, the next move therefore drags the slot nearest to the missed press
  (`FarPressRetargetsDrag`).

## Model

| member | source | states |
|---|---|---|
| Geometry.Dist2 | CVPointMover.h:62-69 | the squared distance is zero exactly when the two points coincide |
| PointMover.SlotAt | CVPointMover.h:76 | the cast from a position to a slot gives the slot whose value is that position |
| PointMover.FirstMinIndex | CVPointMover.h:72-73 | `std::min_element`: the index is in range, its element is no larger than any element, and every earlier element is strictly larger (first minimum) |
| PointMover.ClosestPoint | CVPointMover.h:57-77 | the returned distance is the distance to the returned slot, no slot is nearer, and every lower slot is strictly farther (a tie goes to the lowest slot) |
| PointMover.MessagesHaveNoGeometry | CVPointMover.h:163-168 | the annotation lines draw no edge and no handle |
| PointMover.SlotGeometry | CVPointMover.h:155-171 | pass i of the redraw loop draws exactly the edge from slot i to slot (i + 1) mod 4 and exactly one handle, at slot i |
| PointMover.FrameGeometryUpTo | CVPointMover.h:153-172 | after n passes the redraw has drawn the first n cyclic edges and the first n handles, in order |
| PointMover.FrameGeometry | CVPointMover.h:153-158 | a full redraw draws the four edges (slot i to slot (i + 1) mod 4) in order, and a handle at the four points in slot order |
| PointMover.Step | CVPointMover.h:176-212 | one handler call keeps the vector's length and keeps "pressed implies a grabbed point" |
| PointMover.PressTargetsNearestSlot | CVPointMover.h:184-194 | a press moves no point and remembers the nearest slot (lowest on a tie) and its distance; the button becomes pressed exactly when some slot is within the threshold, and a miss leaves the status and the grabbed point as they were |
| PointMover.ReleaseLetsGo | CVPointMover.h:195-198 | a release from any state moves no point, releases the button and drops the grabbed point |
| PointMover.MoveDragsRememberedSlot | CVPointMover.h:199-208 | a move while pressed puts the remembered slot at the cursor and leaves every other point, the status and the remembered slot unchanged |
| PointMover.OtherEventsAreIgnored | CVPointMover.h:199-210 | a move while released, and any event other than a left press or release, leaves the whole state unchanged |
| PointMover.Replay | CVPointMover.h:176-212 | a series of handler calls keeps the vector's length and the pressed/grabbed invariant |
| PointMover.ReplayPointOrigins | CVPointMover.h:199-208 | after any events every point is where it was or at the cursor position of some move; slots past the fourth never change |
| PointMover.ReplayWithoutPressIsInert | CVPointMover.h:184-210 | from the released state, events without a left press move no point and keep the button released |
| PointMover.DragMovesNearestSlot | CVPointMover.h:184-206 | a press that hits, a move to q and a release leave exactly the nearest slot at q and the button released |
| PointMover.FarPressRetargetsDrag | CVPointMover.h:188-206 | a missed press while pressed keeps the button pressed, and the following move drags the slot nearest to the missed press |
| PointMover.CVPointMover.constructor | CVPointMover.h:81 | the default editor has no points, an empty window name and a released button |
| PointMover.CVPointMover.WithPoints | CVPointMover.h:82-91 | the editor takes the given points and name, starts released, and draws once; the default name `"Window"` is `PointMover.DefaultWinName`, which a caller passes explicitly |
| PointMover.CVPointMover.Copy | CVPointMover.h:103-110 | the copy takes the source's points and window name, starts released (the status is not copied), and draws once |
| PointMover.CVPointMover.Assign | CVPointMover.h:111-123 | the points and the window name are taken from the source only where the source's are non-empty, otherwise kept; the status and the drag statics are not copied |
| PointMover.CVPointMover.SetPPoints | CVPointMover.h:126-129 | only the point vector changes, to the given one |
| PointMover.CVPointMover.SetWinName | CVPointMover.h:138-141 | only the window name changes, to the given one |
| PointMover.CVPointMover.DrawLines | CVPointMover.h:148-173 | the two nested loops issue exactly the requests of a full redraw (see FrameGeometry), and the method changes no field |
| PointMover.CVPointMover.MouseEventHandler | CVPointMover.h:176-212 | the new state is Step of the old state, and a redraw is issued exactly for a move while pressed |
| PointLocNames.PointLocToString | CVPointMover.cpp:8-29 | the name is non-empty exactly for the four enumerator values; any other value gives the empty string |
| PointLocNames.UpperSlotNames | CVPointMover.cpp:13-18 | upper left is "Upper left", upper right is "Upper right" |
| PointLocNames.LowerSlotNames | CVPointMover.cpp:19-24 | lower right is "Lower right", lower left is "Lower left" |
| PointLocNames.SlotNamesDistinct | CVPointMover.cpp:13-24 | different slots have different names |
| DocumentScanner.OrientationToString | DocumentScanner.cpp:325-344 | the name is "Not a valid orientation" exactly for the unset orientation |
| DocumentScanner.OrientationNames | DocumentScanner.cpp:330-338 | the three set orientations are named "Upright", "To left" and "To right" |
| DocumentScanner.OrientationNamesDistinct | DocumentScanner.cpp:328-342 | different orientations have different names |
| DocumentScanner.FirstExtremeUnique | DocumentScanner.cpp:163-185 | the first extreme of a prefix is unique, so the scan's indices are determined by the polygon |
| DocumentScanner.KeepMax | DocumentScanner.cpp:165-169 | one comparison keeps the running maximum of the first i + 1 points: a strictly larger coordinate replaces it, an equal one does not |
| DocumentScanner.KeepMin | DocumentScanner.cpp:170-174 | one comparison keeps the running minimum of the first i + 1 points: a strictly smaller coordinate replaces it, an equal one does not |
| DocumentScanner.ScanExtremes | DocumentScanner.cpp:159-185 | each index is -1 exactly when no point beats the start value (0 for the maxima, INT_MAX for the minima); otherwise it is the first point with the largest or smallest coordinate |
| DocumentScanner.SlotOfInjective | DocumentScanner.cpp:232-237 | distinct corners go to distinct editor slots |
| DocumentScanner.ToSlots | DocumentScanner.cpp:232-237 | the vector has four entries; each corner is at the slot of its name, and a missing corner reads as (0, 0) |
| DocumentScanner.FromSlots | DocumentScanner.cpp:249-252 | the map has all four corners, each taken from the slot of its name |
| DocumentScanner.MapRoundTrip | DocumentScanner.cpp:232-252 | map to vector to map without edits gives back the map, with missing corners added as (0, 0); a complete map comes back unchanged |
| DocumentScanner.WriteBackByName | DocumentScanner.cpp:249-252 | the four write-backs, one per corner, give the map read back by name from the vector, whatever the map held |
| DocumentScanner.SlotsRoundTrip | DocumentScanner.cpp:232-252 | vector to map to vector gives back the four slots |
| DocumentScanner.DocumentScanner.constructor | DocumentScanner.cpp:14-46 | no orientation and no corners; a fresh default editor named after the corner window |
| DocumentScanner.DocumentScanner.SetCornerPoint | DocumentScanner.cpp:218-221 | only the given corner changes, to the given point |
| DocumentScanner.DocumentScanner.FindCorners | DocumentScanner.cpp:150-210 | the orientation is set; for the first leftmost, rightmost, topmost and bottommost points, a higher left point gives "to left" (UL = min x, UR = min y, LL = max y, LR = max x), a lower one gives "to right" (UL = min y, UR = max x, LL = min x, LR = max y), and equal heights give upright with the map untouched; every corner is unchanged or a point of the polygon |
| DocumentScanner.DocumentScanner.WaitForQuit | DocumentScanner.cpp:241-247 | the editor ends in the state reached by replaying, in order, the mouse events before the first 'q' |
| DocumentScanner.DocumentScanner.DrawLines | DocumentScanner.cpp:225-253 | without an orientation nothing changes; otherwise the editor replays the mouse events before the first 'q' on the corners in UL, UR, LR, LL order, and the map becomes the edited vector read back by name; with no mouse events the map round-trips |
| Scenarios.ExampleToRight | DocumentScanner.cpp:200-207 | the polygon (50,10), (300,60), (280,260), (30,220) is rotated to the right, with UL (50,10), UR (300,60), LL (30,220), LR (280,260) |
| Scenarios.ExampleToLeft | DocumentScanner.cpp:188-195 | the polygon (10,50), (60,10), (110,60), (50,100) is rotated to the left, with UL (10,50), UR (60,10), LL (50,100), LR (110,60) |
| Scenarios.ExampleUpright | DocumentScanner.cpp:196-199 | the axis-aligned square (10,10), (200,10), (200,200), (10,200) is upright, and no corner is written |
| Scenarios.ExampleUprightQuit | DocumentScanner.cpp:232-252 | quitting the editor at once after an upright detection leaves all four corners at (0, 0) |
| Scenarios.ExampleEditAfterDetection | DocumentScanner.cpp:225-253 | dragging the detected upper left corner to (40, 0) and quitting writes only that corner back changed; a move after 'q' is not handled |
| Scenarios.ExampleDrag | CVPointMover.h:184-208 | press near (100,100), move to (10,10), release: only the upper left point moves, to (10,10), and the button is released |
| Scenarios.ExampleFarPress | CVPointMover.h:188-200 | a press far from every point leaves the button released, and the following move changes no point |
| Scenarios.ExampleTieGoesToLowerSlot | CVPointMover.h:72-73 | a press equidistant from the upper left and upper right points grabs the upper left |
| Scenarios.ExampleRedrawTwice | CVPointMover.h:148-173 | two redraws with no edit between them issue the same requests, which draw the four cyclic edges and the four handles |

## Left out

- Image processing is not modelled: loading, resizing, blurring, GrabCut, contours, `approxPolyDP`, `boundingRect` and the homography. These are foreign calls on image buffers. `FindCorners` takes the approximated polygon as its input.
- Largest-contour selection and the homography side lengths are not modelled. Both are floating-point arithmetic over foreign results.
- Rendering is modelled only as draw requests. Colours, thickness, fonts, `namedWindow` and the copy of the clean image into the dirty one are not modelled. Neither is the unused `tempMat` in the move branch.
- Windowing and the blocking `waitKey` loop are modelled as a finite input sequence that contains the quit key. A session that never receives `'q'` (the loop never ends) is not modelled. Neither are the `setMouseCallback` trampolines.
- The progress spinner and its thread are concurrent console output and are not modelled. Neither are `main`, the stand-alone editor harness, nor the console messages of `findCorners` and `drawLines`.
- The `HINGES` table is never used, so it is not modelled. Note that its upper-left row lists the lower-right slot twice.
- Aliasing through `shared_ptr` is not modelled. The editor owns its point vector as a value. In the source, `drawLines` hands a shared vector to the editor and reads it back afterwards. The model reads the editor's vector back instead, which gives the same values. Dereferencing a null point vector (as `operator=` would for a source without points) is not modelled; a null vector is the empty sequence.
- `pCleanMat` and `pDirtyMat` are image buffers. They are not modelled, and neither are their setters. For the same reason `operator=` models only the points and the window name.
- `getWinName` is a plain getter and is not modelled.
- The statics of `mouseEventHandler` are shared by every editor in the process. The model keeps them per editor object, so interference between two editors is not modelled. `pActivePoint` is modelled as a copy of the grabbed point: the source writes through it on a move but never reads it.
- The `flags` and `data` parameters of the mouse handler are not modelled. The handler ignores them.
- The scanner's constructor is modelled only for the state of the corners and the editor. Image loading, its error path and window creation are not modelled.
- PointMover.ClosestPoint: the distance it returns, and the `minDist` it stores, is the squared distance, not the `float` square root. Comparisons against the threshold agree. The `float` rounding of distances above about 2048 pixels is not modelled: there the source can see a tie between two different distances and pick the lower slot, where the model picks the strictly nearer one. This affects only the slot remembered on a miss.
- PointMover.ClosestPoint, PointMover.CanHandle, PointMover.CVPointMover.MouseEventHandler, PointMover.CVPointMover.DrawLines, PointMover.CVPointMover.WithPoints, PointMover.CVPointMover.Copy and PointMover.CVPointMover.Assign require at least four points. In the source, a press, a move while pressed, or a redraw on fewer than four points throws `std::out_of_range` from `pPoints->at`, and with no vector set it dereferences a null pointer (CVPointMover.h:62-69, 155-157, 192, 205). The scanner can reach this: it registers the mouse callback on its default-constructed editor (DocumentScanner.cpp:19, 40), and the `waitKey` in `runGrabCut` (DocumentScanner.cpp:89) dispatches a click before `drawLines` has set the vector. These requires exclude that path, and the throw and the crash are not modelled.
- `orientationToString` is modelled on the four `DocOrientation` enumerators only. An out-of-range `DocOrientation` value, for which its `default:` branch returns "Not a valid orientation" (DocumentScanner.cpp:339-341), cannot be expressed with the `Orientation` datatype.
- DocumentScanner.DocumentScanner.FindCorners: coordinates are unbounded integers. Points whose coordinates exceed 32 bits cannot occur in the source, and the model does not exclude them.
