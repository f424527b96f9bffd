# GeoBoard drawing session in Dafny

GeoBoard is a browser drawing board (`app.js`). The user picks a tool, then
clicks on the canvas to place points, or clicks twice to draw a line. A gray
preview segment follows the mouse while a line is pending. Every click
position is snapped before it is used:

- *gravity* moves it onto the first logged point within 10 pixels;
- *line attraction* then, while a line is pending, moves it onto the first
  logged line within 5 pixels.

Every committed action is appended to an action log, and a redraw repaints
the whole log.

This project models that core and proves properties of it.

- `Model` (model.dfy): positions, log entries, tool modes and the two
  snapping radii.
- `Geometry` (geometry.dfy): `distanceToLineSegment` and the projection onto
  a segment.
  - All distances are squared, so `Math.sqrt(d2) < r` becomes `d2 < r * r`.
  - It proves that the clamped projection is the nearest point of the
    segment.
- `Snapping` (snapping.dfy): `applyGravity` and `applyLineAttraction` as
  first-match functions over the log.
  - It proves that gravity is not idempotent.
  - It also holds the model of the zero-length-line defect (see Findings).
- `Render` (render.dfy): `drawPoint`, `drawLine` and `redrawCanvas` as
  abstract draw commands.
- `Board` (board.dfy): the class `Session`, whose fields are the globals
  `mode`, `startPoint`, `isDrawingLine` and `actions`.
  - Its methods are the two tool buttons, the canvas click and the mouse
    move.
  - The loop methods `ApplyGravity` and `ApplyLineAttraction` are proved
    equal to the snapping functions.
  - The invariant `Valid` holds the state invariants and the shape of the
    log: every line sits between a point at its start and a point at its
    end.
- `Scenarios` (scenarios.dfy): concrete event sequences driven through
  `Session`.
  - Two line-mode clicks at (50, 50) and (150, 50).
  - A click at (53, 52) that snaps onto (50, 50).
  - A tool switch while a line is pending.
  - The zero-length line.
  - `ResnapMovesFurther`: a trace of five clicks and three tool presses
    after which re-snapping a snapped position moves it again. This shows that the failure of
    idempotence happens on logs the handlers actually build.

Three properties one might expect of the board do not hold in the code, and
the model follows the code:

- One might expect snapping to a point to be idempotent, since the result
  is a logged point. It is not: `applyGravity` (app.js:50-62) returns the
  first logged point within reach, and an earlier logged point can lie
  within 10 of that one (`Snapping.GravityNotIdempotent`,
  `Scenarios.ResnapMovesFurther`).
- One might expect the point button to discard a pending start point. It
  clears only `isDrawingLine` (app.js:21-25) and leaves `startPoint` behind.
  `Valid` therefore allows a stale start point in point mode, and
  `Scenarios.SwitchToolWhilePending` exhibits one.
- One might expect a zero-length segment to be handled everywhere, as
  `distanceToLineSegment` handles it at app.js:67. The attraction step at
  app.js:87-88 divides by zero for it (see Findings).

## Model

| member | source | states |
|---|---|---|
| Geometry.Dist2 | app.js:53-55 | the squared distance between two points, `dx * dx + dy * dy`, is never negative |
| Geometry.Dist2Zero | app.js:66-67 | the squared distance between two points is zero exactly when they coincide, so the zero-length test detects exactly a line whose endpoints are equal |
| Geometry.Clamp01 | app.js:69 | `Math.max(0, Math.min(1, s))` lies in [0, 1], is `s` itself inside [0, 1], 0 below it and 1 above it |
| Geometry.SegDist2 | app.js:65-77 | the distance to a segment is never negative, and for a zero-length segment it is the distance to its single point |
| Geometry.SegDist2Minimal | app.js:69-76 | the distance `distanceToLineSegment` returns is at most the distance from the point to any point `a + u (b - a)` with u in [0, 1], so the clamped projection is the nearest point of the segment |
| Geometry.SegDist2Endpoints | app.js:65-77 | the distance to the segment is at most the distance to either endpoint |
| Geometry.SegParam | app.js:69 | for a segment of nonzero length, the clamped projection parameter lies in [0, 1] |
| Geometry.ProjParam | app.js:87-88 | the clamped projection parameter used by line attraction lies in [0, 1]; this is the corrected rule, with t = 0 for a zero-length line (see Findings) |
| Geometry.Project | app.js:87-90 | the attracted point lies on the segment, and its distance from the position is exactly the segment distance that triggered the attraction; this is the corrected rule, which for a zero-length line gives its single point (see Findings) |
| Snapping.FirstAttracting | app.js:51-59 | the scan stops at the first point action within GravityThreshold: that entry is a point within reach, and no earlier entry is |
| Snapping.Gravity | app.js:50-62 | the input is returned unchanged when no logged point is within 10; otherwise the coordinates of the first one in log order that is; the result is the input or a logged point within reach |
| Snapping.GravityResnap | app.js:50-62 | snapping the result again lands on the same logged point or an earlier one, and a snapped position always snaps again |
| Snapping.GravityResnapMoves | app.js:50-62 | when the input is out of reach of the first of two logged points, within reach of the second, and the second is within reach of the first, gravity moves the input to the second point and then moves that to the first |
| Snapping.GravityNotIdempotent | app.js:50-62 | for every position a, with points logged at a and at a + (8, 0), the position a + (15, 0) snaps to a + (8, 0), which snaps on to a |
| Snapping.FirstCatching | app.js:82-85 | the scan stops at the first line action within LineAttractionThreshold: that entry is a line within reach, and no earlier entry is |
| Snapping.LineAttraction | app.js:80-97 | the input is returned unchanged with no start point pending or no logged line within 5; otherwise the projection onto the first line in log order within reach, which lies on that segment; the result is always within 5 of the input |
| Snapping.LineAttractionAsWritten | app.js:80-97 | the code as written, with NaN as `None`: the input comes back unchanged with no start point pending or no logged line within 5, and any point it does return is within 5 of the input |
| Snapping.LineAttractionAsWrittenAgrees | app.js:87-91 | the code as written yields NaN exactly when a start point is pending and the first line within reach has zero length; otherwise it agrees with LineAttraction |
| Snapping.DegenerateLineGivesNaN | app.js:87-88 | on the log left by three line-mode clicks on one spot, the code as written yields NaN at that spot while LineAttraction yields the spot itself |
| Render.Redraw | app.js:153-165 | a redraw clears the surface first and then paints every logged action in log order, one command each |
| Render.Paints | app.js:158-164 | a redraw paints one command per logged action, in log order: a red dot of radius 5 centred on each point, as `drawPoint` (app.js:33-38) paints it, and a blue stroke from start to end for each line, as `drawLine` (app.js:41-47) paints it |
| Render.PaintsAppend | app.js:153-165 | painting a log in two parts paints the parts one after the other |
| Board.FramedAppendPoint | app.js:115 | appending a point action keeps every line between its two endpoint points |
| Board.FramedAppendLine | app.js:128-129 | appending a line from the last logged point, followed by a point at its end, keeps every line between its two endpoint points |
| Board.LineEndpointsAttract | app.js:117-131 | in a log the handlers build, gravity at either endpoint of a logged line stops at the point action beside it or earlier |
| Board.Session.constructor | app.js:13-16 | the page starts with no tool, nothing pending and an empty log |
| Board.Session.SelectPoint | app.js:21-25 | the point button sets point mode and clears `isDrawingLine`; it leaves `startPoint` and the log as they were, and repaints the whole log without a preview |
| Board.Session.SelectLine | app.js:26-30 | the line button sets line mode and clears both `isDrawingLine` and `startPoint`; the log is unchanged |
| Board.Session.ApplyGravity | app.js:50-62 | the early-return loop computes Gravity |
| Board.Session.ApplyLineAttraction | app.js:80-97 | the early-return loop computes LineAttraction, with t = 0 for a zero-length line |
| Board.Session.SnapClick | app.js:104-110 | the click position is snapped by gravity, and in line mode then by line attraction |
| Board.Session.Click | app.js:100-134 | the click keeps `Valid` and the mode; the log only grows, and what the click paints is what a later redraw paints for the new entries. With no tool nothing changes. In point mode one point is appended at the gravity-snapped position and `startPoint` and `isDrawingLine` are left alone. The first line-mode click appends one point at the gravity-snapped position and makes it the pending start. The second appends the line from the start to the gravity-snapped, then line-attracted, position and a point there, and clears the pending state |
| Board.Session.StartLine | app.js:117-122 | the first line-mode click logs one point, makes it the pending start and starts the preview |
| Board.Session.FinishLine | app.js:123-131 | the second line-mode click logs the line from the pending start to the end, then a point at the end, and clears the pending state |
| Board.Session.LogPoint | app.js:114-115 | one point is drawn and appended, and the log keeps its shape |
| Board.Session.LogLine | app.js:126-129 | one line and its end point are drawn and appended, and the log keeps its shape |
| Board.Session.Move | app.js:137-150 | the mouse move changes nothing. While a line is pending it returns the preview segment from the start point to the position snapped as a second click would snap it, and a full redraw followed by that segment in gray. Otherwise it paints nothing |

## Left out

- Element lookup, canvas sizing and listener registration (app.js:1-10 and
  the `addEventListener` calls): these are browser plumbing. The handlers are
  methods of `Session`.
- The `ctx` calls in `drawPoint` and `drawLine`, and `clearRect` in
  `redrawCanvas`. Drawing is modelled as a list of abstract commands. The
  canvas pixels are not modelled, and neither is the fact that the line
  button does not repaint, which can leave a stale gray preview visible.
- DrawPoint, DrawLine: these are only the constructors of the abstract
  commands that stand for the `ctx` calls of app.js:33-47; what they paint
  is stated by `Render.Paints`.
- The conversion from mouse coordinates (`clientX - offsetLeft`,
  app.js:101-102, 139-140): this is host glue. Positions are inputs.
- IEEE floating point and `Math.sqrt`:
  - coordinates are real numbers;
  - squared distances are compared against 100 and 25;
  - rounding is not modelled.
- The NaN produced by the code as written is modelled only as the `None`
  result of `Snapping.LineAttractionAsWritten`. How NaN coordinates would
  then propagate through later clicks is not modelled, since the session
  uses the corrected rule.

## Findings

| source | as written | input that shows it | evidently intended | confidence | as-written member | corrected member |
|---|---|---|---|---|---|---|
| app.js:87-88 | the projection parameter is divided by the squared length of the line with no zero guard, so for a zero-length line it is 0 / 0 (NaN) and the attracted point has NaN coordinates | in line mode, click twice on one spot (the second click snaps onto the first point and logs a zero-length line), click there a third time to start a new line, then move or click at that spot | treat the zero-length line as its single point, as `distanceToLineSegment` already does at app.js:67 | not executed | Snapping.DegenerateLineGivesNaN | Snapping.LineAttraction |

`Snapping.LineAttractionAsWritten` is the code as written. It returns `None`
where JavaScript would produce NaN. `Snapping.LineAttractionAsWrittenAgrees`
shows that this happens only for that case. `Scenarios.ZeroLengthLine` drives
the input above through `Session`. The corrected rule takes t = 0 for a
zero-length line, and its properties are those of `Snapping.LineAttraction`
and `Geometry.Project` above.
