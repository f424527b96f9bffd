/** The drawing side of app.js as abstract commands for the canvas:
    `drawPoint`, `drawLine` and `redrawCanvas`. */
module Render {
  import opened Model

  datatype Color = Red | Blue | Gray

  datatype DrawCmd =
    | ClearSurface
    | FillCircle(center: Point, radius: real, color: Color)
    | StrokeSegment(from: Point, to: Point, color: Color)

  /** Radius of the dot that marks a point. */
  const PointRadius: real := 5.0

  /** `drawPoint`: a red dot of radius PointRadius. */
  function DrawPoint(p: Point): DrawCmd {
    FillCircle(p, PointRadius, Red)
  }

  /** `drawLine`: a stroke in the given colour (blue unless a caller asks
      otherwise). */
  function DrawLine(start: Point, end: Point, color: Color): DrawCmd {
    StrokeSegment(start, end, color)
  }

  /** The command `redrawCanvas` issues for one logged action. */
  function Paint(a: Action): DrawCmd {
    match a
    case PointA(p) => DrawPoint(p)
    case LineA(s, e) => DrawLine(s, e, Blue)
  }

  /** What `redrawCanvas` paints for a log after clearing: one command per
      action, in log order, a red dot of radius PointRadius at each point
      and a blue stroke along each line. */
  function Paints(log: seq<Action>): (cmds: seq<DrawCmd>)
    ensures |cmds| == |log|
    ensures forall i | 0 <= i < |log| :: cmds[i] == Paint(log[i])
    ensures forall i | 0 <= i < |log| && log[i].PointA? ::
      cmds[i] == FillCircle(log[i].at, PointRadius, Red)
    ensures forall i | 0 <= i < |log| && log[i].LineA? ::
      cmds[i] == StrokeSegment(log[i].start, log[i].end, Blue)
  {
    if log == [] then [] else [Paint(log[0])] + Paints(log[1..])
  }

  /** `redrawCanvas`: clear the surface, then paint the whole log. */
  function Redraw(log: seq<Action>): (frame: seq<DrawCmd>)
    ensures |frame| == |log| + 1 && frame[0] == ClearSurface
    ensures forall i | 0 <= i < |log| :: frame[i + 1] == Paint(log[i])
  {
    [ClearSurface] + Paints(log)
  }

  /** Painting a log in two parts paints the parts one after the other,
      so what a handler paints for the actions it appends is what a later
      redraw paints for them. */
  lemma {:induction false} PaintsAppend(a: seq<Action>, b: seq<Action>)
    ensures Paints(a + b) == Paints(a) + Paints(b)
  {
    if a != [] {
      assert (a + b)[1..] == a[1..] + b;
      PaintsAppend(a[1..], b);
    }
  }
}
