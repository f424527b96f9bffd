/** The interaction state of app.js (the globals `mode`, `startPoint`,
    `isDrawingLine` and `actions`) and the four event handlers that change
    it: the two tool buttons, the canvas click and the mouse move. */
module Board {
  import opened Model
  import opened Geometry
  import opened Snapping
  import opened Render

  /** Every line action sits between a point action at its start and a
      point action at its end. */
  ghost predicate LinesFramed(log: seq<Action>) {
    forall i | 0 <= i < |log| && log[i].LineA? ::
      0 < i < |log| - 1 && log[i - 1] == PointA(log[i].start) && log[i + 1] == PointA(log[i].end)
  }

  lemma FramedAppendPoint(log: seq<Action>, q: Point)
    requires LinesFramed(log)
    ensures LinesFramed(log + [PointA(q)])
  {
  }

  lemma FramedAppendLine(log: seq<Action>, s: Point, q: Point)
    requires LinesFramed(log)
    requires |log| > 0 && log[|log| - 1] == PointA(s)
    ensures LinesFramed(log + [LineA(s, q), PointA(q)])
  {
    var log' := log + [LineA(s, q), PointA(q)];
    forall i | 0 <= i < |log'| && log'[i].LineA?
      ensures 0 < i < |log'| - 1 && log'[i - 1] == PointA(log'[i].start) && log'[i + 1] == PointA(log'[i].end)
    {
      if i < |log| {
        assert log'[i] == log[i];
      }
    }
  }

  /** Both endpoints of a logged line are snap targets: gravity at either
      endpoint stops at the point action beside the line or earlier. */
  lemma LineEndpointsAttract(log: seq<Action>, i: nat)
    requires LinesFramed(log)
    requires i < |log| && log[i].LineA?
    ensures FirstAttracting(log, log[i].start) <= i - 1
    ensures FirstAttracting(log, log[i].end) <= i + 1
  {
    assert Attracts(log[i - 1], log[i].start);
    assert Attracts(log[i + 1], log[i].end);
  }

  class Session {
    var mode: Mode
    var startPoint: Option<Point>
    var isDrawingLine: bool
    var actions: seq<Action>

    /** The states the handlers can reach. With no tool chosen nothing is
        pending; `isDrawingLine` means a line is pending from
        `startPoint`, whose point action is the last entry of the log; in
        line mode a start point is set exactly while a line is pending. A
        start point left over in point mode is allowed: the point button
        does not clear it. */
    ghost predicate Valid()
      reads this
    {
      (mode == NoTool ==> startPoint == None && !isDrawingLine) &&
      (isDrawingLine ==> mode == LineTool && startPoint != None) &&
      (mode == LineTool ==> (startPoint != None <==> isDrawingLine)) &&
      (isDrawingLine ==> |actions| > 0 && actions[|actions| - 1] == PointA(startPoint.value)) &&
      LinesFramed(actions)
    }

    /** The state when the page loads. */
    constructor ()
      ensures Valid()
      ensures mode == NoTool && startPoint == None && !isDrawingLine && actions == []
    {
      mode := NoTool;
      startPoint := None;
      isDrawingLine := false;
      actions := [];
    }

    /** The point button: point mode, no pending preview, and a redraw
        that wipes any preview line. `startPoint` is left as it was. */
    method SelectPoint() returns (frame: seq<DrawCmd>)
      requires Valid()
      modifies this
      ensures Valid()
      ensures mode == PointTool && !isDrawingLine
      ensures startPoint == old(startPoint) && actions == old(actions)
      ensures frame == Redraw(actions)
    {
      mode := PointTool;
      isDrawingLine := false;
      frame := Redraw(actions);
    }

    /** The line button: line mode with nothing pending. */
    method SelectLine()
      requires Valid()
      modifies this
      ensures Valid()
      ensures mode == LineTool && startPoint == None && !isDrawingLine
      ensures actions == old(actions)
    {
      mode := LineTool;
      isDrawingLine := false;
      startPoint := None;
    }

    /** `applyGravity`: scan the log for the first point within reach. */
    method ApplyGravity(p: Point) returns (r: Point)
      ensures r == Gravity(actions, p)
    {
      var i := 0;
      while i < |actions|
        invariant 0 <= i <= |actions|
        invariant forall j | 0 <= j < i :: !Attracts(actions[j], p)
      {
        var a := actions[i];
        if a.PointA? {
          if Dist2(a.at, p) < GravityThreshold * GravityThreshold {
            return a.at;
          }
        }
        i := i + 1;
      }
      return p;
    }

    /** `applyLineAttraction`, with a zero-length line treated as its
        single point (t = 0) instead of dividing 0 by 0. */
    method ApplyLineAttraction(p: Point) returns (r: Point)
      ensures r == LineAttraction(actions, startPoint, p)
    {
      if startPoint != None {
        var i := 0;
        while i < |actions|
          invariant 0 <= i <= |actions|
          invariant forall j | 0 <= j < i :: !Catches(actions[j], p)
        {
          var a := actions[i];
          if a.LineA? {
            if SegDist2(p, a.start, a.end) < LineAttractionThreshold * LineAttractionThreshold {
              var len2 := Dist2(a.end, a.start);
              var t := if len2 == 0.0 then 0.0 else Clamp01(Along(p, a.start, a.end) / len2);
              return Lerp(a.start, a.end, t);
            }
          }
          i := i + 1;
        }
      }
      return p;
    }

    /** The canvas click. The position is snapped to a logged point, and
        in line mode then onto a logged line; what happens next depends
        on the mode. `drawn` is what the handler paints. */
    method Click(raw: Point) returns (drawn: seq<DrawCmd>)
      requires Valid()
      modifies this
      ensures Valid()
      ensures mode == old(mode)
      ensures old(actions) <= actions
      ensures Paints(actions) == Paints(old(actions)) + drawn
      ensures old(mode) == NoTool ==>
                actions == old(actions) && startPoint == old(startPoint) &&
                isDrawingLine == old(isDrawingLine) && drawn == []
      ensures old(mode) == PointTool ==>
                var q := Gravity(old(actions), raw);
                actions == old(actions) + [PointA(q)] && startPoint == old(startPoint) &&
                isDrawingLine == old(isDrawingLine) && drawn == [DrawPoint(q)]
      ensures old(mode) == LineTool && old(startPoint) == None ==>
                var q := Gravity(old(actions), raw);
                actions == old(actions) + [PointA(q)] && startPoint == Some(q) &&
                isDrawingLine && drawn == [DrawPoint(q)]
      ensures old(mode) == LineTool && old(startPoint) != None ==>
                var s := old(startPoint).value;
                var q := LineAttraction(old(actions), old(startPoint), Gravity(old(actions), raw));
                actions == old(actions) + [LineA(s, q), PointA(q)] && startPoint == None &&
                !isDrawingLine && drawn == [DrawLine(s, q, Blue), DrawPoint(q)]
    {
      var q := SnapClick(raw);
      if mode == PointTool {
        drawn := LogPoint(q);
      } else if mode == LineTool {
        if startPoint == None {
          drawn := StartLine(q);
        } else {
          drawn := FinishLine(q);
        }
      } else {
        drawn := [];
      }
    }

    /** First click in line mode: log the start point and make it pending. */
    method StartLine(q: Point) returns (drawn: seq<DrawCmd>)
      requires Valid() && mode == LineTool && startPoint == None
      modifies this
      ensures Valid() && mode == LineTool
      ensures actions == old(actions) + [PointA(q)] && startPoint == Some(q) && isDrawingLine
      ensures drawn == [DrawPoint(q)] && Paints(actions) == Paints(old(actions)) + drawn
    {
      startPoint := Some(q);
      drawn := LogPoint(q);
      isDrawingLine := true;
    }

    /** Second click in line mode: log the line from the pending start to
        `q` and the point at `q`, and clear the pending start. */
    method FinishLine(q: Point) returns (drawn: seq<DrawCmd>)
      requires Valid() && mode == LineTool && startPoint != None
      modifies this
      ensures Valid() && mode == LineTool
      ensures var s := old(startPoint).value;
              actions == old(actions) + [LineA(s, q), PointA(q)] && startPoint == None && !isDrawingLine &&
              drawn == [DrawLine(s, q, Blue), DrawPoint(q)]
      ensures Paints(actions) == Paints(old(actions)) + drawn
    {
      var endPoint := q;
      drawn := LogLine(startPoint.value, endPoint);
      startPoint := None;
      isDrawingLine := false;
    }

    /** The snapping at the head of the click handler: gravity, and in
        line mode line attraction after it. */
    method SnapClick(raw: Point) returns (q: Point)
      ensures mode != LineTool ==> q == Gravity(actions, raw)
      ensures mode == LineTool ==> q == LineAttraction(actions, startPoint, Gravity(actions, raw))
    {
      q := ApplyGravity(raw);
      if mode == LineTool {
        q := ApplyLineAttraction(q);
      }
    }

    /** `drawPoint(x, y)` and `actions.push({type: 'point', x, y})`. */
    method LogPoint(q: Point) returns (drawn: seq<DrawCmd>)
      requires LinesFramed(actions)
      modifies this`actions
      ensures LinesFramed(actions)
      ensures actions == old(actions) + [PointA(q)]
      ensures drawn == [DrawPoint(q)]
      ensures Paints(actions) == Paints(old(actions)) + drawn
    {
      drawn := [DrawPoint(q)];
      FramedAppendPoint(actions, q);
      PaintsAppend(actions, [PointA(q)]);
      actions := actions + [PointA(q)];
    }

    /** `drawLine(startPoint, endPoint)`, `drawPoint(x, y)` and the two
        pushes of the second line-mode click. */
    method LogLine(s: Point, q: Point) returns (drawn: seq<DrawCmd>)
      requires LinesFramed(actions)
      requires |actions| > 0 && actions[|actions| - 1] == PointA(s)
      modifies this`actions
      ensures LinesFramed(actions)
      ensures actions == old(actions) + [LineA(s, q), PointA(q)]
      ensures drawn == [DrawLine(s, q, Blue), DrawPoint(q)]
      ensures Paints(actions) == Paints(old(actions)) + drawn
    {
      drawn := [DrawLine(s, q, Blue), DrawPoint(q)];
      FramedAppendLine(actions, s, q);
      PaintsAppend(actions, [LineA(s, q), PointA(q)]);
      actions := actions + [LineA(s, q), PointA(q)];
    }

    /** The mouse move. While a line is pending it snaps the position like
        a second click would and returns the preview segment together
        with the frame it paints: a full redraw plus the segment in gray.
        Otherwise nothing is painted. Nothing is modified. */
    method Move(raw: Point) returns (preview: Option<(Point, Point)>, frame: seq<DrawCmd>)
      requires Valid()
      ensures preview != None <==> isDrawingLine
      ensures isDrawingLine ==>
                var q := LineAttraction(actions, startPoint, Gravity(actions, raw));
                preview == Some((startPoint.value, q)) &&
                frame == Redraw(actions) + [DrawLine(startPoint.value, q, Gray)]
      ensures !isDrawingLine ==> frame == []
    {
      if mode == LineTool && isDrawingLine && startPoint != None {
        var q := ApplyGravity(raw);
        q := ApplyLineAttraction(q);
        preview := Some((startPoint.value, q));
        frame := Redraw(actions) + [DrawLine(startPoint.value, q, Gray)];
      } else {
        preview := None;
        frame := [];
      }
    }
  }
}
