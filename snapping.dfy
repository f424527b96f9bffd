/** The two snapping rules of the drawing board. Both scan the action log
    in insertion order and stop at the first entry that qualifies. */
module Snapping {
  import opened Model
  import opened Geometry

  /** A logged point pulls `p` when it lies strictly within
      GravityThreshold of it. */
  predicate Attracts(a: Action, p: Point) {
    a.PointA? && Dist2(a.at, p) < GravityThreshold * GravityThreshold
  }

  /** A logged line catches `p` when `p` lies strictly within
      LineAttractionThreshold of the segment. */
  predicate Catches(a: Action, p: Point) {
    a.LineA? && SegDist2(p, a.start, a.end) < LineAttractionThreshold * LineAttractionThreshold
  }

  /** Index of the first point action that attracts `p`, or `|log|`. */
  function FirstAttracting(log: seq<Action>, p: Point): (k: nat)
    ensures k <= |log|
    ensures k < |log| ==> Attracts(log[k], p)
    ensures forall j | 0 <= j < k :: !Attracts(log[j], p)
  {
    if log == [] then 0
    else if Attracts(log[0], p) then 0
    else 1 + FirstAttracting(log[1..], p)
  }

  /** Index of the first line action that catches `p`, or `|log|`. */
  function FirstCatching(log: seq<Action>, p: Point): (k: nat)
    ensures k <= |log|
    ensures k < |log| ==> Catches(log[k], p)
    ensures forall j | 0 <= j < k :: !Catches(log[j], p)
  {
    if log == [] then 0
    else if Catches(log[0], p) then 0
    else 1 + FirstCatching(log[1..], p)
  }

  /** `applyGravity`: the coordinates of the first logged point within
      GravityThreshold of `p`, or `p` itself when there is none. */
  function Gravity(log: seq<Action>, p: Point): (r: Point)
    ensures (forall j | 0 <= j < |log| :: !Attracts(log[j], p)) ==> r == p
    ensures forall k | 0 <= k < |log| && Attracts(log[k], p) && (forall j | 0 <= j < k :: !Attracts(log[j], p)) ::
              r == log[k].at
    ensures r == p || Dist2(r, p) < GravityThreshold * GravityThreshold
  {
    var k := FirstAttracting(log, p);
    if k < |log| then log[k].at else p
  }

  /** `applyLineAttraction` with the zero-length segment mapped to its
      single point: with no pending start point, or with no logged line
      within LineAttractionThreshold, `p` itself; otherwise the nearest
      point of the first such line. */
  function LineAttraction(log: seq<Action>, start: Option<Point>, p: Point): (r: Point)
    ensures start == None ==> r == p
    ensures (forall j | 0 <= j < |log| :: !Catches(log[j], p)) ==> r == p
    ensures start != None ==>
              forall k | 0 <= k < |log| && Catches(log[k], p) && (forall j | 0 <= j < k :: !Catches(log[j], p)) ::
                r == Project(p, log[k].start, log[k].end) && OnSegment(r, log[k].start, log[k].end)
    ensures Dist2(p, r) < LineAttractionThreshold * LineAttractionThreshold
  {
    if start == None then p
    else
      var k := FirstCatching(log, p);
      if k < |log| then Project(p, log[k].start, log[k].end) else p
  }

  /** Re-snapping a snapped position lands on the same logged point or on
      an earlier one, and a snapped position always snaps again. */
  lemma GravityResnap(log: seq<Action>, p: Point)
    ensures FirstAttracting(log, Gravity(log, p)) <= FirstAttracting(log, p)
    ensures FirstAttracting(log, p) < |log| ==> FirstAttracting(log, Gravity(log, p)) < |log|
  {
    var k := FirstAttracting(log, p);
    if k < |log| {
      var r := Gravity(log, p);
      assert r == log[k].at;
      assert Attracts(log[k], r);
    }
  }

  /** Gravity is not idempotent: when `p` is out of reach of the first
      of two logged points but within reach of the second, and the second
      is within reach of the first, `p` snaps to the second point and
      that snaps again to the first. */
  lemma GravityResnapMoves(a: Point, b: Point, p: Point)
    requires GravityThreshold * GravityThreshold <= Dist2(a, p)
    requires Dist2(b, p) < GravityThreshold * GravityThreshold
    requires Dist2(a, b) < GravityThreshold * GravityThreshold
    ensures Gravity([PointA(a), PointA(b)], p) == b
    ensures Gravity([PointA(a), PointA(b)], b) == a
  {
    var log := [PointA(a), PointA(b)];
    assert !Attracts(log[0], p) && Attracts(log[1], p);
    assert Attracts(log[0], b);
  }

  /** An instance of GravityResnapMoves anywhere on the board: logged
      points 8 apart on a horizontal line and a position 7 beyond the
      second. */
  lemma GravityNotIdempotent(a: Point)
    ensures var b := Point(a.x + 8.0, a.y);
            var log := [PointA(a), PointA(b)];
            var r := Gravity(log, Point(a.x + 15.0, a.y));
            r == b && Gravity(log, r) == a
  {
    var b := Point(a.x + 8.0, a.y);
    var p := Point(a.x + 15.0, a.y);
    assert Dist2(a, p) == 225.0;
    assert Dist2(b, p) == 49.0;
    assert Dist2(a, b) == 64.0;
    GravityResnapMoves(a, b, p);
  }

  /** `applyLineAttraction` exactly as app.js:80-97 computes it. The
      projection parameter divides by the squared length of the line
      with no guard, so for a zero-length line JavaScript evaluates
      0 / 0 and every coordinate of the result becomes NaN; that outcome
      is `None` here. */
  function LineAttractionAsWritten(log: seq<Action>, start: Option<Point>, p: Point): (r: Option<Point>)
    ensures start == None ==> r == Some(p)
    ensures (forall j | 0 <= j < |log| :: !Catches(log[j], p)) ==> r == Some(p)
    ensures r != None ==> Dist2(p, r.value) < LineAttractionThreshold * LineAttractionThreshold
  {
    if start == None then Some(p)
    else
      var k := FirstCatching(log, p);
      if k == |log| then Some(p)
      else
        var a, b := log[k].start, log[k].end;
        if Dist2(b, a) == 0.0 then None
        else
          assert Lerp(a, b, SegParam(p, a, b)) == Project(p, a, b);
          Some(Lerp(a, b, SegParam(p, a, b)))
  }

  /** The code as written fails exactly when a start point is pending and
      the first line within reach has zero length; in every other case it
      agrees with LineAttraction. */
  lemma LineAttractionAsWrittenAgrees(log: seq<Action>, start: Option<Point>, p: Point)
    ensures LineAttractionAsWritten(log, start, p) != None ==>
              LineAttractionAsWritten(log, start, p) == Some(LineAttraction(log, start, p))
    ensures LineAttractionAsWritten(log, start, p) == None <==>
              start != None &&
              exists k | 0 <= k < |log| ::
                Catches(log[k], p) && (forall j | 0 <= j < k :: !Catches(log[j], p)) && log[k].start == log[k].end
  {
    if start != None {
      var k := FirstCatching(log, p);
      if k < |log| {
        assert Catches(log[k], p) && (forall j | 0 <= j < k :: !Catches(log[j], p));
        Dist2Zero(log[k].end, log[k].start);
      }
    }
  }

  /** Two line-mode clicks on the same spot log a zero-length line; a
      later pending line whose end comes near that spot gets NaN
      coordinates from the code as written, while the corrected rule
      snaps onto the spot itself. */
  lemma DegenerateLineGivesNaN(a: Point)
    ensures var log := [PointA(a), LineA(a, a), PointA(a), PointA(a)];
            LineAttractionAsWritten(log, Some(a), a) == None && LineAttraction(log, Some(a), a) == a
  {
    var log := [PointA(a), LineA(a, a), PointA(a), PointA(a)];
    assert Catches(log[1], a);
    assert !Catches(log[0], a);
    LineAttractionAsWrittenAgrees(log, Some(a), a);
    assert Project(a, a, a) == a;
  }
}
