/** Short event sequences driven through Session, each checking the log
    and state the handlers leave behind. */
module Scenarios {
  import opened Model
  import opened Geometry
  import opened Snapping
  import opened Board

  /** A click at (100, 100) in point mode logs exactly that point. */
  method PointModeClick() {
    var s := new Session();
    var _ := s.SelectPoint();
    var drawn := s.Click(Point(100.0, 100.0));
    assert s.actions == [PointA(Point(100.0, 100.0))];
    assert |drawn| == 1;
  }

  /** Two line-mode clicks log the start point, the line and the end
      point, and leave nothing pending. */
  method LineModeTwoClicks() {
    var s := new Session();
    s.SelectLine();
    var _ := s.Click(Point(50.0, 50.0));
    assert s.actions == [PointA(Point(50.0, 50.0))];
    assert Dist2(Point(50.0, 50.0), Point(150.0, 50.0)) == 10000.0;
    assert Gravity(s.actions, Point(150.0, 50.0)) == Point(150.0, 50.0);
    assert !Catches(s.actions[0], Point(150.0, 50.0));
    assert LineAttraction(s.actions, s.startPoint, Point(150.0, 50.0)) == Point(150.0, 50.0);
    var d1 := s.Click(Point(150.0, 50.0));
    assert s.actions == [PointA(Point(50.0, 50.0)), LineA(Point(50.0, 50.0), Point(150.0, 50.0)),
                         PointA(Point(150.0, 50.0))];
    assert s.startPoint == None && !s.isDrawingLine;
  }

  /** A click at (53, 52) next to a logged (50, 50) lands exactly on it. */
  method SnapOntoLoggedPoint() {
    var s := new Session();
    var _ := s.SelectPoint();
    var d2 := s.Click(Point(50.0, 50.0));
    assert Dist2(Point(50.0, 50.0), Point(53.0, 52.0)) == 13.0;
    var d3 := s.Click(Point(53.0, 52.0));
    assert s.actions == [PointA(Point(50.0, 50.0)), PointA(Point(50.0, 50.0))];
  }

  /** Switching to the point tool with a line pending stops the preview
      and the next click logs a point, not a line; the stale start point
      stays behind. */
  method SwitchToolWhilePending() {
    var s := new Session();
    s.SelectLine();
    var _ := s.Click(Point(50.0, 50.0));
    var d4 := s.SelectPoint();
    var preview, frame := s.Move(Point(70.0, 50.0));
    assert preview == None && frame == [];
    assert Dist2(Point(50.0, 50.0), Point(150.0, 50.0)) == 10000.0;
    var d5 := s.Click(Point(150.0, 50.0));
    assert s.actions == [PointA(Point(50.0, 50.0)), PointA(Point(150.0, 50.0))];
    assert s.startPoint == Some(Point(50.0, 50.0));
  }

  /** Three line-mode clicks on one spot log a zero-length line and leave
      a new line pending from that spot; a mouse move onto the spot then
      makes the code as written produce NaN coordinates. */
  method ZeroLengthLine(a: Point) {
    var s := new Session();
    s.SelectLine();
    var _ := s.Click(a);
    var d6 := s.Click(a);
    var d7 := s.Click(a);
    assert s.actions == [PointA(a), LineA(a, a), PointA(a), PointA(a)];
    assert s.startPoint == Some(a);
    assert Gravity(s.actions, a) == a;
    DegenerateLineGivesNaN(a);
    assert LineAttractionAsWritten(s.actions, s.startPoint, Gravity(s.actions, a)) == None;
    var preview, _ := s.Move(a);
    assert preview == Some((a, a));
  }

  // A trace on which re-snapping moves a position twice. Every distance
  // below is squared.
  const Top := Point(108.0, 70.0)
  const Bottom := Point(108.0, 130.0)
  const Corner := Point(100.0, 100.0)
  const Right := Point(130.0, 100.0)
  const Raw := Point(111.0, 100.0)
  const Mid := Point(108.0, 100.0)
  const Probe := Point(115.0, 100.0)

  function Log1(): seq<Action> { [PointA(Top), LineA(Top, Bottom), PointA(Bottom)] }
  function Log2(): seq<Action> { Log1() + [PointA(Corner)] }
  function Log3(): seq<Action> { Log2() + [PointA(Right)] }
  function Log4(): seq<Action> { Log3() + [LineA(Right, Mid), PointA(Mid)] }

  lemma DistancesToBottom() ensures Dist2(Top, Bottom) == 3600.0 {}
  lemma DistancesToCorner() ensures Dist2(Top, Corner) == 964.0 && Dist2(Bottom, Corner) == 964.0 {}
  lemma DistancesToRight()
    ensures Dist2(Top, Right) == 1384.0 && Dist2(Bottom, Right) == 1384.0 && Dist2(Corner, Right) == 900.0
  {}
  lemma DistancesToRaw()
    ensures Dist2(Top, Raw) == 909.0 && Dist2(Bottom, Raw) == 909.0
    ensures Dist2(Corner, Raw) == 121.0 && Dist2(Right, Raw) == 361.0
  {}
  lemma DistancesToProbe()
    ensures Dist2(Top, Probe) == 949.0 && Dist2(Bottom, Probe) == 949.0
    ensures Dist2(Corner, Probe) == 225.0 && Dist2(Right, Probe) == 225.0 && Dist2(Mid, Probe) == 49.0
  {}
  lemma DistancesToMid()
    ensures Dist2(Top, Mid) == 900.0 && Dist2(Bottom, Mid) == 900.0 && Dist2(Corner, Mid) == 64.0
  {}
  lemma SegmentTerms()
    ensures Dist2(Bottom, Top) == 3600.0 && Along(Raw, Top, Bottom) == 1800.0
    ensures Lerp(Top, Bottom, 0.5) == Mid && Dist2(Raw, Mid) == 9.0
  {}

  /** `Raw` is 3 from the vertical line, whose nearest point is `Mid`. */
  lemma RawProjectFacts()
    ensures SegDist2(Raw, Top, Bottom) == 9.0 && Project(Raw, Top, Bottom) == Mid
  {
    SegmentTerms();
    assert Clamp01(1800.0 / 3600.0) == 0.5;
  }

  lemma SecondClickFacts()
    ensures Gravity([PointA(Top)], Bottom) == Bottom
    ensures LineAttraction([PointA(Top)], Some(Top), Bottom) == Bottom
  {
    DistancesToBottom();
    assert !Attracts(PointA(Top), Bottom);
  }

  lemma CornerClickFacts()
    ensures Gravity(Log1(), Corner) == Corner
  {
    DistancesToCorner();
    var log := Log1();
    assert forall j | 0 <= j < |log| :: !Attracts(log[j], Corner);
  }

  lemma RightClickFacts()
    ensures Gravity(Log2(), Right) == Right
  {
    DistancesToRight();
    var log := Log2();
    assert forall j | 0 <= j < |log| :: !Attracts(log[j], Right);
  }

  lemma RawGravityFacts()
    ensures Gravity(Log3(), Raw) == Raw
  {
    DistancesToRaw();
    var log := Log3();
    assert forall j | 0 <= j < |log| :: !Attracts(log[j], Raw);
  }

  lemma RawAttractionFacts()
    ensures LineAttraction(Log3(), Some(Right), Raw) == Mid
  {
    RawProjectFacts();
    var log := Log3();
    assert Catches(log[1], Raw) && !Catches(log[0], Raw);
  }

  lemma ProbeFacts()
    ensures Gravity(Log4(), Probe) == Mid
  {
    DistancesToProbe();
    var log := Log4();
    assert forall j | 0 <= j < 6 :: !Attracts(log[j], Probe);
    assert Attracts(log[6], Probe);
  }

  lemma MidFacts()
    ensures Gravity(Log4(), Mid) == Corner
  {
    DistancesToMid();
    var log := Log4();
    assert forall j | 0 <= j < 3 :: !Attracts(log[j], Mid);
    assert Attracts(log[3], Mid);
  }

  /** The first click of the trace starts a line at `Top`. */
  method StartTop() returns (s: Session)
    ensures fresh(s) && s.Valid()
    ensures s.mode == LineTool && s.actions == [PointA(Top)] && s.startPoint == Some(Top)
  {
    s := new Session();
    s.SelectLine();
    var d1 := s.Click(Top);
  }

  /** The first two clicks of the trace: a vertical line from `Top` to
      `Bottom`. */
  method BuildLog1() returns (s: Session)
    ensures fresh(s) && s.Valid()
    ensures s.mode == LineTool && s.actions == Log1() && s.startPoint == None
  {
    s := StartTop();
    SecondClickFacts();
    var d2 := s.Click(Bottom);
    assert s.actions == [PointA(Top)] + [LineA(Top, Bottom), PointA(Bottom)];
  }

  /** Then a point at `Corner`. */
  method BuildLog2() returns (s: Session)
    ensures fresh(s) && s.Valid()
    ensures s.mode == PointTool && s.actions == Log2()
  {
    s := BuildLog1();
    var d3 := s.SelectPoint();
    CornerClickFacts();
    var d4 := s.Click(Corner);
  }

  /** Then a line started at `Right`. */
  method BuildLog3() returns (s: Session)
    ensures fresh(s) && s.Valid()
    ensures s.mode == LineTool && s.actions == Log3() && s.startPoint == Some(Right)
  {
    s := BuildLog2();
    s.SelectLine();
    RightClickFacts();
    var d5 := s.Click(Right);
  }

  /** A line end attracted onto a logged line can land within
      GravityThreshold of an earlier logged point, so snapping is not
      idempotent on logs the handlers build: after the fifth click
      `Probe` snaps to the attracted end `Mid`, which snaps on to
      `Corner`. */
  method ResnapMovesFurther() {
    var s := BuildLog3();
    RawGravityFacts();
    RawAttractionFacts();
    var d6 := s.Click(Raw);
    assert s.actions == Log4();
    ProbeFacts();
    MidFacts();
    assert Gravity(s.actions, Probe) == Mid && Gravity(s.actions, Gravity(s.actions, Probe)) == Corner;
  }
}
