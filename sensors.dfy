/**
  * The agent's view of the map: eight sensing points around its bounding box
  * (the ray sensor) and the four corners of the box (the death check).
  */
module Sensors {
  import opened Geometry

  /** How far beyond the bounding box each sensing point lies. */
  const Sight: real := 10.0
  const RayCount: nat := 8

  /**
    * Unit direction of each sensing point, in sensor-vector order: starting
    * on the left and turning clockwise (left, top-left, top, top-right,
    * right, bottom-right, bottom, bottom-left); y grows upwards.
    */
  const Compass: seq<(int, int)> :=
    [(-1, 0), (-1, 1), (0, 1), (1, 1), (1, 0), (1, -1), (0, -1), (-1, -1)]

  /** A sensor vector: eight 0/1 flags. */
  predicate IsFlagVector(s: seq<int>)
  {
    |s| == RayCount && forall i :: 0 <= i < |s| ==> s[i] == 0 || s[i] == 1
  }

  const NoObstacles: seq<int> := [0, 0, 0, 0, 0, 0, 0, 0]

  /**
    * The sensing points around an agent at `pos` with half-extents `hw` and
    * `hh`, each derived from the previous one as in the source.  Point i lies
    * `hw + Sight` away along x and `hh + Sight` away along y in the direction
    * Compass[i].
    */
  function RayPoints(pos: Point, hw: real, hh: real): (pts: seq<Point>)
    ensures |pts| == RayCount
    ensures forall i :: 0 <= i < |pts| ==>
      pts[i] == Point(pos.x + Compass[i].0 as real * (hw + Sight),
                      pos.y + Compass[i].1 as real * (hh + Sight))
  {
    var p1 := Point(pos.x - hw - Sight, pos.y);
    var p2 := Point(p1.x, p1.y + hh + Sight);
    var p3 := Point(pos.x, pos.y + hh + Sight);
    var p4 := Point(p3.x + hw + Sight, p3.y);
    var p5 := Point(pos.x + hw + Sight, pos.y);
    var p6 := Point(p5.x, p5.y - hh - Sight);
    var p7 := Point(pos.x, pos.y - hh - Sight);
    var p8 := Point(p7.x - hw - Sight, p7.y);
    [p1, p2, p3, p4, p5, p6, p7, p8]
  }

  /** One flag per point: 1 when the point collides, 0 when it does not. */
  function Flags(pts: seq<Point>): (flags: seq<int>)
    ensures |flags| == |pts|
    ensures forall i :: 0 <= i < |pts| ==>
      (flags[i] == 1 <==> IsPointColliding(pts[i])) &&
      (flags[i] == 0 <==> !IsPointColliding(pts[i]))
  {
    seq(|pts|, i requires 0 <= i < |pts| => if IsPointColliding(pts[i]) then 1 else 0)
  }

  /**
    * The sensor vector of an agent at `pos` whose box is `w` by `h`: flag i
    * is set exactly when the sensing point in direction Compass[i] is off the
    * track.
    */
  function Sense(pos: Point, w: real, h: real): (flags: seq<int>)
    ensures IsFlagVector(flags)
    ensures forall i :: 0 <= i < RayCount ==>
      (flags[i] == 1 <==>
        !OnTrack(Point(pos.x + Compass[i].0 as real * (w / 2.0 + Sight),
                       pos.y + Compass[i].1 as real * (h / 2.0 + Sight))))
  {
    Flags(RayPoints(pos, w / 2.0, h / 2.0))
  }

  /**
    * The corners of the bounding box, each derived from the previous one as
    * in the source: top-left, top-right, bottom-right, bottom-left.
    */
  function Corners(pos: Point, w: real, h: real): (cs: seq<Point>)
    ensures cs == [Point(pos.x - w / 2.0, pos.y + h / 2.0), Point(pos.x + w / 2.0, pos.y + h / 2.0),
                   Point(pos.x + w / 2.0, pos.y - h / 2.0), Point(pos.x - w / 2.0, pos.y - h / 2.0)]
  {
    var p1 := Point(pos.x - w / 2.0, pos.y + h / 2.0);
    var p2 := Point(p1.x + w, p1.y);
    var p3 := Point(p2.x, p2.y - h);
    var p4 := Point(p3.x - w, p3.y);
    [p1, p2, p3, p4]
  }

  predicate AnyColliding(pts: seq<Point>)
  {
    exists i :: 0 <= i < |pts| && IsPointColliding(pts[i])
  }

  /** Death by collision: some corner of the box at `pos` collides. */
  predicate CornersCollide(pos: Point, w: real, h: real)
  {
    AnyColliding(Corners(pos, w, h))
  }

  /** A box that reaches or crosses any window edge is dead. */
  lemma TouchingWindowIsDeadly(pos: Point, w: real, h: real)
    requires w > 0.0 && h > 0.0
    requires pos.x - w / 2.0 <= 0.0 || WindowSize <= pos.x + w / 2.0 ||
             pos.y - h / 2.0 <= 0.0 || WindowSize <= pos.y + h / 2.0
    ensures CornersCollide(pos, w, h)
  {
    var cs := Corners(pos, w, h);
    if pos.x - w / 2.0 <= 0.0 {
      assert IsPointColliding(cs[0]);
    } else if WindowSize <= pos.x + w / 2.0 {
      assert IsPointColliding(cs[1]);
    } else if pos.y - h / 2.0 <= 0.0 {
      assert IsPointColliding(cs[2]);
    } else {
      assert IsPointColliding(cs[1]);
    }
  }

  /**
    * At the spawn point (50, 50) an agent is alive exactly when its box is
    * narrower and lower than the 100-unit corridor.
    */
  lemma SpawnIsSafeIffBoxFitsCorridor(w: real, h: real)
    requires w > 0.0 && h > 0.0
    ensures !CornersCollide(Point(50.0, 50.0), w, h) <==> w < 100.0 && h < 100.0
  {
    if w >= 100.0 || h >= 100.0 {
      TouchingWindowIsDeadly(Point(50.0, 50.0), w, h);
    }
  }
}
