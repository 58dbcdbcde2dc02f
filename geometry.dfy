/**
  * The fixed map: an 800 x 800 window with a square inner wall in its middle.
  * Agents drive in the ring between the wall and the window's edges.
  */
module Geometry {

  datatype Point = Point(x: real, y: real)

  /** Inner wall: the closed square [WallLo, WallHi] x [WallLo, WallHi]. */
  const WallLo: real := 100.0
  const WallHi: real := 700.0
  /** The window spans [0, WindowSize] on both axes. */
  const WindowSize: real := 800.0

  /**
    * The drivable track, described independently of the collision test:
    * the union of four open corridors, one along each side of the window.
    */
  predicate OnTrack(p: Point)
  {
    (0.0 < p.x < WallLo && 0.0 < p.y < WindowSize) ||       // left corridor
    (WallHi < p.x < WindowSize && 0.0 < p.y < WindowSize) || // right corridor
    (0.0 < p.y < WallLo && 0.0 < p.x < WindowSize) ||       // bottom corridor
    (WallHi < p.y < WindowSize && 0.0 < p.x < WindowSize)    // top corridor
  }

  /**
    * A point collides when it lies in the inner wall or on or beyond any
    * window edge; all bounds are inclusive.  It collides exactly when it is
    * off the track.
    */
  function IsPointColliding(p: Point): (r: bool)
    ensures r <==> !OnTrack(p)
  {
    (WallLo <= p.x <= WallHi && WallLo <= p.y <= WallHi) || // inner wall
    p.x <= 0.0 ||                                            // left wall
    WindowSize <= p.x ||                                     // right wall
    p.y <= 0.0 ||                                            // bottom wall
    WindowSize <= p.y                                        // top wall
  }
}
