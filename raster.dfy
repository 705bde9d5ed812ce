/**
 * The point plotter: the frame buffer geometry, the grey-level pixel
 * packing and the set of pixels that one `draw_point` call writes.
 */
module Raster {
  import opened Types

  const WIDTH: int := 330
  const HEIGHT: int := 410
  const BUFSZ: int := 135300

  /** A raster coordinate (`int` in the C source). */
  datatype Point = Point(x: int, y: int)

  /** Position of (x, y) in the row-major frame buffer. */
  function Index(x: int, y: int): int
  {
    y * WIDTH + x
  }

  function Row(i: int): int
  {
    i / WIDTH
  }

  function Col(i: int): int
  {
    i % WIDTH
  }

  /**
   * The `RGB1555` macro: the intensity is shifted into the red, green and
   * blue fields of a 5-5-5 pixel, computed at `int` width and truncated to
   * the 16 bits of an `unsigned short` frame buffer cell.
   */
  function Rgb1555(col: Byte): (r: bv16)
    // the blue field always holds the low five bits of the intensity
    ensures r & 0x1F == (col as bv16) & 0x1F
    // an intensity that fits five bits is a grey: the same value in all three fields, bit 15 clear
    ensures col < 32 ==> r >> 10 == col as bv16 && (r >> 5) & 0x1F == col as bv16 && r & 0x1F == col as bv16
    ensures col < 32 ==> r as int == col * 1024 + col * 32 + col
  {
    var c := col as bv32;
    (((c << 10) | (c << 5) | c) & 0xFFFF) as bv16
  }

  /** A frame buffer index is in range: what the C array access needs. */
  predicate InBuffer(i: int)
  {
    0 <= i < BUFSZ
  }

  /** A coordinate that lies on the 330x410 raster. */
  predicate OnScreen(p: Point)
  {
    0 <= p.x < WIDTH && 0 <= p.y < HEIGHT
  }

  /**
   * On-screen coordinates address the buffer, and each buffer index names
   * exactly one on-screen coordinate.
   */
  lemma IndexOnScreen(p: Point)
    requires OnScreen(p)
    ensures InBuffer(Index(p.x, p.y))
    ensures Col(Index(p.x, p.y)) == p.x && Row(Index(p.x, p.y)) == p.y
  {
  }

  lemma IndexInverse(i: int)
    requires InBuffer(i)
    ensures OnScreen(Point(Col(i), Row(i)))
    ensures Index(Col(i), Row(i)) == i
  {
  }

  /** The clamped bounding box `[sy, ey] x [sx, ex]` of a thick point. */
  datatype Box = Box(sx: int, sy: int, ex: int, ey: int)

  function DiscBox(psz: int, x: int, y: int): (b: Box)
    // the box never leaves the raster ...
    ensures 0 <= b.sx && b.ex <= WIDTH - 1 && 0 <= b.sy && b.ey <= HEIGHT - 1
    // ... and never exceeds the radius around the point
    ensures x - psz <= b.sx && b.ex <= x + psz && y - psz <= b.sy && b.ey <= y + psz
    // an edge is cut only where the raster ends
    ensures b.sx != x - psz ==> b.sx == 0
    ensures b.ex != x + psz ==> b.ex == WIDTH - 1
    ensures b.sy != y - psz ==> b.sy == 0
    ensures b.ey != y + psz ==> b.ey == HEIGHT - 1
  {
    Box(if x - psz > 0 then x - psz else 0,
        if y - psz > 0 then y - psz else 0,
        if x + psz <= WIDTH - 1 then x + psz else WIDTH - 1,
        if y + psz <= HEIGHT - 1 then y + psz else HEIGHT - 1)
  }

  /**
   * Pixel p belongs to the disc of a thick point: it lies in the clamped
   * box and its squared distance from the box's top-left corner (not from
   * (x, y) itself) is at most psz squared.
   */
  predicate InDisc(psz: int, x: int, y: int, p: Point)
  {
    var b := DiscBox(psz, x, y);
    b.sx <= p.x <= b.ex && b.sy <= p.y <= b.ey &&
    (p.x - b.sx) * (p.x - b.sx) + (p.y - b.sy) * (p.y - b.sy) <= psz * psz
  }

  /** `draw_point(x, y, _)` with point size psz writes buffer index i. */
  predicate Covers(psz: Byte, x: int, y: int, i: int)
  {
    if psz == 1 then i == Index(x, y) else InDisc(psz, x, y, Point(Col(i), Row(i)))
  }

  /** `draw_point` is memory-safe: a radius-1 point has no bounds check of its own. */
  predicate PointSafe(psz: Byte, p: Point)
  {
    psz != 1 || InBuffer(Index(p.x, p.y))
  }

  /** The frame buffer after `draw_point(x, y, col)`; the last write wins. */
  ghost function Plot(fb: seq<bv16>, psz: Byte, x: int, y: int, col: Byte): (r: seq<bv16>)
    requires |fb| == BUFSZ
    ensures |r| == BUFSZ
  {
    seq(BUFSZ, i requires 0 <= i < BUFSZ => if Covers(psz, x, y, i) then Rgb1555(col) else fb[i])
  }

  /** The frame buffer after plotting every point of a path, first to last. */
  ghost function PlotPath(fb: seq<bv16>, psz: Byte, path: seq<Point>, col: Byte): (r: seq<bv16>)
    requires |fb| == BUFSZ
    ensures |r| == BUFSZ
    decreases |path|
  {
    if path == [] then fb
    else
      var last := path[|path| - 1];
      Plot(PlotPath(fb, psz, path[..|path| - 1], col), psz, last.x, last.y, col)
  }

  /** Plotting one more point of a path plots it over the frame the shorter path left. */
  lemma PlotPathSnoc(fb: seq<bv16>, psz: Byte, path: seq<Point>, p: Point, col: Byte)
    requires |fb| == BUFSZ
    ensures PlotPath(fb, psz, path + [p], col) == Plot(PlotPath(fb, psz, path, col), psz, p.x, p.y, col)
  {
    assert (path + [p])[..|path|] == path;
  }

  /**
   * One pixel after a whole path: a pixel that some point of the path
   * covers ends in the path's colour, whatever order the points came in;
   * a pixel that no point covers keeps its old value.
   */
  lemma {:induction false} PlotPathPixel(fb: seq<bv16>, psz: Byte, path: seq<Point>, col: Byte, i: int)
    requires |fb| == BUFSZ && 0 <= i < BUFSZ
    ensures (exists j :: 0 <= j < |path| && Covers(psz, path[j].x, path[j].y, i)) ==>
      PlotPath(fb, psz, path, col)[i] == Rgb1555(col)
    ensures (forall j :: 0 <= j < |path| ==> !Covers(psz, path[j].x, path[j].y, i)) ==>
      PlotPath(fb, psz, path, col)[i] == fb[i]
    decreases |path|
  {
    if path != [] {
      var front := path[..|path| - 1];
      PlotPathPixel(fb, psz, front, col, i);
      forall j | 0 <= j < |front|
        ensures front[j] == path[j]
      {
      }
    }
  }

  /** A radius-1 point writes exactly index y*WIDTH + x and nothing else. */
  lemma PlotRadiusOne(fb: seq<bv16>, x: int, y: int, col: Byte)
    requires |fb| == BUFSZ && InBuffer(Index(x, y))
    ensures Plot(fb, 1, x, y, col)[Index(x, y)] == Rgb1555(col)
    ensures forall i :: 0 <= i < BUFSZ && i != Index(x, y) ==> Plot(fb, 1, x, y, col)[i] == fb[i]
  {
  }

  /**
   * A thick point writes only inside its clamped box, and there exactly the
   * pixels whose distance from the box corner is at most the radius.
   */
  lemma PlotDisc(fb: seq<bv16>, psz: Byte, x: int, y: int, col: Byte)
    requires |fb| == BUFSZ && psz != 1
    ensures forall p :: OnScreen(p) ==>
      Plot(fb, psz, x, y, col)[Index(p.x, p.y)] == if InDisc(psz, x, y, p) then Rgb1555(col) else fb[Index(p.x, p.y)]
    ensures forall i :: 0 <= i < BUFSZ && Plot(fb, psz, x, y, col)[i] != fb[i] ==>
      var b := DiscBox(psz, x, y);
      b.sx <= Col(i) <= b.ex && b.sy <= Row(i) <= b.ey
  {
    forall p | OnScreen(p)
      ensures Plot(fb, psz, x, y, col)[Index(p.x, p.y)] == if InDisc(psz, x, y, p) then Rgb1555(col) else fb[Index(p.x, p.y)]
    {
      IndexOnScreen(p);
    }
  }
}
