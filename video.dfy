/**
 * The frame compositor: the frame buffer owned by the frontend context, and
 * the three routines that write it (`draw_point`, `draw_line` and the
 * `osint_render` callback that the emulator invokes once it has a vector list).
 */
module Video {
  import opened Types
  import opened Raster
  import opened Bresenham
  import opened Arith

  /** The intensity value that marks a vector with the beam switched off. */
  const BEAM_OFF: int := 128

  /** One vector of the emulator's draw list, in device coordinates. */
  datatype Vector = Vector(x0: nat, y0: nat, x1: nat, y1: nat, color: Byte)

  /**
   * The coordinate scaler `raw / max * dim`. The source computes it in
   * single-precision floating point and truncates to `unsigned`; this model
   * uses the exact rational value, truncated, i.e. floor(raw * dim / max).
   */
  function Scale(raw: nat, max: nat, dim: nat): (r: nat)
    requires max > 0
    ensures r * max <= raw * dim < (r + 1) * max
  {
    raw * dim / max
  }

  /** The scaler maps 0 to 0 and the device maximum to the raster dimension. */
  lemma ScaleEnds(max: nat, dim: nat)
    requires max > 0
    ensures Scale(0, max, dim) == 0 && Scale(max, max, dim) == dim
  {
    assert max * dim == dim * max;
    DivOfMultiple(dim, max);
  }

  /** The scaler is monotonic in the device coordinate. */
  lemma ScaleMonotonic(a: nat, b: nat, max: nat, dim: nat)
    requires max > 0 && a <= b
    ensures Scale(a, max, dim) <= Scale(b, max, dim)
  {
    MulMonotone(a, b, dim);
    DivBrackets(a * dim, max);
    DivBrackets(b * dim, max);
    var qa, qb := a * dim / max, b * dim / max;
    if qa > qb {
      MulMonotone(qb + 1, qa, max);
    }
  }

  /** A device coordinate strictly below the maximum lands on the raster. */
  lemma ScaleBelow(raw: nat, max: nat, dim: nat)
    requires raw < max && dim > 0
    ensures Scale(raw, max, dim) < dim
  {
    MulMonotone(raw, max - 1, dim);
    MulDistributes(dim, max - 1, 1);
    assert raw * dim <= max * dim - dim;
    DivBrackets(raw * dim, max);
    var q := raw * dim / max;
    assert dim * max == max * dim;
    if q >= dim {
      MulMonotone(dim, q, max);
    }
  }

  /** The device coordinate at the maximum lands one past the last raster column or row. */
  lemma ScaleMaxIsOffScreen(maxX: nat, maxY: nat)
    requires maxX > 0 && maxY > 0
    ensures !OnScreen(Point(Scale(maxX, maxX, WIDTH), Scale(maxY, maxY, HEIGHT)))
    ensures !InBuffer(Index(Scale(maxX, maxX, WIDTH), Scale(maxY, maxY, HEIGHT)))
  {
    ScaleEnds(maxX, WIDTH);
    ScaleEnds(maxY, HEIGHT);
  }

  /** The two raster endpoints of a vector. */
  function From(v: Vector, maxX: nat, maxY: nat): Point
    requires maxX > 0 && maxY > 0
  {
    Point(Scale(v.x0, maxX, WIDTH), Scale(v.y0, maxY, HEIGHT))
  }

  function To(v: Vector, maxX: nat, maxY: nat): Point
    requires maxX > 0 && maxY > 0
  {
    Point(Scale(v.x1, maxX, WIDTH), Scale(v.y1, maxY, HEIGHT))
  }

  /** The points `osint_render` plots for one vector: one point, or the whole line. */
  ghost function Beam(v: Vector, maxX: nat, maxY: nat): seq<Point>
    requires maxX > 0 && maxY > 0
  {
    var a, b := From(v, maxX, maxY), To(v, maxX, maxY);
    if v.color == BEAM_OFF then []
    else if a == b then [a]
    else LinePath(a.x, a.y, b.x, b.y)
  }

  /** Every write one vector causes stays inside the frame buffer array. */
  ghost predicate VectorSafe(psz: Byte, v: Vector, maxX: nat, maxY: nat)
    requires maxX > 0 && maxY > 0
  {
    forall p :: p in Beam(v, maxX, maxY) ==> PointSafe(psz, p)
  }

  /**
   * The frame buffer after one vector of the list: a vector with the beam
   * off leaves it alone, one whose scaled endpoints coincide goes through
   * `draw_point`, any other through `draw_line`.
   */
  ghost function DrawVector(fb: seq<bv16>, psz: Byte, v: Vector, maxX: nat, maxY: nat): (r: seq<bv16>)
    requires |fb| == BUFSZ && maxX > 0 && maxY > 0
    ensures |r| == BUFSZ
  {
    var a, b := From(v, maxX, maxY), To(v, maxX, maxY);
    if v.color == BEAM_OFF then fb
    else if a.x == b.x && a.y == b.y then Plot(fb, psz, a.x, a.y, v.color)
    else PlotPath(fb, psz, LinePath(a.x, a.y, b.x, b.y), v.color)
  }

  /** The all-zero frame buffer. */
  ghost function Blank(): (r: seq<bv16>)
    ensures |r| == BUFSZ
  {
    seq(BUFSZ, _ => 0)
  }

  /** The frame `osint_render` composes from a vector list: cleared, then every vector in list order. */
  ghost function Frame(psz: Byte, vs: seq<Vector>, maxX: nat, maxY: nat): (r: seq<bv16>)
    requires maxX > 0 && maxY > 0
    ensures |r| == BUFSZ
    decreases |vs|
  {
    if vs == [] then Blank()
    else DrawVector(Frame(psz, vs[..|vs| - 1], maxX, maxY), psz, vs[|vs| - 1], maxX, maxY)
  }

  /**
   * Each vector plots exactly its beam: whether it is drawn as a point or as a
   * line, the frame buffer is the one obtained by plotting the points of
   * `Beam` in order.
   */
  lemma DrawVectorPlotsBeam(fb: seq<bv16>, psz: Byte, v: Vector, maxX: nat, maxY: nat)
    requires |fb| == BUFSZ && maxX > 0 && maxY > 0
    ensures DrawVector(fb, psz, v, maxX, maxY) == PlotPath(fb, psz, Beam(v, maxX, maxY), v.color)
  {
    var a := From(v, maxX, maxY);
    if v.color != BEAM_OFF && a == To(v, maxX, maxY) {
      assert [a][..0] == [];
    }
  }

  /** A vector with the beam off changes nothing when drawn after any prefix of the list. */
  lemma BeamOffIsInvisible(psz: Byte, vs: seq<Vector>, v: Vector, maxX: nat, maxY: nat)
    requires maxX > 0 && maxY > 0 && v.color == BEAM_OFF
    ensures Frame(psz, vs + [v], maxX, maxY) == Frame(psz, vs, maxX, maxY)
  {
    assert (vs + [v])[..|vs|] == vs;
  }

  /** Some point of the vector's beam writes buffer index i. */
  ghost predicate BeamCovers(psz: Byte, v: Vector, maxX: nat, maxY: nat, i: int)
    requires maxX > 0 && maxY > 0
  {
    exists j :: 0 <= j < |Beam(v, maxX, maxY)| && Covers(psz, Beam(v, maxX, maxY)[j].x, Beam(v, maxX, maxY)[j].y, i)
  }

  /**
   * Later vectors overwrite earlier ones: a pixel that any point of the last
   * vector of the list writes has that vector's colour, whatever came before
   * it, and every other pixel keeps the value the earlier vectors left.
   */
  lemma LastVectorWins(psz: Byte, vs: seq<Vector>, maxX: nat, maxY: nat, i: int)
    requires maxX > 0 && maxY > 0 && vs != [] && 0 <= i < BUFSZ
    ensures BeamCovers(psz, vs[|vs| - 1], maxX, maxY, i) ==>
      Frame(psz, vs, maxX, maxY)[i] == Rgb1555(vs[|vs| - 1].color)
    ensures !BeamCovers(psz, vs[|vs| - 1], maxX, maxY, i) ==>
      Frame(psz, vs, maxX, maxY)[i] == Frame(psz, vs[..|vs| - 1], maxX, maxY)[i]
  {
    var v := vs[|vs| - 1];
    var prev := Frame(psz, vs[..|vs| - 1], maxX, maxY);
    DrawVectorPlotsBeam(prev, psz, v, maxX, maxY);
    PlotPathPixel(prev, psz, Beam(v, maxX, maxY), v.color, i);
  }

  /** An empty vector list leaves the cleared frame. */
  lemma FrameOfEmptyList(psz: Byte, maxX: nat, maxY: nat)
    requires maxX > 0 && maxY > 0
    ensures forall i :: 0 <= i < BUFSZ ==> Frame(psz, [], maxX, maxY)[i] == 0
  {
  }

  /** Vectors whose device coordinates stay below the maxima only write inside the array. */
  lemma VectorOnScreenIsSafe(psz: Byte, v: Vector, maxX: nat, maxY: nat)
    requires maxX > 0 && maxY > 0
    requires v.x0 < maxX && v.x1 < maxX && v.y0 < maxY && v.y1 < maxY
    ensures VectorSafe(psz, v, maxX, maxY)
  {
    ScaleBelow(v.x0, maxX, WIDTH);
    ScaleBelow(v.x1, maxX, WIDTH);
    ScaleBelow(v.y0, maxY, HEIGHT);
    ScaleBelow(v.y1, maxY, HEIGHT);
    var a, b := From(v, maxX, maxY), To(v, maxX, maxY);
    LineOnScreen(a.x, a.y, b.x, b.y);
    forall p | p in Beam(v, maxX, maxY) ensures PointSafe(psz, p) {
      IndexOnScreen(p);
    }
  }

  /**
   * The part of the frontend context that the rasteriser uses: the frame
   * buffer and the beam geometry.
   */
  class Screen {
    var framebuffer: array<bv16>
    var pointSize: Byte
    var lineSize: Byte

    ghost predicate Valid()
      reads this
    {
      framebuffer.Length == BUFSZ
    }

    /** The state `retro_init` leaves: both sizes 1, every pixel 0. */
    constructor ()
      ensures Valid() && fresh(framebuffer)
      ensures pointSize == 1 && lineSize == 1
      ensures framebuffer[..] == Blank()
    {
      framebuffer := new bv16[BUFSZ](_ => 0);
      pointSize := 1;
      lineSize := 1;
    }

    /** `draw_point`: one pixel at radius 1, otherwise the clamped disc, scanned row by row. */
    method DrawPoint(x: int, y: int, col: Byte)
      requires Valid() && PointSafe(pointSize, Point(x, y))
      modifies framebuffer
      ensures framebuffer[..] == Plot(old(framebuffer[..]), pointSize, x, y, col)
    {
      var psz: int := pointSize;
      ghost var before := framebuffer[..];
      var c := Rgb1555(col);
      if psz == 1 {
        framebuffer[Index(x, y)] := c;
        return;
      }
      var b := DiscBox(psz, x, y);
      var py := b.sy;
      while py <= b.ey
        invariant b.sy <= py
        invariant forall i :: 0 <= i < BUFSZ ==>
          framebuffer[i] == if Covers(psz, x, y, i) && Row(i) < py then c else before[i]
      {
        var px := b.sx;
        while px <= b.ex
          invariant b.sx <= px
          invariant forall i :: 0 <= i < BUFSZ ==>
            framebuffer[i] == if Covers(psz, x, y, i) && (Row(i) < py || (Row(i) == py && Col(i) < px)) then c else before[i]
        {
          if (px - b.sx) * (px - b.sx) + (py - b.sy) * (py - b.sy) <= psz * psz {
            IndexOnScreen(Point(px, py));
            framebuffer[Index(px, py)] := c;
          }
          px := px + 1;
        }
        py := py + 1;
      }
    }

    /** One pass of the `draw_line` loop plots its point on top of the points plotted before it. */
    method DrawPathPoint(ghost before: seq<bv16>, ghost done: seq<Point>, x: int, y: int, col: Byte)
      requires Valid() && |before| == BUFSZ && PointSafe(pointSize, Point(x, y))
      requires framebuffer[..] == PlotPath(before, pointSize, done, col)
      modifies framebuffer
      ensures framebuffer[..] == PlotPath(before, pointSize, done + [Point(x, y)], col)
    {
      DrawPoint(x, y, col);
      PlotPathSnoc(before, pointSize, done, Point(x, y), col);
    }

    /** `draw_line`: the error-accumulation loop, plotting every point from (x0, y0) through (x1, y1). */
    method DrawLine(x0: nat, y0: nat, x1: nat, y1: nat, col: Byte)
      requires Valid()
      requires forall p :: p in LinePath(x0, y0, x1, y1) ==> PointSafe(pointSize, p)
      modifies framebuffer
      ensures framebuffer[..] == PlotPath(old(framebuffer[..]), pointSize, LinePath(x0, y0, x1, y1), col)
    {
      ghost var before := framebuffer[..];
      var line := Setup(x0, y0, x1, y1);
      var x, y, err := x0 as int, y0 as int, line.dx - line.dy;
      ghost var done: seq<Point> := [];
      TraceStart(x0, y0, x1, y1);
      while true
        invariant Tracing(x0, y0, x1, y1, done, Cursor(x, y, err))
        invariant framebuffer[..] == PlotPath(before, pointSize, done, col)
        decreases RemX(line, Cursor(x, y, err)) + RemY(line, Cursor(x, y, err))
      {
        TraceStep(x0, y0, x1, y1, done, Cursor(x, y, err));
        DrawPathPoint(before, done, x, y, col);
        done := done + [Point(x, y)];
        if x == x1 && y == y1 {
          break;
        }
        x, y, err := Advance(line, x, y, err);
      }
    }

    /**
     * `osint_render`: clear the whole buffer, then draw every vector of the
     * list in order, skipping those with the beam off.
     */
    method Render(vs: seq<Vector>, maxX: nat, maxY: nat)
      requires Valid() && maxX > 0 && maxY > 0
      requires forall k :: 0 <= k < |vs| ==> VectorSafe(pointSize, vs[k], maxX, maxY)
      modifies framebuffer
      ensures framebuffer[..] == Frame(pointSize, vs, maxX, maxY)
    {
      forall i | 0 <= i < framebuffer.Length {
        framebuffer[i] := 0;
      }
      var k := 0;
      while k < |vs|
        invariant 0 <= k <= |vs|
        invariant framebuffer[..] == Frame(pointSize, vs[..k], maxX, maxY)
      {
        var v := vs[k];
        var x0 := Scale(v.x0, maxX, WIDTH);
        var x1 := Scale(v.x1, maxX, WIDTH);
        var y0 := Scale(v.y0, maxY, HEIGHT);
        var y1 := Scale(v.y1, maxY, HEIGHT);
        assert vs[..k + 1][..k] == vs[..k];
        if v.color != BEAM_OFF {
          assert VectorSafe(pointSize, v, maxX, maxY);
          if x0 == x1 && y0 == y1 {
            assert Point(x0, y0) in Beam(v, maxX, maxY);
            DrawPoint(x0, y0, v.color);
          } else {
            DrawLine(x0, y0, x1, y1, v.color);
          }
        }
        k := k + 1;
      }
      assert vs[..|vs|] == vs;
    }
  }
}
