/**
 * The renderer: the off-screen ink buffer that keeps every stroke, the stamps that draw into it,
 * and the frame that is drawn on the screen. The canvas is not modelled pixel by pixel. The ink
 * buffer keeps the log of what was drawn into it (a fill, a gradient dab, a watercolour wash) in
 * buffer coordinates, and a frame is the list of drawing operations sent to the screen.
 */
module Renderer {
  import opened Wrappers
  import opened Maths
  import opened Geometry
  import opened Modes
  import opened Scene

  /** One watercolour ring: its gradient radius `spread`, the ellipse radii and the rotation. */
  datatype Ring = Ring(spread: real, rx: real, ry: real, angle: real)

  /** What a stamp leaves in the ink buffer, in buffer coordinates. */
  datatype Mark =
    | Fill(colour: string)
    | Dab(centre: Point, radius: real, stops: Option<Stops>)
    | Wash(centre: Point, rings: seq<Ring>, pick: Option<Stops>)

  /** The off-screen ink canvas: its size and everything drawn into it since it was last cleared. */
  class InkBuffer {
    var width: int
    var height: int
    var marks: seq<Mark>

    /** A fresh canvas element, at the default size of an HTML canvas and still blank. */
    constructor ()
      ensures width == 300 && height == 150 && marks == []
    {
      width, height, marks := 300, 150, [];
    }
  }

  /**
   * `resizeInkBuffer()`: the buffer becomes a square of side `ceil(2R + 200)`. Setting a canvas's
   * size clears it, and the buffer is then filled with the background colour, so the log holds
   * that one fill. Every world point within `R` of the centre lands inside the buffer.
   */
  method ResizeInkBuffer(buf: InkBuffer, world: World, background: string)
    requires world.R >= 0.0
    modifies buf
    ensures buf.width == buf.height == BufferSide(world.R)
    ensures buf.marks == [Fill(background)]
    ensures forall w :: Dist2(w, world.Centre()) <= world.R * world.R ==>
      var b := WorldToBuffer(world.Centre(), buf.width, buf.height, w);
      100.0 <= b.x <= buf.width as real - 100.0 && 100.0 <= b.y <= buf.height as real - 100.0
  {
    var side := BufferSide(world.R);
    buf.width := side;
    buf.height := side;
    buf.marks := [Fill(background)];
    forall w | Dist2(w, world.Centre()) <= world.R * world.R
      ensures var b := WorldToBuffer(world.Centre(), side, side, w);
        100.0 <= b.x <= side as real - 100.0 && 100.0 <= b.y <= side as real - 100.0
    {
      InsideBuffer(world.Centre(), world.R, side, w);
    }
  }

  /** `Math.max(1, inkR * 0.35)`: the largest gap left between two dabs of a stroke. */
  function StampStep(inkR: real): (step: real)
    ensures step >= 1.0 && step >= inkR * 0.35
    ensures inkR * 0.35 >= 1.0 ==> step == inkR * 0.35
  {
    Max(1.0, inkR * 0.35)
  }

  /** `Math.max(1, Math.ceil(dist / step))`: at least one dab, and enough dabs to cover `dist`. */
  function StampCount(dist: real, step: real): (count: nat)
    requires step >= 1.0
    ensures count >= 1
    ensures count as real * step >= dist
    ensures dist > 0.0 ==> (count as real - 1.0) * step < dist
  {
    var c := Ceil(dist / step);
    if c >= 1 then
      Covers(dist, step, c as real);
      c
    else
      Covers(dist, step, 1.0);
      1
  }

  /** `c >= dist / step` dabs cover `dist`, and one dab fewer would not when `c - 1 < dist / step`. */
  lemma Covers(dist: real, step: real, c: real)
    requires step > 0.0 && dist / step <= c
    ensures c * step >= dist
    ensures c - 1.0 < dist / step ==> (c - 1.0) * step < dist
  {
    var q := dist / step;
    assert q * step == dist;
    calc {
      c * step;
      q * step + (c - q) * step;
      dist + (c - q) * step;
    }
    assert (c - q) * step >= 0.0;
    if c - 1.0 < q {
      Below(dist, step, c - 1.0, q);
    }
  }

  lemma Below(dist: real, step: real, a: real, q: real)
    requires step > 0.0 && q == dist / step && a < q
    ensures a * step < dist
  {
    assert q * step == dist;
    MulStrict(a, q, step);
  }

  /**
   * The `i`-th of `count` stamp points, `from + (to - from) * (i / count)`: the 0-th is where the
   * last stroke ended and the `count`-th is the target.
   */
  function StampPoint(from: Point, to: Point, i: nat, count: nat): (p: Point)
    requires count >= 1
    ensures i == 0 ==> p == from
    ensures i == count ==> p == to
  {
    var t := i as real / count as real;
    assert count as real / count as real == 1.0;
    Point(from.x + (to.x - from.x) * t, from.y + (to.y - from.y) * t)
  }

  /** The step between neighbouring stamp points of a stroke of `count` dabs. */
  function Gap(from: Point, to: Point, count: nat): Point
    requires count >= 1
  {
    Point((to.x - from.x) / count as real, (to.y - from.y) / count as real)
  }

  /** `b` is one step `g` past `a`. */
  predicate Spaced(a: Point, b: Point, g: Point)
  {
    b.x - a.x == g.x && b.y - a.y == g.y
  }

  /**
   * The points a stroke from `from` to `to` is stamped at, `i = 1 .. count`: evenly spaced, each
   * one gap past the one before it (the first one gap past `from`), the last exactly at `to`.
   */
  function Trail(from: Point, to: Point, count: nat): (t: seq<Point>)
    requires count >= 1
    ensures |t| == count && t[count - 1] == to
    ensures Spaced(from, t[0], Gap(from, to, count))
    ensures forall i :: 0 < i < count ==> Spaced(t[i - 1], t[i], Gap(from, to, count))
  {
    TrailGaps(from, to, count);
    var t := seq(count, i requires 0 <= i < count => StampPoint(from, to, i + 1, count));
    assert forall i :: 0 < i < count ==> t[i - 1] == StampPoint(from, to, i, count);
    assert t[0] == StampPoint(from, to, 1, count) && StampPoint(from, to, 0, count) == from;
    assert t[count - 1] == StampPoint(from, to, count, count);
    t
  }

  /** Every gap of a stroke of `count` stamp points is the same. */
  lemma TrailGaps(from: Point, to: Point, count: nat)
    requires count >= 1
    ensures forall i: nat :: i < count ==>
      Spaced(StampPoint(from, to, i, count), StampPoint(from, to, i + 1, count), Gap(from, to, count))
  {
    forall i: nat | i < count
      ensures Spaced(StampPoint(from, to, i, count), StampPoint(from, to, i + 1, count), Gap(from, to, count))
    {
      TrailGap(from, to, i, count);
    }
  }

  /** Two neighbouring stamp points differ by `(to - from) / count`. */
  lemma TrailGap(from: Point, to: Point, i: nat, count: nat)
    requires count >= 1
    ensures var a, b := StampPoint(from, to, i, count), StampPoint(from, to, i + 1, count);
      b.x - a.x == (to.x - from.x) / count as real && b.y - a.y == (to.y - from.y) / count as real
  {
    var c := count as real;
    SliceGap(to.x - from.x, c, i as real);
    SliceGap(to.y - from.y, c, i as real);
  }

  lemma SliceGap(a: real, c: real, i: real)
    requires c > 0.0
    ensures a * ((i + 1.0) / c) - a * (i / c) == a / c
  {
    calc {
      a * ((i + 1.0) / c) - a * (i / c);
      a * ((i + 1.0) / c - i / c);
      { assert (i + 1.0) / c - i / c == 1.0 / c; }
      a * (1.0 / c);
      a / c;
    }
  }

  /** Shrinking a vector of length at most `c * bound` by `c > 0` gives one of length at most `bound`. */
  lemma ShrunkBy(dx: real, dy: real, c: real, bound: real, ex: real, ey: real)
    requires c > 0.0 && dx * dx + dy * dy <= (c * bound) * (c * bound)
    requires ex == dx / c && ey == dy / c
    ensures ex * ex + ey * ey <= bound * bound
  {
    var q := ex * ex + ey * ey;
    calc {
      q * (c * c);
    ==
      (ex * c) * (ex * c) + (ey * c) * (ey * c);
    ==
      dx * dx + dy * dy;
    <=
      (c * bound) * (c * bound);
    ==
      (bound * bound) * (c * c);
    }
    if q > bound * bound {
      MulStrict(bound * bound, q, c * c);
    }
  }

  /** One gap of a stroke whose length is at most `count * step`. */
  lemma GapBound(from: Point, to: Point, i: nat, count: nat, step: real)
    requires count >= 1
    requires var dx, dy := to.x - from.x, to.y - from.y;
      dx * dx + dy * dy <= (count as real * step) * (count as real * step)
    ensures Dist2(StampPoint(from, to, i + 1, count), StampPoint(from, to, i, count)) <= step * step
  {
    var a, b := StampPoint(from, to, i, count), StampPoint(from, to, i + 1, count);
    TrailGap(from, to, i, count);
    ShrunkBy(to.x - from.x, to.y - from.y, count as real, step, b.x - a.x, b.y - a.y);
  }

  /**
   * The gaps of a stroke: with `dist` the length of the offset (what `Math.hypot` computes), every
   * stamp point is at most `step` from the one before it, the first one included, so the dabs of
   * radius `inkR` overlap.
   */
  lemma TrailSpacing(from: Point, to: Point, inkR: real, dist: real)
    requires dist >= 0.0 && dist * dist == (to.x - from.x) * (to.x - from.x) + (to.y - from.y) * (to.y - from.y)
    ensures var step := StampStep(inkR);
      var count := StampCount(dist, step);
      forall i :: 0 <= i < count ==>
        Dist2(StampPoint(from, to, i + 1, count), StampPoint(from, to, i, count)) <= step * step
  {
    var step := StampStep(inkR);
    var count := StampCount(dist, step);
    SpacedWithin(from, to, dist, count, step);
  }

  /** A stroke of length `dist <= count * step` has every gap at most `step` long. */
  lemma SpacedWithin(from: Point, to: Point, dist: real, count: nat, step: real)
    requires count >= 1 && 0.0 <= dist <= count as real * step
    requires dist * dist == (to.x - from.x) * (to.x - from.x) + (to.y - from.y) * (to.y - from.y)
    ensures forall i :: 0 <= i < count ==>
      Dist2(StampPoint(from, to, i + 1, count), StampPoint(from, to, i, count)) <= step * step
  {
    LengthBound(to.x - from.x, to.y - from.y, dist, count as real * step);
    GapsBound(from, to, count, step);
  }

  lemma GapsBound(from: Point, to: Point, count: nat, step: real)
    requires count >= 1
    requires var dx, dy := to.x - from.x, to.y - from.y;
      dx * dx + dy * dy <= (count as real * step) * (count as real * step)
    ensures forall i :: 0 <= i < count ==>
      Dist2(StampPoint(from, to, i + 1, count), StampPoint(from, to, i, count)) <= step * step
  {
    forall i | 0 <= i < count
      ensures Dist2(StampPoint(from, to, i + 1, count), StampPoint(from, to, i, count)) <= step * step
    {
      GapBound(from, to, i, count, step);
    }
  }

  lemma LengthBound(dx: real, dy: real, dist: real, bound: real)
    requires 0.0 <= dist <= bound && dist * dist == dx * dx + dy * dy
    ensures dx * dx + dy * dy <= bound * bound
  {
    SquareMono(dist, bound);
  }

  /** The dab `stampInkAt(p)` draws: at `p`'s buffer position, radius `inkR`, with the stops for `p`. */
  function DabAt(centre: Point, width: int, height: int, inkR: real, stopsAt: (real, real) -> Option<Stops>, p: Point): Mark
  {
    Dab(WorldToBuffer(centre, width, height, p), inkR, stopsAt(p.x, p.y))
  }

  /** `mk` is a dab of radius `inkR` for the world point `p`: its centre maps back to `p`, its stops are `p`'s. */
  predicate DabFor(centre: Point, width: int, height: int, inkR: real, stopsAt: (real, real) -> Option<Stops>,
                   p: Point, mk: Mark)
  {
    && mk.Dab? && BufferToWorld(centre, width, height, mk.centre) == p
    && mk.radius == inkR && mk.stops == stopsAt(p.x, p.y)
  }

  /** The dabs of a list of stamp points, in order: one dab for each point. */
  function Dabs(centre: Point, width: int, height: int, inkR: real, stopsAt: (real, real) -> Option<Stops>,
                ps: seq<Point>): (ms: seq<Mark>)
    ensures |ms| == |ps|
  {
    seq(|ps|, i requires 0 <= i < |ps| => DabAt(centre, width, height, inkR, stopsAt, ps[i]))
  }

  /** The `i`-th dab is the one for the `i`-th point: of radius `inkR`, centred where that point maps to. */
  lemma DabsForPoints(centre: Point, width: int, height: int, inkR: real, stopsAt: (real, real) -> Option<Stops>,
                      ps: seq<Point>)
    ensures var ms := Dabs(centre, width, height, inkR, stopsAt, ps);
      forall i :: 0 <= i < |ps| ==> DabFor(centre, width, height, inkR, stopsAt, ps[i], ms[i])
  {
  }

  /**
   * `stampInkToBuffer()`: the stroke from the last stamp to the ball is drawn as `count` dabs, at
   * `lastStamp + d * i / count` for `i = 1 .. count`, and the last stamp moves to the ball.
   * `stopsAt` is the gradient chosen for a point (`getInkStops`, or the fixed ink of the
   * single-file world).
   */
  method StampInkToBuffer(buf: InkBuffer, s: Scene, m: Library, stopsAt: (real, real) -> Option<Stops>)
    modifies buf`marks, s`lastStamp
    ensures s.lastStamp == s.ball.Pos()
    ensures var from, to := old(s.lastStamp), s.ball.Pos();
      var count := StampCount(m.hypot(to.x - from.x, to.y - from.y), StampStep(s.ball.inkR));
      buf.marks == old(buf.marks)
        + Dabs(s.world.Centre(), buf.width, buf.height, s.ball.inkR, stopsAt, Trail(from, to, count))
  {
    var from, to := s.lastStamp, s.ball.Pos();
    var dist := m.hypot(to.x - from.x, to.y - from.y);
    var step := StampStep(s.ball.inkR);
    var count := StampCount(dist, step);
    ghost var trail := Trail(from, to, count);
    var i := 1;
    while i <= count
      invariant 1 <= i <= count + 1
      invariant buf.marks == old(buf.marks)
        + Dabs(s.world.Centre(), buf.width, buf.height, s.ball.inkR, stopsAt, trail[..i - 1])
    {
      var p := StampPoint(from, to, i, count);
      assert trail[..i] == trail[..i - 1] + [p];
      buf.marks := buf.marks + [DabAt(s.world.Centre(), buf.width, buf.height, s.ball.inkR, stopsAt, p)];
      i := i + 1;
    }
    assert trail[..count] == trail;
    s.lastStamp := to;
  }

  /** `baseRadius + Math.random() * jitter` */
  function BaseRadius(wc: Watercolor, u: real): real
  {
    wc.baseRadius + u * wc.jitter
  }

  /** `ringMin + Math.floor(Math.random() * (ringMax - ringMin + 1))` */
  function RingCount(wc: Watercolor, u: real): int
  {
    wc.ringMin + (u * (wc.ringMax - wc.ringMin + 1) as real).Floor
  }

  /** The ring drawn from four random draws: spread, the two ellipse radii and the rotation. */
  function RingFrom(base: real, d: (real, real, real, real)): Ring
  {
    var spread := base * (0.8 + d.0 * 0.7);
    Ring(spread, spread * (0.8 + d.1 * 0.35), spread * (0.7 + d.2 * 0.4), d.3 * Pi)
  }

  /** Four draws of `Math.random()`, each in [0, 1). */
  predicate UnitQuad(d: (real, real, real, real))
  {
    0.0 <= d.0 < 1.0 && 0.0 <= d.1 < 1.0 && 0.0 <= d.2 < 1.0 && 0.0 <= d.3 < 1.0
  }

  /**
   * The ranges of a ring of a wash of base radius `base`: a spread in [0.8, 1.5) times the base,
   * ellipse radii in [0.8, 1.15) and [0.7, 1.1) times the spread, a rotation of under a half-turn.
   */
  predicate InWash(base: real, r: Ring)
  {
    && 0.8 * base <= r.spread < 1.5 * base
    && 0.8 * r.spread <= r.rx < 1.15 * r.spread
    && 0.7 * r.spread <= r.ry < 1.1 * r.spread
    && 0.0 <= r.angle < Pi
  }

  /** The first `n` rings of a wash of base radius `base`; drawn from [0, 1), each is in range. */
  function Rings(base: real, draws: seq<(real, real, real, real)>, n: nat): (rs: seq<Ring>)
    requires n <= |draws|
    ensures |rs| == n
    ensures base > 0.0 && (forall i :: 0 <= i < n ==> UnitQuad(draws[i])) ==>
      forall i :: 0 <= i < n ==> InWash(base, rs[i])
  {
    RingsInWash(base, draws, n);
    seq(n, i requires 0 <= i < n => RingFrom(base, draws[i]))
  }

  lemma RingsInWash(base: real, draws: seq<(real, real, real, real)>, n: nat)
    requires n <= |draws|
    ensures base > 0.0 && (forall i :: 0 <= i < n ==> UnitQuad(draws[i])) ==>
      forall i :: 0 <= i < n ==> InWash(base, RingFrom(base, draws[i]))
  {
    if base > 0.0 && (forall i :: 0 <= i < n ==> UnitQuad(draws[i])) {
      forall i | 0 <= i < n
        ensures InWash(base, RingFrom(base, draws[i]))
      {
        RingShape(base, draws[i]);
      }
    }
  }

  /** A ring drawn from four values in [0, 1) is in the ranges of its wash. */
  lemma RingShape(base: real, d: (real, real, real, real))
    requires base > 0.0 && UnitQuad(d)
    ensures InWash(base, RingFrom(base, d))
  {
    var r := RingFrom(base, d);
    ScaleRange(base, d.0, 0.8, 0.7, r.spread);
    ScaleRange(r.spread, d.1, 0.8, 0.35, r.rx);
    ScaleRange(r.spread, d.2, 0.7, 0.4, r.ry);
    UnitSpan(d.3, 0.0, Pi);
  }

  /**
   * With draws in [0, 1) and a profile whose ring range is not empty, the number of rings is in
   * `[ringMin, ringMax]`, the base radius is in `[baseRadius, baseRadius + jitter]`, and every
   * spread is in `[0.8, 1.5)` times the base radius.
   */
  lemma WashBounds(wc: Watercolor, uBase: real, uCount: real, draws: seq<(real, real, real, real)>)
    requires 1 <= wc.ringMin <= wc.ringMax && wc.baseRadius > 0.0 && wc.jitter >= 0.0
    requires 0.0 <= uBase < 1.0 && 0.0 <= uCount < 1.0
    requires forall i :: 0 <= i < |draws| ==> 0.0 <= draws[i].0 < 1.0
    ensures wc.ringMin <= RingCount(wc, uCount) <= wc.ringMax
    ensures wc.baseRadius <= BaseRadius(wc, uBase) <= wc.baseRadius + wc.jitter
    ensures forall i :: 0 <= i < |draws| ==>
      0.8 * BaseRadius(wc, uBase) <= RingFrom(BaseRadius(wc, uBase), draws[i]).spread < 1.5 * BaseRadius(wc, uBase)
  {
    RingCountInRange(wc, uCount);
    BaseInRange(wc, uBase);
    SpreadsInRange(BaseRadius(wc, uBase), draws);
  }

  lemma BaseInRange(wc: Watercolor, u: real)
    requires wc.jitter >= 0.0 && 0.0 <= u < 1.0
    ensures wc.baseRadius <= BaseRadius(wc, u) <= wc.baseRadius + wc.jitter
  {
    MulLeq(wc.jitter, u);
    assert 0.0 <= u * wc.jitter <= wc.jitter;
    assert BaseRadius(wc, u) == wc.baseRadius + u * wc.jitter;
  }

  lemma SpreadsInRange(base: real, draws: seq<(real, real, real, real)>)
    requires base > 0.0
    requires forall i :: 0 <= i < |draws| ==> 0.0 <= draws[i].0 < 1.0
    ensures forall i :: 0 <= i < |draws| ==> 0.8 * base <= RingFrom(base, draws[i]).spread < 1.5 * base
  {
    forall i | 0 <= i < |draws|
      ensures 0.8 * base <= RingFrom(base, draws[i]).spread < 1.5 * base
    {
      RingSpread(base, draws[i]);
    }
  }

  lemma RingCountInRange(wc: Watercolor, u: real)
    requires wc.ringMin <= wc.ringMax && 0.0 <= u < 1.0
    ensures wc.ringMin <= RingCount(wc, u) <= wc.ringMax
  {
    UnitFloor(u, wc.ringMax - wc.ringMin + 1);
  }

  lemma RingSpread(base: real, d: (real, real, real, real))
    requires base > 0.0 && 0.0 <= d.0 < 1.0
    ensures 0.8 * base <= RingFrom(base, d).spread < 1.5 * base
  {
    ScaleRange(base, d.0, 0.8, 0.7, RingFrom(base, d).spread);
  }

  /** `k * (lo + u * span)` with `k > 0` and `u` in [0, 1) lies in `[lo * k, (lo + span) * k)`. */
  lemma ScaleRange(k: real, u: real, lo: real, span: real, v: real)
    requires k > 0.0 && 0.0 <= u < 1.0 && span > 0.0
    requires v == k * (lo + u * span)
    ensures lo * k <= v < (lo + span) * k
  {
    UnitSpan(u, lo, span);
    MulMono(lo, lo + u * span, k);
    MulStrict(lo + u * span, lo + span, k);
  }

  /**
   * `stampWatercolorAt(wx, wy, pick)`: one wash at the point's buffer position with `RingCount`
   * rings (none when that is not positive), each drawn from its own four random values. The
   * random values are parameters: `uBase` for the base radius, `uCount` for the ring count, and
   * one quadruple per ring.
   */
  method StampWatercolorAt(buf: InkBuffer, world: World, wc: Watercolor, wx: real, wy: real, pick: Option<Stops>,
                           uBase: real, uCount: real, draws: seq<(real, real, real, real)>)
    requires RingCount(wc, uCount) <= |draws|
    modifies buf`marks
    ensures var n := if RingCount(wc, uCount) > 0 then RingCount(wc, uCount) else 0;
      buf.marks == old(buf.marks)
        + [Wash(WorldToBuffer(world.Centre(), buf.width, buf.height, Point(wx, wy)),
                Rings(BaseRadius(wc, uBase), draws, n), pick)]
  {
    var b := WorldToBuffer(world.Centre(), buf.width, buf.height, Point(wx, wy));
    var base := BaseRadius(wc, uBase);
    var ringCount := RingCount(wc, uCount);
    ghost var n: nat := if ringCount > 0 then ringCount else 0;
    var rings: seq<Ring> := [];
    var i := 0;
    while i < ringCount
      invariant 0 <= i <= n
      invariant rings == Rings(base, draws, i)
    {
      rings := rings + [RingFrom(base, draws[i])];
      i := i + 1;
    }
    buf.marks := buf.marks + [Wash(b, rings, pick)];
  }

  /** An operation of a frame drawn on the screen, in screen coordinates. */
  datatype Draw =
    | Paint(colour: string, w: real, h: real)
    | Blit(src: Point, w: real, h: real)
    | Border(centre: Point, radius: real)
    | Drop(at: Point, core: string, edge: string)
    | Disc(centre: Point, radius: real, fill: string, stroke: string)

  /** `drawInkBufferToScreen()`: the view-sized window of the buffer whose corner is the camera. */
  function InkWindow(world: World, buf: (int, int), cam: Point, vw: real, vh: real): (d: Draw)
    ensures d.Blit? && d.w == vw && d.h == vh
    ensures BufferToWorld(world.Centre(), buf.0, buf.1, d.src) == cam
  {
    Blit(WorldToBuffer(world.Centre(), buf.0, buf.1, cam), vw, vh)
  }

  /** `drawDroplets()` as far as positions and colours go: one drop per droplet, in pool order. */
  function DropDraws(ds: seq<Droplet>, cam: Point): (r: seq<Draw>)
    ensures |r| == |ds|
    ensures forall i :: 0 <= i < |ds| ==>
      && r[i].Drop? && ScreenToWorld(cam, r[i].at) == Point(ds[i].x, ds[i].y)
      && r[i].core == ds[i].core && r[i].edge == ds[i].edge
  {
    seq(|ds|, i requires 0 <= i < |ds| => Drop(WorldToScreen(cam, Point(ds[i].x, ds[i].y)), ds[i].core, ds[i].edge))
  }

  /**
   * `render()`: the background, the ink window, the world border, the droplets and the ball, in
   * this order. The screen is cleared once, first; the ball is drawn once, last, so on top of the
   * ink and the droplets; the border and the ball sit on the screen where the camera shows the
   * world's centre and the ball. It only reads the ink buffer's size: a frame is drawn on the
   * screen and nothing is drawn into the buffer.
   */
  function Render(background: string, world: World, buf: (int, int), cam: Point, vw: real, vh: real,
                  ds: seq<Droplet>, ball: Ball, fill: string, stroke: string): (frame: seq<Draw>)
    ensures |frame| == 4 + |ds|
    ensures frame[0] == Paint(background, vw, vh) && forall i :: 0 < i < |frame| ==> !frame[i].Paint?
    ensures frame[1] == InkWindow(world, buf, cam, vw, vh)
    ensures frame[2].Border? && ScreenToWorld(cam, frame[2].centre) == world.Centre() && frame[2].radius == world.R
    ensures frame[3..3 + |ds|] == DropDraws(ds, cam)
    ensures var last := frame[|frame| - 1];
      && last.Disc? && ScreenToWorld(cam, last.centre) == ball.Pos() && last.radius == ball.r
      && forall i :: 0 <= i < |frame| - 1 ==> !frame[i].Disc?
  {
    [Paint(background, vw, vh), InkWindow(world, buf, cam, vw, vh), Border(WorldToScreen(cam, world.Centre()), world.R)]
      + DropDraws(ds, cam)
      + [Disc(WorldToScreen(cam, ball.Pos()), ball.r, fill, stroke)]
  }

  /**
   * The ink window and the screen agree: the ink stamped for a world point `p` sits, in the copied
   * window, exactly where `worldToScreen(p)` draws the ball, the border and the droplets.
   */
  lemma InkUnderBall(world: World, buf: (int, int), cam: Point, vw: real, vh: real, p: Point)
    ensures var src := InkWindow(world, buf, cam, vw, vh).src;
      var q := WorldToBuffer(world.Centre(), buf.0, buf.1, p);
      Point(q.x - src.x, q.y - src.y) == WorldToScreen(cam, p)
  {
  }
}
