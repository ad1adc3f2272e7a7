/**
 * Points and the three affine maps of the ink world: screen to world and back (a shift by the
 * camera offset) and world to ink buffer (centre of the world to centre of the buffer).
 */
module Geometry {
  import opened Maths

  datatype Point = Point(x: real, y: real)

  /** `dist2`: squared Euclidean distance. */
  function Dist2(a: Point, b: Point): (d: real)
    ensures d >= 0.0
    ensures a == b ==> d == 0.0
  {
    SquarePositive(a.x - b.x);
    SquarePositive(a.y - b.y);
    (a.x - b.x) * (a.x - b.x) + (a.y - b.y) * (a.y - b.y)
  }

  /** `screenToWorld`: the camera offset `cam` is the world point shown at the screen's top-left. */
  function ScreenToWorld(cam: Point, s: Point): (w: Point)
    ensures WorldToScreen(cam, w) == s
  {
    Point(s.x + cam.x, s.y + cam.y)
  }

  /** `worldToScreen` */
  function WorldToScreen(cam: Point, w: Point): Point
  {
    Point(w.x - cam.x, w.y - cam.y)
  }

  /** For a fixed camera the two maps are inverse in both directions. */
  lemma CameraRoundTrip(cam: Point, p: Point)
    ensures WorldToScreen(cam, ScreenToWorld(cam, p)) == p
    ensures ScreenToWorld(cam, WorldToScreen(cam, p)) == p
  {
  }

  /** `worldToBuffer`: world coordinates to ink-buffer pixels for a buffer of `width` x `height`. */
  function WorldToBuffer(centre: Point, width: int, height: int, w: Point): (b: Point)
    ensures w == centre ==> b == Point(width as real * 0.5, height as real * 0.5)
  {
    Point(w.x - centre.x + width as real * 0.5, w.y - centre.y + height as real * 0.5)
  }

  /** The world point at buffer pixel `b`: the inverse of `worldToBuffer`. */
  function BufferToWorld(centre: Point, width: int, height: int, b: Point): (w: Point)
    ensures WorldToBuffer(centre, width, height, w) == b
  {
    Point(b.x + centre.x - width as real * 0.5, b.y + centre.y - height as real * 0.5)
  }

  /** The side of the square ink buffer for a world of radius `R`: `Math.ceil(R * 2 + 200)`. */
  function BufferSide(R: real): (side: int)
    ensures side as real >= 2.0 * R + 200.0
  {
    Ceil(R * 2.0 + 200.0)
  }

  lemma SquarePositive(a: real)
    ensures a * a >= 0.0
    ensures a != 0.0 ==> a * a > 0.0
  {
    if a < 0.0 {
      assert a * a == (-a) * (-a);
    }
  }

  lemma SquareMono(a: real, b: real)
    requires 0.0 <= a <= b
    ensures a * a <= b * b
  {
    assert a * a <= a * b;
    assert a * b <= b * b;
  }

  lemma SquareBound(a: real, R: real)
    requires R >= 0.0 && a * a <= R * R
    ensures -R <= a <= R
  {
    if a > R {
      SquareGrows(a, R);
    } else if a < -R {
      assert (-a) * (-a) == a * a;
      SquareGrows(-a, R);
    }
  }

  lemma SquareGrows(a: real, R: real)
    requires R >= 0.0 && a > R
    ensures a * a > R * R
  {
    var e := a - R;
    assert a * a == R * R + 2.0 * (R * e) + e * e;
    SquarePositive(e);
    assert R * e >= 0.0;
  }

  /**
   * Every world point within `R` of the world centre lands inside a buffer whose side is at
   * least `2R + 200`, with a margin of 100 pixels on every side.
   */
  lemma InsideBuffer(centre: Point, R: real, side: int, w: Point)
    requires R >= 0.0 && side as real >= 2.0 * R + 200.0
    requires Dist2(w, centre) <= R * R
    ensures var b := WorldToBuffer(centre, side, side, w);
      100.0 <= b.x <= side as real - 100.0 && 100.0 <= b.y <= side as real - 100.0
  {
    var dx, dy := w.x - centre.x, w.y - centre.y;
    assert dx * dx <= R * R && dy * dy <= R * R;
    SquareBound(dx, R);
    SquareBound(dy, R);
  }
}
