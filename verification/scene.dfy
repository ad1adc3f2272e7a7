/**
 * The mutable state the ink world shares between its pointer handlers, its physics step and its
 * renderer: the circular world, the camera, the ball, the smoothed audio features, the last stamp
 * position, the drag pointer, and the ripple, droplet and wobble effects. In the source these are
 * plain objects created together and updated in place; here they are the fields of one `Scene`,
 * each holding a value.
 */
module Scene {
  import opened Wrappers
  import opened Maths
  import opened Geometry

  /** The circular world: radius and centre. */
  datatype World = World(R: real, cx: real, cy: real)
  {
    function Centre(): Point { Point(cx, cy) }
  }

  /** Position, velocity, drawn radius and ink radius. */
  datatype Ball = Ball(x: real, y: real, vx: real, vy: real, r: real, inkR: real)
  {
    function Pos(): Point { Point(x, y) }
  }

  /** The ball's disc lies inside the world's circle, whenever the world is at least as wide as the ball. */
  predicate Contained(b: Ball, w: World)
  {
    w.R >= b.r ==> Dist2(b.Pos(), w.Centre()) <= (w.R - b.r) * (w.R - b.r)
  }

  /** `audioSmooth` */
  datatype Smoothed = Smoothed(energy: real, low: real, high: real)

  /** The ink world's drag pointer, in screen coordinates. */
  datatype DragPointer = DragPointer(
    down: bool, id: Option<int>, x: real, y: real, lastX: real, lastY: real,
    vx: real, vy: real, draggingBall: bool, downAt: real, longPressTriggered: bool)

  datatype Ripple = Ripple(x: real, y: real, age: real, strength: real)

  datatype Droplet = Droplet(x: real, y: real, age: real, life: real, core: string, edge: string)

  datatype Wobble = Wobble(time: real, strength: real)

  /** The two colours a long press can drop, one chosen at random. */
  const LongPressPalette: seq<(string, string)> := [
    ("rgba(248, 183, 62, 0.5)", "rgba(255, 129, 48, 0.0)"),
    ("rgba(142, 126, 245, 0.5)", "rgba(76, 66, 190, 0.0)")]

  /** `palette[Math.floor(u * palette.length)]` for the long-press palette and a draw `u` in [0, 1). */
  function LongPressColour(u: real): (c: (string, string))
    requires 0.0 <= u < 1.0
    ensures c in LongPressPalette
  {
    UnitFloor(u, 2);
    LongPressPalette[(u * 2.0).Floor]
  }

  /** The droplet a long press at `(wx, wy)` drops: full size, 1.6 s to live, colour chosen by `u`. */
  function LongPressDroplet(wx: real, wy: real, u: real): (d: Droplet)
    requires 0.0 <= u < 1.0
    ensures d.age == 0.0 && d.life > 0.0 && (d.core, d.edge) in LongPressPalette
  {
    var c := LongPressColour(u);
    Droplet(wx, wy, 0.0, 1.6, c.0, c.1)
  }

  /** The world radius for a view of `vw` x `vh`: `min(vw, vh) * 1.35`. */
  function WorldRadius(vw: real, vh: real): (R: real)
    requires vw >= 0.0 && vh >= 0.0
    ensures 0.0 <= R && R == 1.35 * Min(vw, vh)
  {
    Min(vw, vh) * 1.35
  }

  class Scene {
    var world: World
    var cam: Point
    var ball: Ball
    var smooth: Smoothed
    var lastStamp: Point
    var pointer: DragPointer
    var ripples: seq<Ripple>
    var droplets: seq<Droplet>
    var wobble: Wobble

    /**
     * The state every handler and step keeps: a pressed pointer has an id, the smoothed audio
     * features and the wobble strength lie in [0, 1], ages are non-negative, ripple strengths and
     * droplet lives are positive, and the radii are positive.
     */
    ghost predicate Valid()
      reads this
    {
      && world.R >= 0.0
      && ball.r > 0.0 && ball.inkR > 0.0
      && 0.0 <= smooth.energy <= 1.0 && 0.0 <= smooth.low <= 1.0 && 0.0 <= smooth.high <= 1.0
      && 0.0 <= wobble.strength <= 1.0
      && (pointer.down ==> pointer.id.Some?)
      && (forall i :: 0 <= i < |ripples| ==> ripples[i].age >= 0.0 && ripples[i].strength > 0.0)
      && (forall i :: 0 <= i < |droplets| ==> droplets[i].age >= 0.0 && droplets[i].life > 0.0)
    }

    /** The objects `createInkWorld` starts from, for a view of `vw` x `vh`. */
    constructor (vw: real, vh: real)
      requires vw >= 0.0 && vh >= 0.0
      ensures Valid()
      ensures world == World(WorldRadius(vw, vh), 0.0, 0.0) && cam == Point(0.0, 0.0)
      ensures ball == Ball(0.0, 0.0, 0.0, 0.0, 10.0, 10.0) && lastStamp == Point(0.0, 0.0)
      ensures smooth == Smoothed(0.0, 0.0, 0.0) && wobble == Wobble(0.0, 0.0)
      ensures !pointer.down && pointer.id.None? && !pointer.draggingBall && !pointer.longPressTriggered
      ensures ripples == [] && droplets == []
    {
      world := World(WorldRadius(vw, vh), 0.0, 0.0);
      cam := Point(0.0, 0.0);
      ball := Ball(0.0, 0.0, 0.0, 0.0, 10.0, 10.0);
      smooth := Smoothed(0.0, 0.0, 0.0);
      lastStamp := Point(0.0, 0.0);
      pointer := DragPointer(false, None, 0.0, 0.0, 0.0, 0.0, 0.0, 0.0, false, 0.0, false);
      ripples := [];
      droplets := [];
      wobble := Wobble(0.0, 0.0);
    }

    /**
     * `triggerLongPress(wx, wy)`: drop a droplet of one of the two long-press colours (chosen by
     * the random draw `u`), restart the wobble at full strength, and push a strong ripple.
     */
    method TriggerLongPress(wx: real, wy: real, u: real)
      requires Valid() && 0.0 <= u < 1.0
      modifies this`droplets, this`wobble, this`ripples
      ensures Valid()
      ensures droplets == old(droplets) + [LongPressDroplet(wx, wy, u)]
      ensures wobble == Wobble(0.0, 1.0)
      ensures ripples == old(ripples) + [Ripple(wx, wy, 0.0, 1.6)]
    {
      droplets := droplets + [LongPressDroplet(wx, wy, u)];
      wobble := Wobble(0.0, 1.0);
      ripples := ripples + [Ripple(wx, wy, 0.0, 1.6)];
    }
  }
}
