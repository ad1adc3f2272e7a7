/**
 * The single-file ink world: one closure that owns the scene, the ink buffer and the screen, with
 * the pointer handlers, the frame step and the frame render. Its force model is the one of the
 * physics module with fixed constants, it always stamps the same grey ink, and it draws the ball
 * in one red. The view size, the clock and the random draw are parameters.
 */
module InkWorld {
  import opened Wrappers
  import opened Maths
  import opened Geometry
  import opened Modes
  import opened Scene
  import opened Renderer
  import Physics
  import Pool
  import Audio

  /** `BG` */
  const Background: string := "#f4f1ea"

  /** The constants of `applyForces` and `bounceInCircle`, in the order of `PhysicsParams`. */
  const WorldPhysics: PhysicsParams := PhysicsParams(0.99, 28.0, 160.0, 180.0, 0.015, 45.0, 2.6, 0.78, 18.0, 900.0)

  /** `ball.inkR = 7 + energy^1.6 * 28` */
  const InkRadius: RadiusCurve := RadiusCurve(7.0, 28.0, 1.6)

  /** `ball.r = 9 + energy^1.2 * 8` */
  const BallRadius: RadiusCurve := RadiusCurve(9.0, 8.0, 1.2)

  /** The gradient of every ink dab. */
  const InkStops: Stops := Stops("rgba(10,10,12,0.22)", "rgba(10,10,12,0.00)")

  const BallFill: string := "#cc2222"
  const BallStroke: string := "rgba(0,0,0,0.25)"

  /** The stops `stampInkAt` uses: the same for every point. */
  function FixedInk(): (real, real) -> Option<Stops>
  {
    (x: real, y: real) => Some(InkStops)
  }

  /** `updateCamera()`: the camera whose view of `vw` x `vh` has the ball at its centre. */
  function CameraFor(ball: Ball, vw: real, vh: real): (cam: Point)
    ensures WorldToScreen(cam, ball.Pos()) == Point(vw * 0.5, vh * 0.5)
  {
    Point(ball.x - vw * 0.5, ball.y - vh * 0.5)
  }

  /** A press at world point `w` grabs the ball when it lies within `sqrt(5)` ball radii: every press on the disc does. */
  function Grabs(w: Point, ball: Ball): (r: bool)
    ensures Dist2(w, ball.Pos()) <= ball.r * ball.r ==> r
  {
    SquarePositive(ball.r);
    Dist2(w, ball.Pos()) <= ball.r * ball.r * 5.0
  }

  /** Every press on the drawn ball grabs it, and a press further than `sqrt(5) r` away does not. */
  lemma GrabsDrawnBall(w: Point, ball: Ball, d: real)
    requires d >= 0.0 && d * d == Dist2(w, ball.Pos())
    ensures d <= ball.r ==> Grabs(w, ball)
    ensures d * d > 5.0 * (ball.r * ball.r) ==> !Grabs(w, ball)
  {
    if d <= ball.r {
      SquareMono(d, if ball.r >= 0.0 then ball.r else -ball.r);
      assert d * d <= ball.r * ball.r;
      SquarePositive(ball.r);
      assert ball.r * ball.r <= ball.r * ball.r * 5.0;
    }
  }

  /** Whether a move or release event with pointer id `id` belongs to the tracked press. */
  predicate Tracks(p: DragPointer, id: int)
  {
    p.down && p.id == Some(id)
  }

  /**
   * A move while dragging: the ball covers 35 % of the way to the pointer's world position `w`,
   * and its velocity takes 6 % of the pointer's screen motion `(dx, dy)`.
   */
  function Dragged(b: Ball, w: Point, dx: real, dy: real): (nb: Ball)
    ensures nb.x - w.x == 0.65 * (b.x - w.x) && nb.y - w.y == 0.65 * (b.y - w.y)
    ensures Dist2(nb.Pos(), w) == 0.4225 * Dist2(b.Pos(), w)
    ensures nb.vx - b.vx == dx * 0.06 && nb.vy - b.vy == dy * 0.06
    ensures nb.r == b.r && nb.inkR == b.inkR
  {
    var nb := b.(x := Approach(b.x, w.x, 0.35), y := Approach(b.y, w.y, 0.35), vx := b.vx + dx * 0.06, vy := b.vy + dy * 0.06);
    ShrinkSquare(b.x - w.x, nb.x - w.x);
    ShrinkSquare(b.y - w.y, nb.y - w.y);
    nb
  }

  lemma ShrinkSquare(a: real, b: real)
    requires b == 0.65 * a
    ensures b * b == 0.4225 * (a * a)
  {
  }

  /**
   * Releasing a dragged ball flings it with 12 % of the pointer's last screen motion: the ball
   * stays where it is, and its velocity changes in the direction of that motion, by 0.12 times
   * its length; a pointer that did not move leaves the ball as it was.
   */
  function Flung(b: Ball, p: DragPointer): (nb: Ball)
    ensures nb.Pos() == b.Pos() && nb.r == b.r && nb.inkR == b.inkR
    ensures Physics.Along(Point(nb.vx - b.vx, nb.vy - b.vy), Point(p.vx, p.vy))
    ensures Dist2(Point(nb.vx, nb.vy), Point(b.vx, b.vy)) == 0.0144 * (p.vx * p.vx + p.vy * p.vy)
    ensures p.vx == 0.0 && p.vy == 0.0 ==> nb == b
  {
    SquarePositive(p.vx);
    SquarePositive(p.vy);
    b.(vx := b.vx + p.vx * 0.12, vy := b.vy + p.vy * 0.12)
  }

  /** A released pointer never fires the long-press latch, however long ago it was pressed. */
  lemma ReleasedNeverLatches(p: DragPointer, now: real)
    requires !p.down || p.draggingBall
    ensures !Physics.LatchFires(p, now)
  {
  }

  /** The frame step's droplet ageing: `drop.age += dt`. */
  function AgedDroplet(dt: real): Droplet -> Droplet
  {
    (d: Droplet) => d.(age := d.age + dt)
  }

  /** The step's pruning test: `drop.age >= drop.life`. */
  predicate DropletDone(d: Droplet)
  {
    d.age >= d.life
  }

  /** The render's pruning test: `t = age / life` has reached 1. */
  predicate Spent(d: Droplet)
    requires d.life > 0.0
  {
    d.age / d.life >= 1.0
  }

  /** For a droplet with a positive life, the render's test and the step's test agree. */
  lemma SpentIffDone(d: Droplet)
    requires d.life > 0.0
    ensures Spent(d) <==> DropletDone(d)
  {
    var t := d.age / d.life;
    assert d.age == t * d.life;
    if t >= 1.0 {
      MulMono(1.0, t, d.life);
    } else {
      MulStrict(t, 1.0, d.life);
    }
  }

  /** The render's pruning, with the droplet kept as it is. */
  function Same(): Droplet -> Droplet
  {
    (d: Droplet) => d
  }

  /** The render's expiry test as a total function, for pools whose lives are positive. */
  function SpentAt(): Droplet -> bool
  {
    (d: Droplet) => d.life > 0.0 && Spent(d)
  }

  /**
   * After a step every droplet has `age < life`, so the render that follows removes none of them:
   * its pruning is only a guard.
   */
  lemma {:induction false} RenderKeepsStepped(ds: seq<Droplet>)
    requires forall i :: 0 <= i < |ds| ==> ds[i].life > 0.0 && !DropletDone(ds[i])
    ensures Pool.Step(ds, Same(), SpentAt()) == ds
    decreases |ds|
  {
    if ds != [] {
      SpentIffDone(ds[0]);
      RenderKeepsStepped(ds[1..]);
      assert [ds[0]] + ds[1..] == ds;
    }
  }

  /** `s` from its last element to its first. */
  function Reversed<T>(s: seq<T>): (r: seq<T>)
    ensures |r| == |s|
    ensures forall i :: 0 <= i < |s| ==> r[i] == s[|s| - 1 - i]
    decreases |s|
  {
    if s == [] then [] else Reversed(s[1..]) + [s[0]]
  }

  /** Drawing one more droplet after a list of them. */
  lemma DrawsSnoc(ds: seq<Droplet>, d: Droplet, cam: Point)
    ensures DropDraws(ds + [d], cam) == DropDraws(ds, cam) + [Drop(WorldToScreen(cam, Point(d.x, d.y)), d.core, d.edge)]
  {
    var l, r := DropDraws(ds + [d], cam), DropDraws(ds, cam) + [Drop(WorldToScreen(cam, Point(d.x, d.y)), d.core, d.edge)];
    assert |l| == |r|;
    forall i | 0 <= i < |l| ensures l[i] == r[i] {
      if i < |ds| {
        assert (ds + [d])[i] == ds[i];
      }
    }
  }

  /** The drop `drawDroplets` draws for `d`: at its screen position, in its two colours. */
  function DropOf(d: Droplet, cam: Point): Draw
  {
    Drop(WorldToScreen(cam, Point(d.x, d.y)), d.core, d.edge)
  }

  /**
   * The drops of a list of droplets drawn from its last element to its first: the last droplet is
   * drawn first, and the first one last, on top of the others.
   */
  function DrawnBackwards(ds: seq<Droplet>, cam: Point): (r: seq<Draw>)
    ensures |r| == |ds|
    ensures ds != [] ==> r[0] == DropOf(ds[|ds| - 1], cam) && r[|ds| - 1] == DropOf(ds[0], cam)
    decreases |ds|
  {
    if ds == [] then [] else DrawnBackwards(ds[1..], cam) + [DropOf(ds[0], cam)]
  }

  /** Drawing backwards is drawing the reversed list in order. */
  lemma {:induction false} BackwardsIsReversed(ds: seq<Droplet>, cam: Point)
    ensures DrawnBackwards(ds, cam) == DropDraws(Reversed(ds), cam)
    decreases |ds|
  {
    if ds != [] {
      BackwardsIsReversed(ds[1..], cam);
      DrawsSnoc(Reversed(ds[1..]), ds[0], cam);
    }
  }

  /** One iteration of the drawing loop: the droplet at `i` is drawn after those past it, unless spent. */
  lemma DrawStep(orig: seq<Droplet>, i: nat, cam: Point)
    requires i < |orig| && orig[i].life > 0.0
    ensures DrawnBackwards(Pool.Step(orig[i..], Same(), SpentAt()), cam)
      == DrawnBackwards(Pool.Step(orig[i + 1..], Same(), SpentAt()), cam) + (if Spent(orig[i]) then [] else [DropOf(orig[i], cam)])
  {
    var d, rest := orig[i], Pool.Step(orig[i + 1..], Same(), SpentAt());
    assert orig[i..][0] == d && orig[i..][1..] == orig[i + 1..];
    assert Same()(d) == d && SpentAt()(d) == Spent(d);
    if Spent(d) {
      assert Pool.Step(orig[i..], Same(), SpentAt()) == rest;
    } else {
      assert Pool.Step(orig[i..], Same(), SpentAt()) == [d] + rest;
      assert ([d] + rest)[1..] == rest;
    }
  }

  /**
   * One iteration of `drawDroplets`' loop, at index `i` of the pool `ds` whose tail past `i` has
   * already been visited: a spent droplet is spliced out, any other one is drawn.
   */
  method VisitDroplet(ghost orig: seq<Droplet>, i: nat, ds: seq<Droplet>, drops: seq<Draw>, cam: Point)
    returns (ds': seq<Droplet>, drops': seq<Draw>)
    requires i < |orig| && orig[i].life > 0.0
    requires ds == orig[..i + 1] + Pool.Step(orig[i + 1..], Same(), SpentAt())
    requires drops == DrawnBackwards(Pool.Step(orig[i + 1..], Same(), SpentAt()), cam)
    ensures ds' == orig[..i] + Pool.Step(orig[i..], Same(), SpentAt())
    ensures drops' == DrawnBackwards(Pool.Step(orig[i..], Same(), SpentAt()), cam)
  {
    ghost var tail := Pool.Step(orig[i + 1..], Same(), SpentAt());
    ghost var here := Pool.Step(orig[i..], Same(), SpentAt());
    Pool.SpliceAt(orig, i, tail, ds);
    var drop := ds[i];
    assert Same()(drop) == drop && SpentAt()(drop) == Spent(drop);
    if Spent(drop) {
      ds', drops' := ds[..i] + ds[i + 1..], drops;
      assert here == tail by { Pool.StepFrom(orig, i, Same(), SpentAt()); }
      assert drops' == DrawnBackwards(here, cam) by { DrawStep(orig, i, cam); }
    } else {
      ds', drops' := ds, drops + [DropOf(drop, cam)];
      assert here == [drop] + tail by { Pool.StepFrom(orig, i, Same(), SpentAt()); }
      assert drops' == DrawnBackwards(here, cam) by { DrawStep(orig, i, cam); }
    }
  }

  /**
   * One iteration of `step`'s droplet loop, at index `i` of the pool `ds` whose tail past `i` has
   * already been aged: the droplet at `i` grows older by `dt` and is spliced out once its age
   * reaches its life.
   */
  method AgeDroplet(ghost orig: seq<Droplet>, i: nat, ds: seq<Droplet>, dt: real) returns (ds': seq<Droplet>)
    requires i < |orig|
    requires ds == orig[..i + 1] + Pool.Step(orig[i + 1..], AgedDroplet(dt), DropletDone)
    ensures ds' == orig[..i] + Pool.Step(orig[i..], AgedDroplet(dt), DropletDone)
  {
    ghost var tail := Pool.Step(orig[i + 1..], AgedDroplet(dt), DropletDone);
    ghost var here := Pool.Step(orig[i..], AgedDroplet(dt), DropletDone);
    Pool.SpliceAt(orig, i, tail, ds);
    var drop := ds[i].(age := ds[i].age + dt);
    assert AgedDroplet(dt)(orig[i]) == drop && DropletDone(drop) == (drop.age >= drop.life);
    if drop.age >= drop.life {
      ds' := ds[..i] + ds[i + 1..];
      assert here == tail by { Pool.StepFrom(orig, i, AgedDroplet(dt), DropletDone); }
    } else {
      Pool.ReplaceAt(orig, i, tail, ds, drop);
      ds' := ds[..i] + [drop] + ds[i + 1..];
      assert here == [drop] + tail by { Pool.StepFrom(orig, i, AgedDroplet(dt), DropletDone); }
    }
  }

  class InkWorld {
    const scene: Scene
    const ink: InkBuffer

    ghost predicate Valid()
      reads scene
    {
      scene.Valid()
    }

    /** `createInkWorld`: the scene for a view of `vw` x `vh`, and a blank ink buffer. */
    constructor (vw: real, vh: real)
      requires vw >= 0.0 && vh >= 0.0
      ensures Valid() && fresh(scene) && fresh(ink)
      ensures scene.world == World(WorldRadius(vw, vh), 0.0, 0.0) && scene.cam == Point(0.0, 0.0)
      ensures scene.ball == Ball(0.0, 0.0, 0.0, 0.0, 10.0, 10.0) && scene.lastStamp == Point(0.0, 0.0)
      ensures scene.smooth == Smoothed(0.0, 0.0, 0.0) && scene.wobble == Wobble(0.0, 0.0)
      ensures var p := scene.pointer; !p.down && p.id.None? && !p.draggingBall && !p.longPressTriggered
      ensures scene.ripples == [] && scene.droplets == [] && ink.marks == []
    {
      scene := new Scene(vw, vh);
      ink := new InkBuffer();
    }

    /** `updateCamera()` */
    method UpdateCamera(vw: real, vh: real)
      modifies scene`cam
      ensures scene.cam == CameraFor(scene.ball, vw, vh)
    {
      scene.cam := Point(scene.ball.x - vw * 0.5, scene.ball.y - vh * 0.5);
    }

    /**
     * `resetWorld()`: the world is resized to the view and recentred, the ball is put back at the
     * centre at rest and at its initial size, the stroke restarts there, the ink buffer is resized
     * (and so cleared) and the camera follows. The state it leaves does not depend on the state
     * before, so resetting twice is resetting once. The screen fill is not modelled.
     */
    method ResetWorld(vw: real, vh: real)
      requires Valid() && vw >= 0.0 && vh >= 0.0
      modifies scene`world, scene`ball, scene`lastStamp, scene`cam, ink
      ensures Valid()
      ensures scene.world == World(WorldRadius(vw, vh), 0.0, 0.0)
      ensures scene.ball == Ball(0.0, 0.0, 0.0, 0.0, 10.0, 10.0) && scene.lastStamp == scene.ball.Pos()
      ensures ink.width == ink.height == BufferSide(scene.world.R) && ink.marks == [Fill(Background)]
      ensures scene.cam == CameraFor(scene.ball, vw, vh)
    {
      scene.world := World(WorldRadius(vw, vh), 0.0, 0.0);
      scene.ball := Ball(scene.world.cx, scene.world.cy, 0.0, 0.0, 10.0, 10.0);
      scene.lastStamp := scene.ball.Pos();
      ResizeInkBuffer(ink, scene.world, Background);
      UpdateCamera(vw, vh);
    }

    /**
     * `handlePointerDown`: the pointer is pressed with this id at `(sx, sy)` at time `now`, at rest
     * and with the latch disarmed; it grabs the ball when the press is near it, and a ripple
     * starts under it, half as strong when the ball is grabbed.
     */
    method PointerDown(id: int, sx: real, sy: real, now: real)
      requires Valid()
      modifies scene`pointer, scene`ripples
      ensures Valid()
      ensures Tracks(scene.pointer, id)
      ensures var w := ScreenToWorld(scene.cam, Point(sx, sy));
        && scene.pointer == DragPointer(true, Some(id), sx, sy, sx, sy, 0.0, 0.0, Grabs(w, scene.ball), now, false)
        && scene.ripples == old(scene.ripples) + [Ripple(w.x, w.y, 0.0, if Grabs(w, scene.ball) then 0.5 else 1.0)]
    {
      var w := ScreenToWorld(scene.cam, Point(sx, sy));
      var grab := Dist2(w, scene.ball.Pos()) <= scene.ball.r * scene.ball.r * 5.0;
      scene.pointer := DragPointer(true, Some(id), sx, sy, sx, sy, 0.0, 0.0, grab, now, false);
      scene.ripples := scene.ripples + [Ripple(w.x, w.y, 0.0, if grab then 0.5 else 1.0)];
    }

    /**
     * `handlePointerMove`: a move that is not the tracked press changes nothing. Otherwise the
     * pointer records its new position and its motion since the last event, and a grabbed ball
     * is dragged towards it.
     */
    method PointerMove(id: int, sx: real, sy: real)
      requires Valid()
      modifies scene`pointer, scene`ball
      ensures Valid()
      ensures !Tracks(old(scene.pointer), id) ==> scene.pointer == old(scene.pointer) && scene.ball == old(scene.ball)
      ensures Tracks(old(scene.pointer), id) ==>
        var p := old(scene.pointer);
        var dx, dy := sx - p.lastX, sy - p.lastY;
        && scene.pointer == p.(vx := dx, vy := dy, lastX := sx, lastY := sy, x := sx, y := sy)
        && scene.ball == if p.draggingBall then Dragged(old(scene.ball), ScreenToWorld(scene.cam, Point(sx, sy)), dx, dy)
                         else old(scene.ball)
    {
      var p := scene.pointer;
      if !p.down || p.id != Some(id) {
        return;
      }
      var dx, dy := sx - p.lastX, sy - p.lastY;
      scene.pointer := p.(vx := dx, vy := dy, lastX := sx, lastY := sy, x := sx, y := sy);
      if p.draggingBall {
        var w := ScreenToWorld(scene.cam, Point(sx, sy));
        scene.ball := Dragged(scene.ball, w, dx, dy);
      }
    }

    /**
     * `handlePointerUp`: a release with another id changes nothing. Otherwise the press ends, the
     * latch is disarmed and a dragged ball is flung. The pointer keeps its id.
     */
    method PointerUp(id: int)
      requires Valid()
      modifies scene`pointer, scene`ball
      ensures Valid()
      ensures old(scene.pointer).id != Some(id) ==> scene.pointer == old(scene.pointer) && scene.ball == old(scene.ball)
      ensures old(scene.pointer).id == Some(id) ==>
        var p := old(scene.pointer);
        && scene.pointer == p.(down := false, longPressTriggered := false, draggingBall := false)
        && scene.ball == if p.draggingBall then Flung(old(scene.ball), p) else old(scene.ball)
    {
      var p := scene.pointer;
      if p.id != Some(id) {
        return;
      }
      if p.draggingBall {
        scene.ball := Flung(scene.ball, p);
      }
      scene.pointer := p.(down := false, longPressTriggered := false, draggingBall := false);
    }

    /**
     * The droplet loop at the end of `step(dt)`: walking from the end, each droplet ages by `dt`
     * and is spliced out once its age reaches its life.
     */
    method AgeDroplets(dt: real)
      requires Valid() && dt >= 0.0
      modifies scene`droplets
      ensures Valid()
      ensures scene.droplets == Pool.Step(old(scene.droplets), AgedDroplet(dt), DropletDone)
      ensures forall i :: 0 <= i < |scene.droplets| ==> scene.droplets[i].age < scene.droplets[i].life
    {
      ghost var orig := scene.droplets;
      var ds := scene.droplets;
      var i := |ds|;
      while i > 0
        invariant 0 <= i <= |orig|
        invariant ds == orig[..i] + Pool.Step(orig[i..], AgedDroplet(dt), DropletDone)
      {
        i := i - 1;
        ds := AgeDroplet(orig, i, ds, dt);
      }
      assert orig[..0] == [] && orig[0..] == orig;
      Pool.StepKeeps(orig, AgedDroplet(dt), DropletDone, (d: Droplet) => d.age >= 0.0 && d.life > 0.0);
      scene.droplets := ds;
      forall j | 0 <= j < |scene.droplets| ensures scene.droplets[j].age < scene.droplets[j].life {
        assert scene.droplets[j] in scene.droplets;
      }
    }

    /**
     * The motion part of `step(dt, audio)`: `applyForces`, `integrate` and `bounceInCircle` with
     * the fixed constants.
     */
    method Advance(dt: real, audio: Audio.Snapshot, now: real, m: Library, u: real)
      requires Valid() && Lawful(m) && Pythagorean(m) && dt >= 0.0 && 0.0 <= u < 1.0
      requires 0.0 <= audio.energy <= 1.0 && 0.0 <= audio.low <= 1.0 && 0.0 <= audio.high <= 1.0
      modifies scene`ball, scene`smooth, scene`ripples, scene`pointer, scene`droplets, scene`wobble
      ensures Valid()
      ensures scene.smooth == Smoothed(Approach(old(scene.smooth).energy, audio.energy, Physics.SmoothFactor(m, dt)),
                                       Approach(old(scene.smooth).low, audio.low, Physics.SmoothFactor(m, dt)),
                                       Approach(old(scene.smooth).high, audio.high, Physics.SmoothFactor(m, dt)))
      ensures scene.ball.inkR == Physics.RadiusFor(InkRadius, m, scene.smooth.energy)
      ensures scene.ball.r == Physics.RadiusFor(BallRadius, m, scene.smooth.energy)
      ensures Contained(scene.ball, scene.world)
      ensures var w := Physics.PressPoint(old(scene.cam), old(scene.pointer));
        scene.droplets == old(scene.droplets) + (if Physics.LatchFires(old(scene.pointer), now) then [LongPressDroplet(w.x, w.y, u)] else [])
      ensures scene.pointer == old(scene.pointer).(longPressTriggered := old(scene.pointer).longPressTriggered || Physics.LatchFires(old(scene.pointer), now))
      ensures scene.ripples == Physics.RipplesAfter(old(scene.ripples), dt, Physics.LatchFires(old(scene.pointer), now),
                                                    Physics.PressPoint(old(scene.cam), old(scene.pointer)))
      ensures scene.wobble == Physics.Wobbled(if Physics.LatchFires(old(scene.pointer), now) then Wobble(0.0, 1.0) else old(scene.wobble),
                                              dt, m.exp(-dt * WorldPhysics.wobbleDecay))
    {
      Physics.ApplyForces(scene, WorldPhysics, InkRadius, BallRadius, dt, audio, now, m, u);
      Glide(dt, m);
    }

    /** `integrate(dt)` then `bounceInCircle()`: the ball moves and ends inside the world. */
    method Glide(dt: real, m: Library)
      requires Lawful(m) && Pythagorean(m)
      modifies scene`ball
      ensures var b := old(scene.ball);
        var moved := b.(x := b.x + b.vx * dt, y := b.y + b.vy * dt);
        var d := m.hypot(moved.x - scene.world.cx, moved.y - scene.world.cy);
        scene.ball == Physics.Bounced(moved, scene.world, d, WorldPhysics.restitution, WorldPhysics.spin)
      ensures scene.ball.r == old(scene.ball).r && scene.ball.inkR == old(scene.ball).inkR
      ensures Contained(scene.ball, scene.world)
    {
      Physics.Integrate(scene, dt);
      Physics.BounceInCircle(scene, WorldPhysics, m);
    }

    /**
     * `step(dt, audio)`: the forces, the motion, the bounce, the camera, the ink stroke, and the
     * droplets' ageing. Afterwards the stroke ends at the ball, the ball is at the centre of the
     * view and inside the world, every droplet still has time to live, and the buffer has gained
     * the dabs of the stroke in the fixed ink.
     */
    method Step(dt: real, audio: Audio.Snapshot, now: real, vw: real, vh: real, m: Library, u: real)
      requires Valid() && Lawful(m) && Pythagorean(m) && dt >= 0.0 && 0.0 <= u < 1.0
      requires 0.0 <= audio.energy <= 1.0 && 0.0 <= audio.low <= 1.0 && 0.0 <= audio.high <= 1.0
      modifies scene`ball, scene`smooth, scene`ripples, scene`pointer, scene`droplets, scene`wobble
      modifies scene`cam, scene`lastStamp, ink`marks
      ensures Valid()
      ensures scene.smooth == Smoothed(Approach(old(scene.smooth).energy, audio.energy, Physics.SmoothFactor(m, dt)),
                                       Approach(old(scene.smooth).low, audio.low, Physics.SmoothFactor(m, dt)),
                                       Approach(old(scene.smooth).high, audio.high, Physics.SmoothFactor(m, dt)))
      ensures scene.ball.inkR == Physics.RadiusFor(InkRadius, m, scene.smooth.energy)
      ensures scene.ball.r == Physics.RadiusFor(BallRadius, m, scene.smooth.energy)
      ensures Contained(scene.ball, scene.world)
      ensures scene.cam == CameraFor(scene.ball, vw, vh)
      ensures scene.lastStamp == scene.ball.Pos()
      ensures var from, to := old(scene.lastStamp), scene.ball.Pos();
        var count := StampCount(m.hypot(to.x - from.x, to.y - from.y), StampStep(scene.ball.inkR));
        ink.marks == old(ink.marks) + Dabs(scene.world.Centre(), ink.width, ink.height, scene.ball.inkR, FixedInk(), Trail(from, to, count))
      ensures var w := Physics.PressPoint(old(scene.cam), old(scene.pointer));
        var dropped := if Physics.LatchFires(old(scene.pointer), now) then [LongPressDroplet(w.x, w.y, u)] else [];
        scene.droplets == Pool.Step(old(scene.droplets) + dropped, AgedDroplet(dt), DropletDone)
      ensures scene.pointer == old(scene.pointer).(longPressTriggered := old(scene.pointer).longPressTriggered || Physics.LatchFires(old(scene.pointer), now))
      ensures scene.ripples == Physics.RipplesAfter(old(scene.ripples), dt, Physics.LatchFires(old(scene.pointer), now),
                                                    Physics.PressPoint(old(scene.cam), old(scene.pointer)))
      ensures scene.wobble == Physics.Wobbled(if Physics.LatchFires(old(scene.pointer), now) then Wobble(0.0, 1.0) else old(scene.wobble),
                                              dt, m.exp(-dt * WorldPhysics.wobbleDecay))
      ensures forall i :: 0 <= i < |scene.droplets| ==> scene.droplets[i].age < scene.droplets[i].life
    {
      Advance(dt, audio, now, m, u);
      Trace(dt, vw, vh, m);
    }

    /**
     * The rest of `step(dt, audio)` once the ball has moved: the camera follows it, the stroke is
     * stamped up to it, and the droplets age.
     */
    method Trace(dt: real, vw: real, vh: real, m: Library)
      requires Valid() && dt >= 0.0
      modifies scene`cam, scene`lastStamp, scene`droplets, ink`marks
      ensures Valid()
      ensures scene.cam == CameraFor(scene.ball, vw, vh)
      ensures scene.lastStamp == scene.ball.Pos()
      ensures var from, to := old(scene.lastStamp), scene.ball.Pos();
        var count := StampCount(m.hypot(to.x - from.x, to.y - from.y), StampStep(scene.ball.inkR));
        ink.marks == old(ink.marks) + Dabs(scene.world.Centre(), ink.width, ink.height, scene.ball.inkR, FixedInk(), Trail(from, to, count))
      ensures scene.droplets == Pool.Step(old(scene.droplets), AgedDroplet(dt), DropletDone)
      ensures forall i :: 0 <= i < |scene.droplets| ==> scene.droplets[i].age < scene.droplets[i].life
    {
      UpdateCamera(vw, vh);
      StampInkToBuffer(ink, scene, m, FixedInk());
      AgeDroplets(dt);
    }

    /**
     * `drawDroplets()` as far as positions and colours go: walking from the end, a droplet whose
     * `age / life` has reached 1 is spliced out and the others are drawn, so the drops come out
     * in reverse pool order.
     */
    method DrawDroplets() returns (drops: seq<Draw>)
      requires Valid()
      modifies scene`droplets
      ensures Valid()
      ensures scene.droplets == Pool.Step(old(scene.droplets), Same(), SpentAt())
      ensures drops == DrawnBackwards(scene.droplets, scene.cam)
    {
      ghost var orig := scene.droplets;
      var ds := scene.droplets;
      drops := [];
      var i := |ds|;
      while i > 0
        invariant 0 <= i <= |orig|
        invariant forall j :: 0 <= j < |orig| ==> orig[j].life > 0.0
        invariant ds == orig[..i] + Pool.Step(orig[i..], Same(), SpentAt())
        invariant drops == DrawnBackwards(Pool.Step(orig[i..], Same(), SpentAt()), scene.cam)
      {
        i := i - 1;
        ds, drops := VisitDroplet(orig, i, ds, drops, scene.cam);
      }
      assert orig[..0] == [] && orig[0..] == orig;
      Pool.StepKeeps(orig, Same(), SpentAt(), (d: Droplet) => d.age >= 0.0 && d.life > 0.0);
      scene.droplets := ds;
    }

    /**
     * `render()`: the background, the ink window, the world border, the surviving droplets from
     * the last to the first, and the red ball. Rendering draws nothing into the ink buffer; it
     * only drops the droplets that have run their life.
     */
    method Render(vw: real, vh: real) returns (frame: seq<Draw>)
      requires Valid()
      modifies scene`droplets
      ensures Valid()
      ensures scene.droplets == Pool.Step(old(scene.droplets), Same(), SpentAt())
      ensures frame == Renderer.Render(Background, scene.world, (ink.width, ink.height), scene.cam, vw, vh,
                                       Reversed(scene.droplets), scene.ball, BallFill, BallStroke)
    {
      var drops := DrawDroplets();
      BackwardsIsReversed(scene.droplets, scene.cam);
      frame := [Paint(Background, vw, vh), InkWindow(scene.world, (ink.width, ink.height), scene.cam, vw, vh),
                Border(WorldToScreen(scene.cam, scene.world.Centre()), scene.world.R)]
        + drops
        + [Disc(WorldToScreen(scene.cam, scene.ball.Pos()), scene.ball.r, BallFill, BallStroke)];
    }
  }
}
