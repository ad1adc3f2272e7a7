/**
 * One physics frame of the ink world, for a given set of physics parameters and radius curves:
 * `applyForces` (friction, audio smoothing, drift, audio push, ripples, the long-press latch,
 * wobble, radii from the smoothed energy, speed limit), `integrate` and `bounceInCircle`. The
 * transcendental functions come from a lawful `Library`, the clock is `now` (milliseconds) and the
 * random draw of a long press is `u`.
 */
module Physics {
  import opened Maths
  import opened Geometry
  import opened Modes
  import opened Scene
  import Pool
  import Audio

  /** A ripple lives for 1.2 s; it is removed once its age exceeds that, strictly. */
  const RippleLife: real := 1.2

  /** A press held longer than 0.45 s without dragging fires the long-press effect once. */
  const LatchDelay: real := 0.45

  /** Every ripple's age grows by `dt`. */
  function AgedRipple(dt: real): Ripple -> Ripple
  {
    (rp: Ripple) => rp.(age := rp.age + dt)
  }

  function Faded(rp: Ripple): bool
  {
    rp.age > RippleLife
  }

  /** The ripple pool after one step: aged, the faded ones gone, and a new ripple at `at` when the long press fired. */
  function RipplesAfter(rs: seq<Ripple>, dt: real, fired: bool, at: Point): seq<Ripple>
  {
    Pool.Step(rs, AgedRipple(dt), Faded) + (if fired then [Ripple(at.x, at.y, 0.0, 1.6)] else [])
  }

  /** `1 - min(1, age / life)`: the ripple's remaining strength, from 1 down to 0. */
  function Wave(age: real): (w: real)
    ensures age >= 0.0 ==> 0.0 <= w <= 1.0
    ensures age >= RippleLife ==> w == 0.0
    ensures age <= 0.0 ==> w >= 1.0
  {
    1.0 - Min(1.0, age / RippleLife)
  }

  /**
   * The velocity change a ripple gives the ball at `b` in one frame; `h` is `Math.hypot` of the
   * offset from the ripple, replaced by 1 when it is 0.
   */
  function Kick(b: Point, rp: Ripple, h: real, ph: PhysicsParams, dt: real): (k: Point)
    requires h >= 0.0 && ph.rippleFalloff >= 0.0
    ensures rp.age >= RippleLife ==> k == Point(0.0, 0.0)
  {
    var dx, dy := b.x - rp.x, b.y - rp.y;
    var dist := if h == 0.0 then 1.0 else h;
    var wave := Wave(rp.age);
    var falloff := 1.0 / (1.0 + dist * ph.rippleFalloff);
    var impulse := ph.rippleImpulse * rp.strength * wave * falloff;
    Point((dx / dist) * impulse * dt, (dy / dist) * impulse * dt)
  }

  /**
   * A ripple pushes the ball straight away from it: the kick is parallel to the offset from the
   * ripple to the ball and has a non-negative component along it.
   */
  lemma KickPushesAway(b: Point, rp: Ripple, h: real, ph: PhysicsParams, dt: real)
    requires h >= 0.0 && ph.rippleFalloff >= 0.0 && ph.rippleImpulse >= 0.0
    requires rp.strength >= 0.0 && rp.age >= 0.0 && dt >= 0.0
    ensures Along(Kick(b, rp, h, ph, dt), Point(b.x - rp.x, b.y - rp.y))
  {
    var dist := if h == 0.0 then 1.0 else h;
    var wave := Wave(rp.age);
    var falloff := 1.0 / (1.0 + dist * ph.rippleFalloff);
    var impulse := ph.rippleImpulse * rp.strength * wave * falloff;
    assert impulse >= 0.0 by {
      NonNegProduct(ph.rippleImpulse, rp.strength);
      NonNegProduct(ph.rippleImpulse * rp.strength, wave);
      NonNegProduct(ph.rippleImpulse * rp.strength * wave, falloff);
    }
    AlongOffset(Point(b.x - rp.x, b.y - rp.y), dist, impulse, dt, Kick(b, rp, h, ph, dt));
  }

  /** `k` is parallel to `d` and has a non-negative component along it. */
  predicate Along(k: Point, d: Point)
  {
    k.x * d.y == k.y * d.x && k.x * d.x + k.y * d.y >= 0.0
  }

  /** A vector `d / dist * a * t` with `dist > 0` and `a, t >= 0` points along `d`. */
  lemma AlongOffset(d: Point, dist: real, a: real, t: real, k: Point)
    requires dist > 0.0 && a >= 0.0 && t >= 0.0
    requires k == Point((d.x / dist) * a * t, (d.y / dist) * a * t)
    ensures Along(k, d)
  {
    var c := a * t / dist;
    assert c >= 0.0;
    assert k.x == d.x * c && k.y == d.y * c;
    SquarePositive(d.x);
    SquarePositive(d.y);
    assert k.x * d.x + k.y * d.y == c * (d.x * d.x + d.y * d.y);
  }

  /** The kicks of a pool of ripples on the ball at `b`, added up: a pool of faded ripples gives none. */
  function KickSum(rs: seq<Ripple>, b: Point, ph: PhysicsParams, dt: real, m: Library): (k: Point)
    requires Lawful(m) && ph.rippleFalloff >= 0.0
    ensures (forall i :: 0 <= i < |rs| ==> rs[i].age >= RippleLife) ==> k == Point(0.0, 0.0)
  {
    if rs == [] then Point(0.0, 0.0)
    else
      var h := m.hypot(b.x - rs[0].x, b.y - rs[0].y);
      var k, rest := Kick(b, rs[0], h, ph, dt), KickSum(rs[1..], b, ph, dt, m);
      Point(rest.x + k.x, rest.y + k.y)
  }

  /** The smoothing factor `1 - 0.001^dt` for a frame of `dt >= 0` seconds lies in [0, 1). */
  function SmoothFactor(m: Library, dt: real): (k: real)
    requires Lawful(m) && dt >= 0.0
    ensures 0.0 <= k < 1.0
  {
    1.0 - m.pow(0.001, dt)
  }

  /** The slow drift of the ball, `drift * dt` times a mix of sines and cosines of the clock. */
  function Drift(m: Library, now: real, drift: real, dt: real): Point
  {
    var t := now * 0.0006;
    var driftX := m.cos(t) * 0.6 + m.sin(t * 0.73) * 0.4;
    var driftY := m.sin(t) * 0.6 + m.cos(t * 0.91) * 0.4;
    Point(driftX * drift * dt, driftY * drift * dt)
  }

  /** The push of the voice: sideways by the high-minus-low tilt, up and down with the clock. */
  function AudioPush(m: Library, now: real, sm: Smoothed, ph: PhysicsParams, dt: real): Point
  {
    var push := ph.push * sm.energy;
    var audioTilt := sm.high - sm.low;
    Point(audioTilt * push * dt, m.sin(now * 0.0014) * 0.2 * push * dt)
  }

  /** `base + energy^power * energyScale`: never below the base radius nor above base + scale. */
  function RadiusFor(c: RadiusCurve, m: Library, energy: real): (r: real)
    requires Lawful(m) && CurveOk(c) && 0.0 <= energy <= 1.0
    ensures c.base <= r <= c.base + c.energyScale
  {
    var p := m.pow(energy, c.power);
    MulLeq(c.energyScale, p);
    c.base + p * c.energyScale
  }

  /** Whether the long-press latch fires this frame: pressed, not dragging, not yet fired, held > 0.45 s. */
  function LatchFires(p: DragPointer, now: real): (r: bool)
    ensures r ==> p.down && now > p.downAt + 450.0
    ensures p.draggingBall || p.longPressTriggered ==> !r
  {
    p.down && !p.draggingBall && !p.longPressTriggered && (now - p.downAt) / 1000.0 > LatchDelay
  }

  /** Once the latch has fired, it cannot fire again at any later time of the same press. */
  lemma LatchOncePerPress(p: DragPointer, now: real, later: real)
    requires LatchFires(p, now)
    ensures !LatchFires(p.(longPressTriggered := true), later)
    ensures LatchFires(p, later) <== later >= now
  {
  }

  /**
   * One frame of wobble, given the decay factor `f = exp(-dt * wobbleDecay)` in (0, 1]: a wobble
   * above 0.001 advances its phase by `6 dt` and decays; a weaker one is inert.
   */
  function Wobbled(w: Wobble, dt: real, f: real): (nw: Wobble)
    requires 0.0 < f <= 1.0
    ensures w.strength <= 0.001 ==> nw == w
    ensures w.strength >= 0.0 ==> 0.0 <= nw.strength <= w.strength
  {
    if w.strength > 0.001 then
      var decayed := w.strength * f;
      assert 0.0 <= decayed <= w.strength by { MulLeq(w.strength, f); }
      Wobble(w.time + dt * 6.0, decayed)
    else w
  }

  /** The velocity change of an active wobble: none for a spent wobble. */
  function WobbleKick(m: Library, w: Wobble, ph: PhysicsParams, dt: real): (k: Point)
    ensures w.strength == 0.0 ==> k == Point(0.0, 0.0)
  {
    var wobbleForce := ph.wobbleForce * w.strength;
    Point(m.cos(w.time) * wobbleForce * dt, m.sin(w.time * 1.2) * wobbleForce * dt)
  }

  /** Each component of the wobble's kick is at most `wobbleForce * strength * dt` in size. */
  lemma WobbleKickBounded(m: Library, w: Wobble, ph: PhysicsParams, dt: real)
    requires Lawful(m) && ph.wobbleForce * w.strength * dt >= 0.0
    ensures var k, c := WobbleKick(m, w, ph, dt), ph.wobbleForce * w.strength * dt;
      -c <= k.x <= c && -c <= k.y <= c
  {
    var f := ph.wobbleForce * w.strength;
    var cs, sn := m.cos(w.time), m.sin(w.time * 1.2);
    assert -1.0 <= cs <= 1.0 && -1.0 <= sn <= 1.0;
    ScaledUnit(cs, f, dt);
    ScaledUnit(sn, f, dt);
  }

  /** A sine or cosine value `s` scaled by `f * dt >= 0` stays within `[-f * dt, f * dt]`. */
  lemma ScaledUnit(s: real, f: real, dt: real)
    requires -1.0 <= s <= 1.0 && f * dt >= 0.0
    ensures -(f * dt) <= s * f * dt <= f * dt
  {
    assert s * f * dt == s * (f * dt);
    UnitTimes(s, f * dt);
  }

  /** A factor in [-1, 1] keeps a non-negative `c` within `[-c, c]`. */
  lemma UnitTimes(s: real, c: real)
    requires -1.0 <= s <= 1.0 && c >= 0.0
    ensures -c <= s * c <= c
  {
    assert (1.0 - s) * c >= 0.0 && (1.0 + s) * c >= 0.0;
  }

  /**
   * The speed limit: a velocity of length `speed` above `vmax` is rescaled by `vmax / speed`, so
   * it keeps its direction and its length becomes exactly `vmax`; a slower one is unchanged.
   */
  function ClampSpeed(v: Point, speed: real, vmax: real): (nv: Point)
    requires vmax > 0.0 && speed >= 0.0 && speed * speed == v.x * v.x + v.y * v.y
    ensures nv.x * nv.x + nv.y * nv.y <= vmax * vmax
    ensures speed <= vmax ==> nv == v
    ensures speed > vmax ==> nv.x * nv.x + nv.y * nv.y == vmax * vmax
    ensures speed > vmax ==> nv.x * v.y == nv.y * v.x && nv.x * v.x + nv.y * v.y > 0.0
  {
    if speed > vmax then
      var k := vmax / speed;
      ClampFacts(v, speed, vmax, k);
      Point(v.x * k, v.y * k)
    else
      SquareMono(speed, vmax);
      v
  }

  /** The speed limit with the speed measured by `Math.hypot`. */
  function SpeedLimited(v: Point, vmax: real, m: Library): (nv: Point)
    requires Lawful(m) && Pythagorean(m) && vmax > 0.0
    ensures nv.x * nv.x + nv.y * nv.y <= vmax * vmax
  {
    ClampSpeed(v, m.hypot(v.x, v.y), vmax)
  }

  lemma ClampFacts(v: Point, speed: real, vmax: real, k: real)
    requires vmax > 0.0 && speed > vmax && speed * speed == v.x * v.x + v.y * v.y
    requires k == vmax / speed
    ensures 0.0 < k < 1.0
    ensures (v.x * k) * (v.x * k) + (v.y * k) * (v.y * k) == vmax * vmax
    ensures (v.x * k) * v.x + (v.y * k) * v.y > 0.0
  {
    assert k * speed == vmax;
    PosFactor(k, speed);
    assert (1.0 - k) * speed == speed - vmax;
    PosFactor(1.0 - k, speed);
    assert (v.x * k) * (v.x * k) + (v.y * k) * (v.y * k) == (k * k) * (v.x * v.x + v.y * v.y);
    assert (k * k) * (speed * speed) == (k * speed) * (k * speed);
    assert (v.x * k) * v.x + (v.y * k) * v.y == k * (speed * speed);
    assert speed * speed > 0.0;
  }

  lemma PosFactor(x: real, y: real)
    requires y > 0.0 && x * y > 0.0
    ensures x > 0.0
  {
  }

  /** The ball after friction, drift and the audio push, with `sm` the freshly smoothed features. */
  function Steered(b: Ball, sm: Smoothed, ph: PhysicsParams, dt: real, now: real, m: Library): Ball
  {
    var d, a := Drift(m, now, ph.drift, dt), AudioPush(m, now, sm, ph, dt);
    b.(vx := b.vx * ph.friction + d.x + a.x, vy := b.vy * ph.friction + d.y + a.y)
  }

  /** The velocity of `b` after the kicks of the live ripples and, when `wobbling`, of the wobble `w`. */
  function Kicked(b: Ball, live: seq<Ripple>, w: Wobble, wobbling: bool, ph: PhysicsParams, dt: real, m: Library): Point
    requires Lawful(m) && ph.rippleFalloff >= 0.0
  {
    var k := KickSum(live, b.Pos(), ph, dt, m);
    var wk := if wobbling then WobbleKick(m, w, ph, dt) else Point(0.0, 0.0);
    Point(b.vx + k.x + wk.x, b.vy + k.y + wk.y)
  }

  /** The velocity `applyForces` reaches before the speed limit. */
  function Forced(b: Ball, sm: Smoothed, ph: PhysicsParams, dt: real, now: real, m: Library,
                  live: seq<Ripple>, w: Wobble, wobbling: bool): Point
    requires Lawful(m) && ph.rippleFalloff >= 0.0
  {
    Kicked(Steered(b, sm, ph, dt, now, m), live, w, wobbling, ph, dt, m)
  }

  /**
   * The ripple loop: age every ripple by `dt`, drop those past their life, and add the kick of
   * each survivor to the ball's velocity. Walks the pool from the end and splices in place.
   */
  method AgeRipples(s: Scene, ph: PhysicsParams, dt: real, m: Library)
    requires s.Valid() && Lawful(m) && ph.rippleFalloff >= 0.0 && dt >= 0.0
    modifies s`ripples, s`ball
    ensures s.Valid()
    ensures s.ripples == Pool.Step(old(s.ripples), AgedRipple(dt), Faded)
    ensures var k := KickSum(s.ripples, old(s.ball).Pos(), ph, dt, m);
      s.ball == old(s.ball).(vx := old(s.ball).vx + k.x, vy := old(s.ball).vy + k.y)
  {
    var ripples, kick := RippleKicks(s.ripples, s.ball.Pos(), ph, dt, m);
    Pool.StepKeeps(s.ripples, AgedRipple(dt), Faded, (rp: Ripple) => rp.age >= 0.0 && rp.strength > 0.0);
    s.ripples := ripples;
    s.ball := s.ball.(vx := s.ball.vx + kick.x, vy := s.ball.vy + kick.y);
  }

  /**
   * The ripple loop on the pool `rs` and the ball position `at`: walking from the end, each ripple
   * ages by `dt` and is spliced out once past its life, and every survivor adds its kick.
   */
  method RippleKicks(rs: seq<Ripple>, at: Point, ph: PhysicsParams, dt: real, m: Library)
    returns (ripples: seq<Ripple>, kick: Point)
    requires Lawful(m) && ph.rippleFalloff >= 0.0
    ensures ripples == Pool.Step(rs, AgedRipple(dt), Faded)
    ensures kick == KickSum(ripples, at, ph, dt, m)
  {
    ripples, kick := rs, Point(0.0, 0.0);
    var i := |rs|;
    assert rs[..i] + Pool.Step(rs[i..], AgedRipple(dt), Faded) == rs;
    while i > 0
      invariant 0 <= i <= |rs|
      invariant ripples == rs[..i] + Pool.Step(rs[i..], AgedRipple(dt), Faded)
      invariant kick == KickSum(Pool.Step(rs[i..], AgedRipple(dt), Faded), at, ph, dt, m)
    {
      i := i - 1;
      Pool.SpliceStep(rs, i, AgedRipple(dt), Faded, ripples);
      ghost var tail := Pool.Step(rs[i + 1..], AgedRipple(dt), Faded);
      var ripple := ripples[i];
      ripple := ripple.(age := ripple.age + dt);
      assert ripple == AgedRipple(dt)(rs[i]);
      if ripple.age > RippleLife {
        assert Pool.Step(rs[i..], AgedRipple(dt), Faded) == tail;
        ripples := ripples[..i] + ripples[i + 1..];
        continue;
      }
      ripples := ripples[..i] + [ripple] + ripples[i + 1..];
      var h := m.hypot(at.x - ripple.x, at.y - ripple.y);
      var k := Kick(at, ripple, h, ph, dt);
      assert Pool.Step(rs[i..], AgedRipple(dt), Faded) == [ripple] + tail;
      assert ([ripple] + tail)[0] == ripple && ([ripple] + tail)[1..] == tail;
      assert KickSum([ripple] + tail, at, ph, dt, m) == Point(kick.x + k.x, kick.y + k.y);
      kick := Point(kick.x + k.x, kick.y + k.y);
    }
    assert rs[..0] == [] && rs[0..] == rs;
  }

  /**
   * The long-press latch. When it fires (see `LatchFires`), the long-press effect is dropped at
   * the pointer's world position and the latch is set; otherwise nothing changes.
   */
  method Latch(s: Scene, now: real, u: real) returns (fired: bool)
    requires s.Valid() && 0.0 <= u < 1.0
    modifies s`pointer, s`droplets, s`wobble, s`ripples
    ensures s.Valid()
    ensures fired == LatchFires(old(s.pointer), now)
    ensures s.pointer == old(s.pointer).(longPressTriggered := old(s.pointer).longPressTriggered || fired)
    ensures var w := PressPoint(s.cam, old(s.pointer));
      s.ripples == old(s.ripples) + (if fired then [Ripple(w.x, w.y, 0.0, 1.6)] else [])
    ensures var w := PressPoint(s.cam, old(s.pointer));
      s.droplets == old(s.droplets) + (if fired then [LongPressDroplet(w.x, w.y, u)] else [])
    ensures s.wobble == if fired then Wobble(0.0, 1.0) else old(s.wobble)
  {
    fired := false;
    if s.pointer.down && !s.pointer.draggingBall && !s.pointer.longPressTriggered {
      var held := (now - s.pointer.downAt) / 1000.0;
      if held > LatchDelay {
        var w := PressPoint(s.cam, s.pointer);
        s.TriggerLongPress(w.x, w.y, u);
        s.pointer := s.pointer.(longPressTriggered := true);
        fired := true;
      }
    }
  }

  /**
   * `applyForces(dt, audio)` for the physics parameters `ph` and the radius curves `inkCurve` and
   * `ballCurve`. The ball does not move; its velocity is the forced velocity under the speed
   * limit, its radii follow the new smoothed energy, the ripple pool is aged and pruned, and the
   * long-press latch may fire once.
   */
  method ApplyForces(s: Scene, ph: PhysicsParams, inkCurve: RadiusCurve, ballCurve: RadiusCurve,
                     dt: real, audio: Audio.Snapshot, now: real, m: Library, u: real)
    requires s.Valid() && Lawful(m) && Pythagorean(m) && PhysicsOk(ph) && CurveOk(inkCurve) && CurveOk(ballCurve)
    requires dt >= 0.0 && 0.0 <= u < 1.0
    requires 0.0 <= audio.energy <= 1.0 && 0.0 <= audio.low <= 1.0 && 0.0 <= audio.high <= 1.0
    modifies s`ball, s`smooth, s`ripples, s`pointer, s`droplets, s`wobble
    ensures s.Valid()
    ensures var k := SmoothFactor(m, dt);
      s.smooth == Smoothed(Approach(old(s.smooth).energy, audio.energy, k),
                           Approach(old(s.smooth).low, audio.low, k),
                           Approach(old(s.smooth).high, audio.high, k))
    ensures s.ball.x == old(s.ball).x && s.ball.y == old(s.ball).y
    ensures s.ball.inkR == RadiusFor(inkCurve, m, s.smooth.energy)
    ensures s.ball.r == RadiusFor(ballCurve, m, s.smooth.energy)
    ensures inkCurve.base <= s.ball.inkR && ballCurve.base <= s.ball.r
    ensures s.ball.vx * s.ball.vx + s.ball.vy * s.ball.vy <= ph.maxSpeed * ph.maxSpeed
    ensures s.pointer == old(s.pointer).(longPressTriggered := old(s.pointer).longPressTriggered || LatchFires(old(s.pointer), now))
    ensures var w := PressPoint(s.cam, old(s.pointer));
      s.ripples == Pool.Step(old(s.ripples), AgedRipple(dt), Faded)
                   + (if LatchFires(old(s.pointer), now) then [Ripple(w.x, w.y, 0.0, 1.6)] else [])
    ensures var w := PressPoint(s.cam, old(s.pointer));
      s.droplets == old(s.droplets) + (if LatchFires(old(s.pointer), now) then [LongPressDroplet(w.x, w.y, u)] else [])
    ensures s.wobble == Wobbled(if LatchFires(old(s.pointer), now) then Wobble(0.0, 1.0) else old(s.wobble), dt, m.exp(-dt * ph.wobbleDecay))
    ensures var pre := Forced(old(s.ball), s.smooth, ph, dt, now, m, Pool.Step(old(s.ripples), AgedRipple(dt), Faded), s.wobble,
                              (if LatchFires(old(s.pointer), now) then 1.0 else old(s.wobble).strength) > 0.001);
      Point(s.ball.vx, s.ball.vy) == SpeedLimited(pre, ph.maxSpeed, m)
  {
    var fired := Accelerate(s, ph, dt, audio, now, m, u);
    ShapeBall(s, ph, inkCurve, ballCurve, m);
  }

  /**
   * `applyForces` up to the radii: the steering forces, then the ripple loop, the latch and the
   * wobble. The ball keeps its position and radii and takes the forced velocity.
   */
  method Accelerate(s: Scene, ph: PhysicsParams, dt: real, audio: Audio.Snapshot, now: real, m: Library, u: real)
    returns (fired: bool)
    requires s.Valid() && Lawful(m) && PhysicsOk(ph) && dt >= 0.0 && 0.0 <= u < 1.0
    requires 0.0 <= audio.energy <= 1.0 && 0.0 <= audio.low <= 1.0 && 0.0 <= audio.high <= 1.0
    modifies s`ball, s`smooth, s`ripples, s`pointer, s`droplets, s`wobble
    ensures s.Valid()
    ensures fired == LatchFires(old(s.pointer), now)
    ensures var k := SmoothFactor(m, dt);
      s.smooth == Smoothed(Approach(old(s.smooth).energy, audio.energy, k),
                           Approach(old(s.smooth).low, audio.low, k),
                           Approach(old(s.smooth).high, audio.high, k))
    ensures s.pointer == old(s.pointer).(longPressTriggered := old(s.pointer).longPressTriggered || fired)
    ensures var w := PressPoint(s.cam, old(s.pointer));
      s.ripples == Pool.Step(old(s.ripples), AgedRipple(dt), Faded) + (if fired then [Ripple(w.x, w.y, 0.0, 1.6)] else [])
    ensures var w := PressPoint(s.cam, old(s.pointer));
      s.droplets == old(s.droplets) + (if fired then [LongPressDroplet(w.x, w.y, u)] else [])
    ensures s.wobble == Wobbled(if fired then Wobble(0.0, 1.0) else old(s.wobble), dt, m.exp(-dt * ph.wobbleDecay))
    ensures s.ball.Pos() == old(s.ball).Pos() && s.ball.r == old(s.ball).r && s.ball.inkR == old(s.ball).inkR
    ensures Point(s.ball.vx, s.ball.vy)
      == Forced(old(s.ball), s.smooth, ph, dt, now, m, Pool.Step(old(s.ripples), AgedRipple(dt), Faded), s.wobble,
                (if fired then 1.0 else old(s.wobble).strength) > 0.001)
  {
    SteerBall(s, ph, dt, audio, now, m);
    fired := Effects(s, ph, dt, now, m, u);
  }

  /**
   * The middle of `applyForces`: the ripple loop, the long-press latch and the wobble, in that
   * order. The ball keeps its position and radii; its velocity gains the ripple kicks and, if the
   * wobble is active after the latch, the wobble kick.
   */
  method Effects(s: Scene, ph: PhysicsParams, dt: real, now: real, m: Library, u: real) returns (fired: bool)
    requires s.Valid() && Lawful(m) && PhysicsOk(ph) && dt >= 0.0 && 0.0 <= u < 1.0
    modifies s`ball, s`ripples, s`pointer, s`droplets, s`wobble
    ensures s.Valid()
    ensures fired == LatchFires(old(s.pointer), now)
    ensures s.pointer == old(s.pointer).(longPressTriggered := old(s.pointer).longPressTriggered || fired)
    ensures var w := PressPoint(s.cam, old(s.pointer));
      s.ripples == Pool.Step(old(s.ripples), AgedRipple(dt), Faded) + (if fired then [Ripple(w.x, w.y, 0.0, 1.6)] else [])
    ensures var w := PressPoint(s.cam, old(s.pointer));
      s.droplets == old(s.droplets) + (if fired then [LongPressDroplet(w.x, w.y, u)] else [])
    ensures s.wobble == Wobbled(if fired then Wobble(0.0, 1.0) else old(s.wobble), dt, m.exp(-dt * ph.wobbleDecay))
    ensures s.ball.Pos() == old(s.ball).Pos() && s.ball.r == old(s.ball).r && s.ball.inkR == old(s.ball).inkR
    ensures Point(s.ball.vx, s.ball.vy) == Kicked(old(s.ball), Pool.Step(old(s.ripples), AgedRipple(dt), Faded), s.wobble,
                                                 (if fired then 1.0 else old(s.wobble).strength) > 0.001, ph, dt, m)
  {
    AgeRipples(s, ph, dt, m);
    fired := Latch(s, now, u);
    WobbleStep(s, ph, dt, m);
  }

  /** The world position under the pointer, where a long press drops its effect. */
  function PressPoint(cam: Point, p: DragPointer): (w: Point)
    ensures WorldToScreen(cam, w) == Point(p.x, p.y)
  {
    ScreenToWorld(cam, Point(p.x, p.y))
  }

  /**
   * The first part of `applyForces`: friction, the audio smoothing with `k = 1 - 0.001^dt`, the
   * drift and the audio push (which reads the smoothed energy just computed).
   */
  method SteerBall(s: Scene, ph: PhysicsParams, dt: real, audio: Audio.Snapshot, now: real, m: Library)
    requires s.Valid() && Lawful(m) && dt >= 0.0
    requires 0.0 <= audio.energy <= 1.0 && 0.0 <= audio.low <= 1.0 && 0.0 <= audio.high <= 1.0
    modifies s`ball, s`smooth
    ensures s.Valid()
    ensures var k := SmoothFactor(m, dt);
      s.smooth == Smoothed(Approach(old(s.smooth).energy, audio.energy, k),
                           Approach(old(s.smooth).low, audio.low, k),
                           Approach(old(s.smooth).high, audio.high, k))
    ensures s.ball == Steered(old(s.ball), s.smooth, ph, dt, now, m)
  {
    var vx, vy := s.ball.vx * ph.friction, s.ball.vy * ph.friction;

    var smooth := SmoothFactor(m, dt);
    var sm := s.smooth;
    ApproachStaysIn(sm.energy, audio.energy, smooth, 0.0, 1.0);
    ApproachStaysIn(sm.low, audio.low, smooth, 0.0, 1.0);
    ApproachStaysIn(sm.high, audio.high, smooth, 0.0, 1.0);
    sm := Smoothed(Approach(sm.energy, audio.energy, smooth),
                   Approach(sm.low, audio.low, smooth),
                   Approach(sm.high, audio.high, smooth));

    var drift := Drift(m, now, ph.drift, dt);
    vx, vy := vx + drift.x, vy + drift.y;
    var push := AudioPush(m, now, sm, ph, dt);
    vx, vy := vx + push.x, vy + push.y;

    s.smooth := sm;
    s.ball := s.ball.(vx := vx, vy := vy);
  }

  /** The wobble part of `applyForces`: an active wobble advances, decays and kicks the ball. */
  method WobbleStep(s: Scene, ph: PhysicsParams, dt: real, m: Library)
    requires s.Valid() && Lawful(m) && PhysicsOk(ph) && dt >= 0.0
    modifies s`wobble, s`ball
    ensures s.Valid()
    ensures s.wobble == Wobbled(old(s.wobble), dt, m.exp(-dt * ph.wobbleDecay))
    ensures var wk := if old(s.wobble).strength > 0.001 then WobbleKick(m, s.wobble, ph, dt) else Point(0.0, 0.0);
      s.ball == old(s.ball).(vx := old(s.ball).vx + wk.x, vy := old(s.ball).vy + wk.y)
  {
    NonNegProduct(dt, ph.wobbleDecay);
    var wobbling := s.wobble.strength > 0.001;
    var decay := m.exp(-dt * ph.wobbleDecay);
    s.wobble := Wobbled(s.wobble, dt, decay);
    if wobbling {
      var wk := WobbleKick(m, s.wobble, ph, dt);
      s.ball := s.ball.(vx := s.ball.vx + wk.x, vy := s.ball.vy + wk.y);
    }
  }

  lemma NonNegProduct(a: real, b: real)
    requires a >= 0.0 && b >= 0.0
    ensures -a * b <= 0.0
  {
  }

  /** The last part of `applyForces`: radii from the smoothed energy, then the speed limit. */
  method ShapeBall(s: Scene, ph: PhysicsParams, inkCurve: RadiusCurve, ballCurve: RadiusCurve, m: Library)
    requires s.Valid() && Lawful(m) && Pythagorean(m) && PhysicsOk(ph) && CurveOk(inkCurve) && CurveOk(ballCurve)
    modifies s`ball
    ensures s.Valid()
    ensures s.ball.x == old(s.ball).x && s.ball.y == old(s.ball).y
    ensures s.ball.inkR == RadiusFor(inkCurve, m, s.smooth.energy)
    ensures s.ball.r == RadiusFor(ballCurve, m, s.smooth.energy)
    ensures s.ball.vx * s.ball.vx + s.ball.vy * s.ball.vy <= ph.maxSpeed * ph.maxSpeed
    ensures Point(s.ball.vx, s.ball.vy) == SpeedLimited(Point(old(s.ball).vx, old(s.ball).vy), ph.maxSpeed, m)
  {
    s.ball := s.ball.(inkR := RadiusFor(inkCurve, m, s.smooth.energy),
                      r := RadiusFor(ballCurve, m, s.smooth.energy));

    var v := SpeedLimited(Point(s.ball.vx, s.ball.vy), ph.maxSpeed, m);
    s.ball := s.ball.(vx := v.x, vy := v.y);
  }

  /** `integrate(dt)`: the ball moves by its velocity times `dt`; nothing else changes. */
  method Integrate(s: Scene, dt: real)
    modifies s`ball
    ensures s.ball == old(s.ball).(x := old(s.ball).x + old(s.ball).vx * dt, y := old(s.ball).y + old(s.ball).vy * dt)
  {
    s.ball := s.ball.(x := s.ball.x + s.ball.vx * dt, y := s.ball.y + s.ball.vy * dt);
  }

  /** The unit vector `(dx, dy) / d` for `d = |(dx, dy)| > 0`. */
  lemma UnitNormal(dx: real, dy: real, d: real)
    requires d > 0.0 && d * d == dx * dx + dy * dy
    ensures (dx / d) * (dx / d) + (dy / d) * (dy / d) == 1.0
  {
    var nx, ny := dx / d, dy / d;
    ScaledSquares(nx, ny, d, dx, dy);
    CancelSquare(nx * nx + ny * ny, d);
  }

  lemma ScaledSquares(nx: real, ny: real, d: real, dx: real, dy: real)
    requires nx * d == dx && ny * d == dy
    requires d * d == dx * dx + dy * dy
    ensures (nx * nx + ny * ny) * (d * d) == d * d
  {
    calc {
      (nx * nx + ny * ny) * (d * d);
      (nx * d) * (nx * d) + (ny * d) * (ny * d);
      dx * dx + dy * dy;
      d * d;
    }
  }

  lemma CancelSquare(a: real, d: real)
    requires d > 0.0 && a * (d * d) == d * d
    ensures a == 1.0
  {
  }

  /**
   * `bounceInCircle` on the ball `b` in the world `w`, with `d = Math.hypot` of the offset from the
   * centre. Inside the limit `R - r` nothing changes. Outside, the ball is put back on the circle
   * of radius `R - r` along the same ray, and its velocity is reflected about the normal, scaled by
   * the restitution, and given a tangential spin.
   */
  function Bounced(b: Ball, w: World, d: real, restitution: real, spin: real): (nb: Ball)
    requires d >= 0.0 && d * d == (b.x - w.cx) * (b.x - w.cx) + (b.y - w.cy) * (b.y - w.cy)
    ensures d <= w.R - b.r ==> nb == b
    ensures nb.r == b.r && nb.inkR == b.inkR
    ensures d > w.R - b.r && d > 0.0 ==> Dist2(nb.Pos(), w.Centre()) == (w.R - b.r) * (w.R - b.r)
    ensures w.R >= b.r ==> Dist2(nb.Pos(), w.Centre()) <= (w.R - b.r) * (w.R - b.r)
  {
    var dx, dy := b.x - w.cx, b.y - w.cy;
    var limit := w.R - b.r;
    if d > limit then
      var nx, ny := dx / (if d == 0.0 then 1.0 else d), dy / (if d == 0.0 then 1.0 else d);
      var dot := b.vx * nx + b.vy * ny;
      var vx, vy := (b.vx - 2.0 * dot * nx) * restitution, (b.vy - 2.0 * dot * ny) * restitution;
      var nb := b.(x := w.cx + nx * limit, y := w.cy + ny * limit, vx := vx + -ny * spin, vy := vy + nx * spin);
      OnCircle(dx, dy, d, limit, nx, ny);
      nb
    else
      assert Dist2(b.Pos(), w.Centre()) == d * d;
      if w.R >= b.r then SquareMono(d, limit); b else b
  }

  lemma OnCircle(dx: real, dy: real, d: real, limit: real, nx: real, ny: real)
    requires d >= 0.0 && d * d == dx * dx + dy * dy && d > limit
    requires nx == dx / (if d == 0.0 then 1.0 else d) && ny == dy / (if d == 0.0 then 1.0 else d)
    ensures d > 0.0 ==> (nx * limit) * (nx * limit) + (ny * limit) * (ny * limit) == limit * limit
  {
    if d > 0.0 {
      UnitNormal(dx, dy, d);
      assert (nx * limit) * (nx * limit) + (ny * limit) * (ny * limit) == (nx * nx + ny * ny) * (limit * limit);
    }
  }

  /**
   * The velocity after a bounce, in the frame of the unit normal `n` and the tangent `(-n.y, n.x)`:
   * the normal component is reversed and scaled by the restitution, and the tangential component
   * is scaled by the restitution and gains the spin.
   */
  lemma BounceVelocity(b: Ball, w: World, d: real, restitution: real, spin: real)
    requires d >= 0.0 && d * d == (b.x - w.cx) * (b.x - w.cx) + (b.y - w.cy) * (b.y - w.cy)
    requires d > w.R - b.r && d > 0.0
    ensures var nb, nx, ny := Bounced(b, w, d, restitution, spin), (b.x - w.cx) / d, (b.y - w.cy) / d;
      && nb.vx * nx + nb.vy * ny == -restitution * (b.vx * nx + b.vy * ny)
      && nb.vx * -ny + nb.vy * nx == restitution * (b.vx * -ny + b.vy * nx) + spin
  {
    var nx, ny := (b.x - w.cx) / d, (b.y - w.cy) / d;
    UnitNormal(b.x - w.cx, b.y - w.cy, d);
    var dot := b.vx * nx + b.vy * ny;
    var nb := Bounced(b, w, d, restitution, spin);
    assert nb.vx == (b.vx - 2.0 * dot * nx) * restitution + -ny * spin;
    assert nb.vy == (b.vy - 2.0 * dot * ny) * restitution + nx * spin;
    Reflect(b.vx, b.vy, nx, ny, restitution, spin, nb.vx, nb.vy);
  }

  /**
   * Reflecting `v` about a unit normal `n`, scaling by `r` and adding `s` along the tangent
   * `(-n.y, n.x)`: the normal component is reversed and scaled, the tangential one scaled and
   * shifted by `s`.
   */
  lemma Reflect(vx: real, vy: real, nx: real, ny: real, r: real, s: real, wx: real, wy: real)
    requires nx * nx + ny * ny == 1.0
    requires wx == (vx - 2.0 * (vx * nx + vy * ny) * nx) * r + -ny * s
    requires wy == (vy - 2.0 * (vx * nx + vy * ny) * ny) * r + nx * s
    ensures wx * nx + wy * ny == -r * (vx * nx + vy * ny)
    ensures wx * -ny + wy * nx == r * (vx * -ny + vy * nx) + s
  {
    var dot := vx * nx + vy * ny;
    calc {
      wx * nx + wy * ny;
      r * (dot - 2.0 * dot * (nx * nx + ny * ny));
      -r * dot;
    }
    calc {
      wx * -ny + wy * nx;
      r * (vx * -ny + vy * nx) + s * (nx * nx + ny * ny);
      r * (vx * -ny + vy * nx) + s;
    }
  }

  /** `bounceInCircle()` on the scene, with the restitution and spin of `ph`. */
  method BounceInCircle(s: Scene, ph: PhysicsParams, m: Library)
    requires Lawful(m) && Pythagorean(m)
    modifies s`ball
    ensures var d := m.hypot(old(s.ball).x - s.world.cx, old(s.ball).y - s.world.cy);
      s.ball == Bounced(old(s.ball), s.world, d, ph.restitution, ph.spin)
    ensures s.world.R >= s.ball.r ==> Dist2(s.ball.Pos(), s.world.Centre()) <= (s.world.R - s.ball.r) * (s.world.R - s.ball.r)
  {
    var dx, dy := s.ball.x - s.world.cx, s.ball.y - s.world.cy;
    var d := m.hypot(dx, dy);
    s.ball := Bounced(s.ball, s.world, d, ph.restitution, ph.spin);
  }
}
