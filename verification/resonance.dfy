/**
 * The resonance system: a single-pointer gesture recogniser that turns presses, drags, releases,
 * holds and the voice into short-lived visual events. Each event enters the pool at age 0 and
 * leaves it once its age reaches its time to live. The shared ball and the camera used by
 * `screenToWorld` are passed in as values. So are the clock (`now`, in milliseconds), the
 * browser's `Math.hypot` and the random draws.
 */
module Resonance {
  import opened Wrappers
  import opened Maths
  import opened Geometry
  import Pool
  import Audio
  import Scene

  /** A second press this soon (ms) and this close (px) to the tap anchor is a double tap. */
  const TapWindow: real := 320.0
  const TapDistance: real := 36.0
  /** Seconds a press must be held to count as a long press. */
  const LongPressTime: real := 0.5

  datatype Kind =
    | DoubleTapPulse | PressPulse | DragTrace | DragVibrato | BallSplash | TapWave
    | VoiceHalo | VoiceAttack | LongPressInk

  /** One splash ellipse of a splash or burst event. */
  datatype Splash = Splash(angle: real, radius: real, rx: real, ry: real, rotation: real)

  /** An event of the pool. Fields the source leaves out of an event are `None` or empty. */
  datatype Event = Event(
    kind: Kind, age: real, origin: Point, target: Option<Point>, intensity: real,
    tone: Option<real>, ttl: real, phase: Option<real>, splashes: seq<Splash>)

  /**
   * The audio state handed to `update`: `centroid` and `attack` are optional because the audio
   * engine's `getState` does not provide them.
   */
  datatype AudioIn = AudioIn(on: bool, energy: real, low: real, centroid: Option<real>, attack: Option<real>)

  /** What a press landed on. */
  datatype Target = BallTarget | WorldTarget

  datatype Pointer = Pointer(
    down: bool, id: Option<int>, x: real, y: real, lastX: real, lastY: real, pressure: real,
    downAt: real, target: Target, moved: bool, longPressArmed: bool,
    lastTapAt: real, lastTapX: real, lastTapY: real)

  /** An event as it enters the pool: age 0, a positive time to live, an intensity in [0, 1]. */
  predicate Fresh(e: Event)
  {
    e.age == 0.0 && e.ttl > 0.0 && 0.0 <= e.intensity <= 1.0
  }

  /** An event still in the pool: not yet expired, intensity in [0, 1]. */
  predicate Live(e: Event)
  {
    0.0 <= e.age < e.ttl && 0.0 <= e.intensity <= 1.0
  }

  /** Ageing by `dt`, as `updateEvents` does to every event. */
  function Aged(dt: real): Event -> Event
  {
    (e: Event) => e.(age := e.age + dt)
  }

  /** `event.age >= event.ttl`: the event leaves the pool. */
  function Expired(e: Event): bool
  {
    e.age >= e.ttl
  }

  /**
   * `updateEvents(dt)` as a value: every survivor is the aged copy of an event of the pool, the
   * pool order is kept, and the event at position `p` survives iff its aged copy has not expired.
   */
  lemma UpdateEventsExact(es: seq<Event>, dt: real)
    ensures var r, ks := Pool.Step(es, Aged(dt), Expired), Pool.Kept(es, Aged(dt), Expired);
      && |r| == |ks| && Pool.Increasing(ks)
      && (forall i :: 0 <= i < |ks| ==> r[i] == es[ks[i]].(age := es[ks[i]].age + dt))
      && (forall p :: 0 <= p < |es| ==> (p in ks <==> es[p].age + dt < es[p].ttl))
      && (forall i :: 0 <= i < |r| ==> r[i].age < r[i].ttl)
  {
    Pool.StepAt(es, Aged(dt), Expired);
    Pool.KeptIncreasing(es, Aged(dt), Expired);
    forall p | 0 <= p < |es|
      ensures p in Pool.Kept(es, Aged(dt), Expired) <==> es[p].age + dt < es[p].ttl
    {
      Pool.KeptExactly(es, Aged(dt), Expired, p);
    }
    var r := Pool.Step(es, Aged(dt), Expired);
    assert forall i :: 0 <= i < |r| ==> r[i] in r;
  }

  /**
   * The distance check of a double tap, with `Math.hypot` for the distance: a second press on the
   * anchor itself inside the window is one, a press a full window after the anchor never is.
   */
  function IsDoubleTap(p: Pointer, now: real, sx: real, sy: real, m: Library): (r: bool)
    ensures Pythagorean(m) && now - p.lastTapAt < TapWindow && sx == p.lastTapX && sy == p.lastTapY ==> r
    ensures now >= p.lastTapAt + TapWindow ==> !r
  {
    now - p.lastTapAt < TapWindow && m.hypot(sx - p.lastTapX, sy - p.lastTapY) < TapDistance
  }

  /** A press is a double tap iff it is under 320 ms after the anchor and under 36 px from it. */
  lemma DoubleTapBySquares(p: Pointer, now: real, sx: real, sy: real, m: Library)
    requires Lawful(m) && Pythagorean(m)
    ensures IsDoubleTap(p, now, sx, sy, m) <==>
      now - p.lastTapAt < 320.0 && Dist2(Point(sx, sy), Point(p.lastTapX, p.lastTapY)) < 36.0 * 36.0
  {
    var h := m.hypot(sx - p.lastTapX, sy - p.lastTapY);
    ShorterThan(h, Dist2(Point(sx, sy), Point(p.lastTapX, p.lastTapY)), 36.0);
  }

  /** For a length `h >= 0` with square `d2`, `h < c` iff `d2 < c^2`. */
  lemma ShorterThan(h: real, d2: real, c: real)
    requires h >= 0.0 && c > 0.0 && h * h == d2
    ensures h < c <==> d2 < c * c
  {
    if h < c {
      MulMono(h, c, h);
      MulStrict(h, c, c);
      calc {
        d2;
      ==
        h * h;
      <=
        h * c;
      <
        c * c;
      }
    } else {
      SquareMono(c, h);
    }
  }

  /**
   * `dist2(w, ball) <= ball.r * ball.r * 3.2`: the press landed on the ball. Every press on the
   * drawn disc does, and none further than twice the radius from its centre.
   */
  function HitsBall(w: Point, ball: Scene.Ball): (r: bool)
    ensures Dist2(w, ball.Pos()) <= ball.r * ball.r ==> r
    ensures r ==> Dist2(w, ball.Pos()) <= 4.0 * ball.r * ball.r
  {
    Dist2(w, ball.Pos()) <= ball.r * ball.r * 3.2
  }

  /** The `doubleTapPulse` a double tap emits, centred on the ball. */
  function DoubleTapEvent(ball: Scene.Ball): (e: Event)
    ensures Fresh(e) && e.kind == DoubleTapPulse && e.origin == ball.Pos()
  {
    Event(DoubleTapPulse, 0.0, ball.Pos(), None, 0.9, Some(0.5), 0.7, None, [])
  }

  /** A `pressPulse` from `origin` towards the ball. */
  function PressEvent(origin: Point, ball: Scene.Ball, intensity: real, ttl: real): (e: Event)
    requires 0.0 <= intensity <= 1.0 && ttl > 0.0
    ensures Fresh(e) && e.kind == PressPulse && e.origin == origin && e.target == Some(ball.Pos())
  {
    Event(PressPulse, 0.0, origin, Some(ball.Pos()), intensity, Some(0.4), ttl, None, [])
  }

  /** The last audio state is on with a centroid above 0.55. */
  predicate Vibrato(a: Option<AudioIn>)
  {
    a.Some? && a.value.on && a.value.centroid.Some? && a.value.centroid.value > 0.55
  }

  /** `audioState?.centroid ?? 0.5` */
  function DragTone(a: Option<AudioIn>): (t: real)
    ensures a.None? || a.value.centroid.None? ==> t == 0.5
  {
    if a.Some? && a.value.centroid.Some? then a.value.centroid.value else 0.5
  }

  /**
   * The drag event of a move of length `speed`: a vibrato when the voice is bright, a trace
   * otherwise, with intensity `clamp(speed / 30, 0.2, 1)`.
   */
  function DragEvent(a: Option<AudioIn>, start: Point, end: Point, speed: real): (e: Event)
    ensures Fresh(e) && 0.2 <= e.intensity <= 1.0
    ensures e.kind == DragVibrato <==> Vibrato(a)
    ensures e.kind == DragVibrato || e.kind == DragTrace
    ensures e.origin == start && e.target == Some(end)
  {
    Event(if Vibrato(a) then DragVibrato else DragTrace, 0.0, start, Some(end),
          Clamp(speed / 30.0, 0.2, 1.0), Some(DragTone(a)), 0.25, None, [])
  }

  /** Where a splash ellipse goes and how large it is: a base plus a random span for each size. */
  datatype SplashShape = SplashShape(radius: real, radiusSpan: real, rx: real, rxSpan: real, ry: real, rySpan: real)

  const BallSplashShape: SplashShape := SplashShape(22.0, 26.0, 10.0, 18.0, 6.0, 14.0)
  const AttackShape: SplashShape := SplashShape(18.0, 30.0, 6.0, 12.0, 4.0, 8.0)

  /** Every span of the shape is positive. */
  predicate Spread(sh: SplashShape)
  {
    sh.radiusSpan > 0.0 && sh.rxSpan > 0.0 && sh.rySpan > 0.0
  }

  /** Five draws of `Math.random()`, each in [0, 1). */
  predicate UnitDraws(d: (real, real, real, real, real))
  {
    && 0.0 <= d.0 < 1.0 && 0.0 <= d.1 < 1.0 && 0.0 <= d.2 < 1.0
    && 0.0 <= d.3 < 1.0 && 0.0 <= d.4 < 1.0
  }

  /** The splash lies in the ranges of the shape: an angle of a full turn, a half-turn rotation. */
  predicate InShape(sh: SplashShape, s: Splash)
  {
    && 0.0 <= s.angle < Pi * 2.0 && 0.0 <= s.rotation < Pi
    && sh.radius <= s.radius < sh.radius + sh.radiusSpan
    && sh.rx <= s.rx < sh.rx + sh.rxSpan
    && sh.ry <= s.ry < sh.ry + sh.rySpan
  }

  /** One splash from five random draws: angle, radius, the two ellipse radii and the rotation. */
  function SplashFrom(sh: SplashShape, d: (real, real, real, real, real)): Splash
  {
    Splash(d.0 * Pi * 2.0, sh.radius + d.1 * sh.radiusSpan, sh.rx + d.2 * sh.rxSpan,
           sh.ry + d.3 * sh.rySpan, d.4 * Pi)
  }

  /** Splashes drawn from draws in [0, 1) lie in their shape. */
  lemma DrawsInShape(sh: SplashShape, draws: seq<(real, real, real, real, real)>, n: nat)
    requires n <= |draws|
    ensures Spread(sh) && (forall i :: 0 <= i < n ==> UnitDraws(draws[i])) ==>
      forall i :: 0 <= i < n ==> InShape(sh, SplashFrom(sh, draws[i]))
  {
    if Spread(sh) && (forall i :: 0 <= i < n ==> UnitDraws(draws[i])) {
      forall i | 0 <= i < n
        ensures InShape(sh, SplashFrom(sh, draws[i]))
      {
        var d, sp := draws[i], SplashFrom(sh, draws[i]);
        assert sp.radius == sh.radius + d.1 * sh.radiusSpan && sp.rx == sh.rx + d.2 * sh.rxSpan;
        UnitSpan(d.0, 0.0, Pi * 2.0);
        UnitSpan(d.1, sh.radius, sh.radiusSpan);
        UnitSpan(d.2, sh.rx, sh.rxSpan);
        UnitSpan(d.3, sh.ry, sh.rySpan);
        UnitSpan(d.4, 0.0, Pi);
        assert d.0 * Pi * 2.0 == 0.0 + d.0 * (Pi * 2.0);
      }
    }
  }

  /**
   * `Array.from({ length: n }, ...)` over the first `n` draws: `n` splashes, each in the shape's
   * ranges when the draws are in [0, 1).
   */
  function Splashes(sh: SplashShape, draws: seq<(real, real, real, real, real)>, n: nat): (ss: seq<Splash>)
    requires n <= |draws|
    ensures |ss| == n
    ensures Spread(sh) && (forall i :: 0 <= i < n ==> UnitDraws(draws[i])) ==>
      forall i :: 0 <= i < n ==> InShape(sh, ss[i])
  {
    DrawsInShape(sh, draws, n);
    seq(n, i requires 0 <= i < n => SplashFrom(sh, draws[i]))
  }

  /** `6 + Math.floor(Math.random() * 7)`: between 6 and 12 splashes. */
  function SplashCount(u: real): (n: nat)
    requires 0.0 <= u < 1.0
    ensures 6 <= n <= 12
  {
    UnitFloor(u, 7);
    6 + (u * 7.0).Floor
  }

  /** The `ballSplash` of a quick tap on the ball; its time to live is in [0.45, 0.6). */
  function BallSplashEvent(ball: Scene.Ball, uCount: real, uTtl: real, draws: seq<(real, real, real, real, real)>): (e: Event)
    requires 0.0 <= uCount < 1.0 && 0.0 <= uTtl < 1.0 && SplashCount(uCount) <= |draws|
    ensures Fresh(e) && e.kind == BallSplash && e.origin == ball.Pos()
    ensures 6 <= |e.splashes| <= 12 && 0.45 <= e.ttl < 0.6
  {
    UnitSpan(uTtl, 0.45, 0.15);
    Event(BallSplash, 0.0, ball.Pos(), None, 0.9, Some(0.25), 0.45 + uTtl * 0.15, None,
          Splashes(BallSplashShape, draws, SplashCount(uCount)))
  }

  /** `audioState?.on && audioState.energy > 0.02` */
  predicate VoiceActive(a: Option<AudioIn>)
  {
    a.Some? && a.value.on && a.value.energy > 0.02
  }

  /**
   * The waves of a quick tap on the world: one `tapWave` from the press point towards the ball,
   * and a second, voiced one iff the voice is active.
   */
  function TapWaves(a: Option<AudioIn>, w: Point, ball: Scene.Ball): (es: seq<Event>)
    ensures |es| == (if VoiceActive(a) then 2 else 1)
    ensures forall i :: 0 <= i < |es| ==> Fresh(es[i]) && es[i].kind == TapWave && es[i].origin == w
    ensures |es| == 2 ==> 0.5 <= es[1].intensity <= 1.0 && es[1].phase == Some(0.35)
  {
    [Event(TapWave, 0.0, w, Some(ball.Pos()), 0.7, Some(0.35), 0.6, None, [])]
      + if VoiceActive(a) then
          [Event(TapWave, 0.0, w, Some(ball.Pos()), Clamp(0.5 + a.value.energy, 0.5, 1.0), a.value.centroid,
                 0.55, Some(0.35), [])]
        else []
  }

  /** Seconds since the press. */
  function Held(p: Pointer, now: real): real
  {
    (now - p.downAt) / 1000.0
  }

  /**
   * What a release emits: nothing after a move or a press of half a second or more; a splash
   * for a quick tap on the ball; the waves for a quick tap on the world.
   */
  function ReleaseEvents(p: Pointer, now: real, a: Option<AudioIn>, w: Point, ball: Scene.Ball,
                         uCount: real, uTtl: real, draws: seq<(real, real, real, real, real)>): (es: seq<Event>)
    requires 0.0 <= uCount < 1.0 && 0.0 <= uTtl < 1.0 && SplashCount(uCount) <= |draws|
    ensures forall i :: 0 <= i < |es| ==> Fresh(es[i])
    ensures p.moved || Held(p, now) >= LongPressTime ==> es == []
    ensures !p.moved && Held(p, now) < LongPressTime && p.target == BallTarget ==>
      |es| == 1 && es[0].kind == BallSplash && 6 <= |es[0].splashes| <= 12
    ensures !p.moved && Held(p, now) < LongPressTime && p.target == WorldTarget ==>
      |es| == (if VoiceActive(a) then 2 else 1) && forall i :: 0 <= i < |es| ==> es[i].kind == TapWave
  {
    if !p.moved && Held(p, now) < LongPressTime then
      if p.target == BallTarget then [BallSplashEvent(ball, uCount, uTtl, draws)] else TapWaves(a, w, ball)
    else []
  }

  /** `now < echoBoostUntil ? 1.35 : 1` */
  function Boost(now: real, until: real): (b: real)
    ensures b == 1.0 || b == 1.35
  {
    if now < until then 1.35 else 1.0
  }

  /** The voice has a transient: `audioState.attack > 0.08`. */
  predicate Attacking(a: AudioIn)
  {
    a.attack.Some? && a.attack.value > 0.08
  }

  /** `6 + Math.floor(attack * 10)` splashes for a burst. */
  function BurstCount(attack: real): (n: int)
    ensures attack > 0.08 ==> n >= 6
  {
    6 + (attack * 10.0).Floor
  }

  /** The draws a burst needs: as many as `BurstCount` when the voice is active and attacking. */
  predicate EnoughBurstDraws(a: AudioIn, draws: seq<(real, real, real, real, real)>)
  {
    a.on && a.energy > 0.02 && Attacking(a) ==> BurstCount(a.attack.value) <= |draws|
  }

  /**
   * The voice events of a frame: a `voiceHalo` iff the voice is active, followed by a
   * `voiceAttack` iff it is also attacking.
   */
  function VoiceEvents(a: AudioIn, ball: Scene.Ball, boost: real, draws: seq<(real, real, real, real, real)>): (es: seq<Event>)
    requires EnoughBurstDraws(a, draws)
    ensures forall i :: 0 <= i < |es| ==> Fresh(es[i]) && es[i].origin == ball.Pos()
    ensures |es| == (if VoiceActive(Some(a)) then (if Attacking(a) then 2 else 1) else 0)
    ensures |es| >= 1 ==> es[0].kind == VoiceHalo
    ensures |es| == 2 ==> es[1].kind == VoiceAttack && |es[1].splashes| == BurstCount(a.attack.value)
  {
    if a.on && a.energy > 0.02 then
      [Event(VoiceHalo, 0.0, ball.Pos(), None, Clamp(a.energy * boost, 0.0, 1.0), a.centroid, 0.25, None, [])]
        + if Attacking(a) then
            var n := BurstCount(a.attack.value);
            [Event(VoiceAttack, 0.0, ball.Pos(), None, Clamp(a.attack.value * boost * 2.0, 0.3, 1.0), a.centroid,
                   0.3, None, Splashes(AttackShape, draws, n))]
          else []
    else []
  }

  /**
   * The event of a pointer held down during a frame: a `longPressInk` once held half a second,
   * a `pressPulse` before that; both at the pointer's world position.
   */
  function HoldEvent(p: Pointer, now: real, a: AudioIn, cam: Point, ball: Scene.Ball): (e: Event)
    ensures Fresh(e) && e.origin == ScreenToWorld(cam, Point(p.x, p.y))
    ensures e.kind == (if Held(p, now) >= LongPressTime then LongPressInk else PressPulse)
    ensures e.kind == LongPressInk ==> 0.6 <= e.intensity <= 1.0 && e.tone == Some(a.low)
  {
    var w := ScreenToWorld(cam, Point(p.x, p.y));
    var held := Held(p, now);
    if held >= LongPressTime then
      Event(LongPressInk, 0.0, w, None, Clamp(0.6 + held * 0.15, 0.6, 1.0), Some(a.low), 0.22, None, [])
    else
      PressEvent(w, ball, 0.3, 0.2)
  }

  /** The pointer after `reset`: released, without an id, not moved and not armed. */
  function Cleared(p: Pointer): (q: Pointer)
    ensures !q.down && q.id.None? && !q.moved && !q.longPressArmed
    ensures q.x == p.x && q.y == p.y && q.lastTapAt == p.lastTapAt && q.target == p.target
  {
    p.(down := false, id := None, moved := false, longPressArmed := false)
  }

  /** Resetting twice is resetting once. */
  lemma ClearedIdempotent(p: Pointer)
    ensures Cleared(Cleared(p)) == Cleared(p)
  {
  }

  /** The audio state the audio engine reports: on and the levels, no centroid and no attack. */
  function FromSnapshot(s: Audio.Snapshot): (a: AudioIn)
    ensures VoiceActive(Some(a)) <==> s.on && s.energy > 0.02
    ensures !Vibrato(Some(a)) && !Attacking(a) && DragTone(Some(a)) == 0.5
  {
    AudioIn(s.on, s.energy, s.low, None, None)
  }

  /**
   * Fed from the audio engine, which reports no centroid and no attack, the system never emits a
   * `dragVibrato` or a `voiceAttack`, and the drag tone is always 0.5.
   */
  lemma EngineHasNoTimbre(s: Audio.Snapshot, ball: Scene.Ball, boost: real, start: Point, end: Point, speed: real)
    ensures var a := FromSnapshot(s);
      && DragEvent(Some(a), start, end, speed).kind == DragTrace
      && DragEvent(Some(a), start, end, speed).tone == Some(0.5)
      && forall e | e in VoiceEvents(a, ball, boost, []) :: e.kind == VoiceHalo
  {
    var es := VoiceEvents(FromSnapshot(s), ball, boost, []);
    assert forall i :: 0 <= i < |es| ==> es[i].kind == VoiceHalo;
  }

  class ResonanceSystem {
    var pointer: Pointer
    var echoBoostUntil: real
    var lastAudio: Option<AudioIn>
    var events: seq<Event>

    /** A pressed pointer has an id, and every pooled event is live. */
    ghost predicate Valid()
      reads this
    {
      && (pointer.down ==> pointer.id.Some?)
      && (forall i :: 0 <= i < |events| ==> Live(events[i]))
    }

    /** `createResonanceSystem(...)`: pointer up on the world, no tap yet, no audio, no events. */
    constructor ()
      ensures Valid()
      ensures pointer == Pointer(false, None, 0.0, 0.0, 0.0, 0.0, 0.0, 0.0, WorldTarget, false, false, 0.0, 0.0, 0.0)
      ensures echoBoostUntil == 0.0 && lastAudio.None? && events == []
    {
      pointer := Pointer(false, None, 0.0, 0.0, 0.0, 0.0, 0.0, 0.0, WorldTarget, false, false, 0.0, 0.0, 0.0);
      echoBoostUntil := 0.0;
      lastAudio := None;
      events := [];
    }

    /** `emit(event)`: the event goes to the end of the pool at age 0; the pool before it is kept. */
    method Emit(e: Event)
      requires Valid() && e.ttl > 0.0 && 0.0 <= e.intensity <= 1.0
      modifies this`events
      ensures Valid()
      ensures events == old(events) + [e.(age := 0.0)]
    {
      events := events + [e.(age := 0.0)];
    }

    /**
     * `updateEvents(dt)`: walking from the end, each event ages by `dt` and is spliced out once
     * its age reaches its time to live.
     */
    method UpdateEvents(dt: real)
      requires Valid() && dt >= 0.0
      modifies this`events
      ensures Valid()
      ensures events == Pool.Step(old(events), Aged(dt), Expired)
    {
      ghost var orig := events;
      var i := |events|;
      assert orig[..i] + Pool.Step(orig[i..], Aged(dt), Expired) == orig;
      while i > 0
        invariant 0 <= i <= |orig|
        invariant events == orig[..i] + Pool.Step(orig[i..], Aged(dt), Expired)
      {
        i := i - 1;
        Pool.SpliceStep(orig, i, Aged(dt), Expired, events);
        var event := events[i];
        event := event.(age := event.age + dt);
        assert event == Aged(dt)(orig[i]);
        if event.age >= event.ttl {
          events := events[..i] + events[i + 1..];
        } else {
          events := events[..i] + [event] + events[i + 1..];
        }
      }
      assert orig[..0] == [] && orig[0..] == orig;
      Pool.StepKeeps(orig, Aged(dt), Expired, (e: Event) => 0.0 <= e.age && 0.0 <= e.intensity <= 1.0);
      forall i | 0 <= i < |events|
        ensures Live(events[i])
      {
        assert events[i] in events;
      }
    }

    /**
     * `handlePointerDown`: the pointer is pressed at `(sx, sy)` and the press is classified. A
     * double tap clears the tap time, starts the echo boost and emits a `doubleTapPulse` on the
     * ball; any other press becomes the new tap anchor and emits a `pressPulse` from the press
     * point. Either way the target is the ball iff the press is near enough to it.
     */
    method PointerDown(id: int, sx: real, sy: real, pressure: Option<real>, now: real,
                       ball: Scene.Ball, cam: Point, m: Library)
      requires Valid()
      modifies this`pointer, this`echoBoostUntil, this`events
      ensures Valid()
      ensures pointer.down && pointer.id == Some(id) && pointer.x == sx && pointer.y == sy
      ensures pointer.lastX == sx && pointer.lastY == sy && pointer.downAt == now
      ensures pointer.pressure == pressure.GetOr(0.5) && !pointer.moved && pointer.longPressArmed
      ensures pointer.target == if HitsBall(ScreenToWorld(cam, Point(sx, sy)), ball) then BallTarget else WorldTarget
      ensures IsDoubleTap(old(pointer), now, sx, sy, m) ==>
        && pointer.lastTapAt == 0.0 && pointer.lastTapX == old(pointer).lastTapX && pointer.lastTapY == old(pointer).lastTapY
        && echoBoostUntil == now + 1100.0
        && events == old(events) + [DoubleTapEvent(ball)]
      ensures !IsDoubleTap(old(pointer), now, sx, sy, m) ==>
        && pointer.lastTapAt == now && pointer.lastTapX == sx && pointer.lastTapY == sy
        && echoBoostUntil == old(echoBoostUntil)
        && events == old(events) + [PressEvent(ScreenToWorld(cam, Point(sx, sy)), ball, 0.4, 0.35)]
    {
      var isDoubleTap := IsDoubleTap(pointer, now, sx, sy, m);
      var w := ScreenToWorld(cam, Point(sx, sy));
      var onBall := HitsBall(w, ball);
      pointer := pointer.(down := true, id := Some(id), x := sx, y := sy, lastX := sx, lastY := sy,
                          pressure := pressure.GetOr(0.5), downAt := now, moved := false, longPressArmed := true,
                          target := if onBall then BallTarget else WorldTarget);
      if isDoubleTap {
        pointer := pointer.(lastTapAt := 0.0);
        echoBoostUntil := now + 1100.0;
        Emit(DoubleTapEvent(ball));
        return;
      }
      pointer := pointer.(lastTapAt := now, lastTapX := sx, lastTapY := sy);
      Emit(PressEvent(w, ball, 0.4, 0.35));
    }

    /**
     * `handlePointerMove`: ignored unless the pointer is down with this id. Otherwise the pointer
     * follows `(sx, sy)`, `moved` latches once a step is longer than 2 px, and a step longer than
     * 0.5 px emits a drag event from the previous to the new position.
     */
    method PointerMove(id: int, sx: real, sy: real, pressure: Option<real>, cam: Point, m: Library)
      requires Valid()
      modifies this`pointer, this`events
      ensures Valid()
      ensures !old(pointer).down || old(pointer).id != Some(id) ==> pointer == old(pointer) && events == old(events)
      ensures old(pointer).down && old(pointer).id == Some(id) ==>
        var p := old(pointer);
        var speed := m.hypot(sx - p.lastX, sy - p.lastY);
        && pointer == p.(moved := p.moved || speed > 2.0, lastX := sx, lastY := sy, x := sx, y := sy,
                         pressure := pressure.GetOr(p.pressure))
        && events == old(events)
             + if speed > 0.5
               then [DragEvent(lastAudio, ScreenToWorld(cam, Point(p.lastX, p.lastY)), ScreenToWorld(cam, Point(sx, sy)), speed)]
               else []
      ensures old(pointer).moved ==> pointer.moved
    {
      if !pointer.down || pointer.id != Some(id) {
        return;
      }
      var dx, dy := sx - pointer.lastX, sy - pointer.lastY;
      var speed := m.hypot(dx, dy);
      pointer := pointer.(moved := pointer.moved || speed > 2.0, lastX := sx, lastY := sy, x := sx, y := sy,
                          pressure := pressure.GetOr(pointer.pressure));
      if speed > 0.5 {
        var start := ScreenToWorld(cam, Point(pointer.lastX - dx, pointer.lastY - dy));
        var end := ScreenToWorld(cam, Point(pointer.lastX, pointer.lastY));
        Emit(DragEvent(lastAudio, start, end, speed));
      }
    }

    /**
     * `handlePointerUp`: ignored for another id. A press held past the long-press time after the
     * long press fired only lifts the pointer (it keeps its id). Otherwise the release emits
     * `ReleaseEvents` and the pointer is lifted, loses its id and is disarmed. `uCount`, `uTtl`
     * and `draws` are the random values of a splash.
     */
    method PointerUp(id: int, now: real, cam: Point, ball: Scene.Ball,
                     uCount: real, uTtl: real, draws: seq<(real, real, real, real, real)>)
      requires Valid()
      requires 0.0 <= uCount < 1.0 && 0.0 <= uTtl < 1.0 && SplashCount(uCount) <= |draws|
      modifies this`pointer, this`events
      ensures Valid()
      ensures old(pointer).id != Some(id) ==> pointer == old(pointer) && events == old(events)
      ensures old(pointer).id == Some(id) && !old(pointer).longPressArmed && Held(old(pointer), now) > LongPressTime ==>
        pointer == old(pointer).(down := false) && events == old(events)
      ensures old(pointer).id == Some(id) && (old(pointer).longPressArmed || Held(old(pointer), now) <= LongPressTime) ==>
        && pointer == old(pointer).(down := false, id := None, longPressArmed := false)
        && events == old(events)
             + ReleaseEvents(old(pointer), now, lastAudio, ScreenToWorld(cam, Point(old(pointer).x, old(pointer).y)),
                             ball, uCount, uTtl, draws)
    {
      if pointer.id != Some(id) {
        return;
      }
      var duration := Held(pointer, now);
      var w := ScreenToWorld(cam, Point(pointer.x, pointer.y));
      if !pointer.longPressArmed && duration > LongPressTime {
        pointer := pointer.(down := false);
        return;
      }
      if !pointer.moved && duration < LongPressTime {
        if pointer.target == BallTarget {
          Emit(BallSplashEvent(ball, uCount, uTtl, draws));
        } else {
          var waves := TapWaves(lastAudio, w, ball);
          Emit(waves[0]);
          if VoiceActive(lastAudio) {
            Emit(waves[1]);
          }
          assert waves == [waves[0]] + (if VoiceActive(lastAudio) then [waves[1]] else []);
        }
      }
      pointer := pointer.(down := false, id := None, longPressArmed := false);
    }

    /**
     * `update(dt, audioState)`: age the pool, remember the audio state, emit the voice events
     * (boosted for a while after a double tap), then, while the pointer is down, the hold event;
     * holding past the long-press time disarms the pointer.
     */
    method Update(dt: real, audio: AudioIn, now: real, ball: Scene.Ball, cam: Point,
                  draws: seq<(real, real, real, real, real)>)
      requires Valid() && dt >= 0.0 && EnoughBurstDraws(audio, draws)
      modifies this`events, this`lastAudio, this`pointer
      ensures Valid()
      ensures lastAudio == Some(audio)
      ensures events == Pool.Step(old(events), Aged(dt), Expired)
        + VoiceEvents(audio, ball, Boost(now, echoBoostUntil), draws)
        + (if old(pointer).down then [HoldEvent(old(pointer), now, audio, cam, ball)] else [])
      ensures pointer == old(pointer).(longPressArmed :=
        old(pointer).longPressArmed && !(old(pointer).down && Held(old(pointer), now) >= LongPressTime))
    {
      UpdateEvents(dt);
      lastAudio := Some(audio);
      ghost var aged := events;
      var voice := VoiceEvents(audio, ball, Boost(now, echoBoostUntil), draws);
      if |voice| >= 1 {
        Emit(voice[0]);
      }
      if |voice| == 2 {
        Emit(voice[1]);
      }
      assert events == aged + voice by {
        if |voice| == 2 {
          assert voice == [voice[0], voice[1]];
        } else if |voice| == 1 {
          assert voice == [voice[0]];
        }
      }
      if pointer.down {
        var e := HoldEvent(pointer, now, audio, cam, ball);
        if Held(pointer, now) >= LongPressTime {
          pointer := pointer.(longPressArmed := false);
        }
        Emit(e);
      }
    }

    /** `reset()`: empty the pool, clear the pointer and end the echo boost. */
    method Reset()
      modifies this`events, this`pointer, this`echoBoostUntil
      ensures Valid()
      ensures events == [] && pointer == Cleared(old(pointer)) && echoBoostUntil == 0.0
    {
      events := [];
      pointer := Cleared(pointer);
      echoBoostUntil := 0.0;
    }
  }
}
