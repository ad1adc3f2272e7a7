/**
 * The three visual and physical profiles ("sumi", "firework", "generatif"), the mode state that
 * selects one of them, and the palette pickers that choose a colour from the current profile by a
 * sine of the position and the clock. Colours are kept as the strings the canvas would receive;
 * the per-band ink gradients of the sumi profile are not part of this model.
 */
module Modes {
  import opened Wrappers
  import opened Maths

  /** A radial gradient: colour at the centre and at the rim. */
  datatype Stops = Stops(core: string, edge: string)

  datatype PhysicsParams = PhysicsParams(
    friction: real, drift: real, push: real, rippleImpulse: real, rippleFalloff: real,
    wobbleForce: real, wobbleDecay: real, restitution: real, spin: real, maxSpeed: real)

  /** `base + energy^power * energyScale` */
  datatype RadiusCurve = RadiusCurve(base: real, energyScale: real, power: real)

  datatype Watercolor = Watercolor(baseRadius: real, jitter: real, ringMin: int, ringMax: int)

  datatype Profile = Profile(
    title: string,
    background: string,
    inkStops: seq<Stops>,
    ballFill: string,
    ballStroke: string,
    physics: PhysicsParams,
    inkRadius: RadiusCurve,
    ballRadius: RadiusCurve,
    watercolor: Watercolor,
    watercolorPalette: seq<Stops>,
    dropletPalette: seq<Stops>,
    dropletBaseRadius: real)

  /** A gradient that fades a colour to full transparency. */
  function Fade(rgb: string, alpha: string): Stops
  {
    Stops("rgba(" + rgb + ", " + alpha + ")", "rgba(" + rgb + ", 0.0)")
  }

  const Sumi: Profile := Profile(
    "Sumi.e", "#f4f1ea",
    [Fade("20, 18, 16", "0.26"), Fade("32, 28, 24", "0.2")],
    "#3b2320", "rgba(0,0,0,0.25)",
    PhysicsParams(0.987, 14.0, 95.0, 140.0, 0.017, 26.0, 2.4, 0.8, 12.0, 700.0),
    RadiusCurve(6.0, 20.0, 1.5),
    RadiusCurve(8.0, 6.0, 1.1),
    Watercolor(26.0, 14.0, 2, 4),
    [Fade("120, 94, 72", "0.35"), Fade("168, 132, 88", "0.3"), Fade("200, 162, 116", "0.28")],
    [Fade("140, 110, 82", "0.55"), Fade("176, 132, 96", "0.5")],
    20.0)

  const Firework: Profile := Profile(
    "Firework", "#11121a",
    [Fade("255, 106, 61", "0.28"), Fade("255, 214, 90", "0.26"), Fade("255, 72, 170", "0.24")],
    "#ff4d3a", "rgba(255,255,255,0.25)",
    PhysicsParams(0.97, 40.0, 220.0, 260.0, 0.012, 60.0, 1.8, 0.86, 24.0, 1200.0),
    RadiusCurve(8.0, 34.0, 1.7),
    RadiusCurve(10.0, 10.0, 1.25),
    Watercolor(34.0, 18.0, 3, 6),
    [Fade("255, 94, 98", "0.65"), Fade("255, 180, 72", "0.6"), Fade("255, 80, 190", "0.55"),
     Fade("120, 190, 255", "0.55")],
    [Fade("255, 124, 60", "0.75"), Fade("255, 212, 98", "0.7"), Fade("255, 98, 200", "0.7")],
    26.0)

  const Generatif: Profile := Profile(
    "Art génératif", "#f3f6ff",
    [Fade("64, 110, 255", "0.24"), Fade("56, 210, 160", "0.2"), Fade("255, 120, 210", "0.22")],
    "#4e3cff", "rgba(0,0,0,0.2)",
    PhysicsParams(0.982, 28.0, 150.0, 190.0, 0.015, 38.0, 2.1, 0.82, 18.0, 900.0),
    RadiusCurve(7.0, 26.0, 1.6),
    RadiusCurve(9.0, 8.0, 1.2),
    Watercolor(30.0, 16.0, 3, 5),
    [Fade("94, 176, 255", "0.55"), Fade("120, 255, 204", "0.5"), Fade("255, 140, 232", "0.48"),
     Fade("255, 206, 120", "0.45")],
    [Fade("84, 156, 255", "0.65"), Fade("255, 144, 222", "0.6")],
    24.0)

  /** Friction and restitution damp, the speed limit is positive, and every force scale is not negative. */
  predicate PhysicsOk(ph: PhysicsParams)
  {
    && 0.0 < ph.friction < 1.0
    && 0.0 < ph.restitution < 1.0
    && ph.maxSpeed > 0.0
    && ph.spin >= 0.0 && ph.drift >= 0.0 && ph.push >= 0.0
    && ph.rippleImpulse >= 0.0 && ph.rippleFalloff > 0.0
    && ph.wobbleForce >= 0.0 && ph.wobbleDecay > 0.0
  }

  /** A radius curve starts positive and grows with the energy. */
  predicate CurveOk(c: RadiusCurve)
  {
    c.base > 0.0 && c.energyScale >= 0.0 && c.power > 0.0
  }

  /**
   * What every profile guarantees the physics and the renderer: sound physics parameters and
   * radius curves, a non-empty ring range, and an entry in every palette to fall back on.
   */
  predicate WellFormed(p: Profile)
  {
    && PhysicsOk(p.physics)
    && CurveOk(p.inkRadius) && CurveOk(p.ballRadius)
    && 1 <= p.watercolor.ringMin <= p.watercolor.ringMax
    && p.watercolor.baseRadius > 0.0 && p.watercolor.jitter >= 0.0
    && |p.inkStops| > 0 && |p.watercolorPalette| > 0 && |p.dropletPalette| > 0
    && p.dropletBaseRadius > 0.0
  }

  /** `modeSettings[key]`: a profile for the three known keys, nothing for any other key. */
  function ModeSettings(key: string): (r: Option<Profile>)
    ensures r.Some? <==> key == "sumi" || key == "firework" || key == "generatif"
    ensures r.Some? ==> WellFormed(r.value)
  {
    if key == "sumi" then Some(Sumi)
    else if key == "firework" then Some(Firework)
    else if key == "generatif" then Some(Generatif)
    else None
  }

  /** The three profiles are distinct; each key gives its own profile (`label` is `title` here). */
  lemma ProfilesDistinct()
    ensures ModeSettings("sumi").value.title == "Sumi.e"
    ensures ModeSettings("firework").value.title == "Firework"
    ensures ModeSettings("generatif").value.title == "Art génératif"
    ensures Sumi != Firework && Firework != Generatif && Sumi != Generatif
  {
  }

  /**
   * The index `pickFromPalette` uses for a palette of `n >= 1` entries, given `s = Math.sin(seed)`:
   * `min(n - 1, floor((s + 1) / 2 * n))`. For a sine in [-1, 1) the `min` never bites; it only
   * catches `s = 1`, where the floor would be `n`.
   */
  function PaletteIndex(n: nat, s: real): (i: int)
    requires n >= 1
    ensures i <= n - 1
    ensures -1.0 <= s <= 1.0 ==> 0 <= i
    ensures -1.0 <= s < 1.0 ==> i == (((s + 1.0) / 2.0) * n as real).Floor
  {
    PaletteFloor(n, s);
    Min'(n - 1, (((s + 1.0) / 2.0) * n as real).Floor)
  }

  /** For a sine in [-1, 1] the floor is non-negative, and below the top end it is under `n`. */
  lemma PaletteFloor(n: nat, s: real)
    requires n >= 1
    ensures var f := (((s + 1.0) / 2.0) * n as real).Floor;
      (-1.0 <= s <= 1.0 ==> 0 <= f) && (-1.0 <= s < 1.0 ==> f < n)
  {
    var t := (s + 1.0) / 2.0;
    if -1.0 <= s {
      assert 0.0 <= t * n as real by { assert 0.0 <= t; }
      if s < 1.0 {
        UnitFloor(t, n);
      }
    }
  }

  /** `Math.min` on integers. */
  function Min'(a: int, b: int): (m: int)
    ensures m <= a && m <= b && (m == a || m == b)
  {
    if a <= b then a else b
  }

  /** The index grows with the sine: palettes are traversed in order as `s` goes from -1 to 1. */
  lemma PaletteIndexMonotone(n: nat, s1: real, s2: real)
    requires n >= 1 && s1 <= s2
    ensures PaletteIndex(n, s1) <= PaletteIndex(n, s2)
  {
    var t1, t2 := (s1 + 1.0) / 2.0, (s2 + 1.0) / 2.0;
    var a, b := t1 * n as real, t2 * n as real;
    assert a <= b by { MulMono(t1, t2, n as real); }
    FloorMono(a, b);
  }

  /** The two ends of the sine's range select the first and the last entry. */
  lemma PaletteIndexEnds(n: nat)
    requires n >= 1
    ensures PaletteIndex(n, -1.0) == 0 && PaletteIndex(n, 1.0) == n - 1
  {
  }

  /** `palette[i]` in JavaScript: the entry, or undefined outside the array. */
  function At(palette: seq<Stops>, i: int): (r: Option<Stops>)
    ensures r.Some? <==> 0 <= i < |palette|
    ensures r.Some? ==> r.value == palette[i]
  {
    if 0 <= i < |palette| then Some(palette[i]) else None
  }

  /**
   * `pickFromPalette(palette, seed)`, with `s = Math.sin(seed)`: null for an empty palette, and
   * for a sine in [-1, 1] an entry of the palette otherwise.
   */
  function PickFromPalette(palette: seq<Stops>, s: real): (r: Option<Stops>)
    ensures |palette| == 0 ==> r.None?
    ensures -1.0 <= s <= 1.0 && |palette| > 0 ==> r.Some?
    ensures r.Some? ==> r.value in palette
  {
    if |palette| == 0 then None else At(palette, PaletteIndex(|palette|, s))
  }

  /**
   * A picker: the palette pick, or `palette[0]` when the pick is null (`?? palette[0]`). The pick
   * is null only for an empty palette, where entry 0 is undefined too.
   */
  function PickOrFirst(palette: seq<Stops>, s: real): (r: Option<Stops>)
    ensures |palette| > 0 && -1.0 <= s <= 1.0 ==> r == PickFromPalette(palette, s)
    ensures |palette| > 0 ==> r.Some? && r.value in palette
    ensures |palette| == 0 ==> r.None?
  {
    match PickFromPalette(palette, s)
    case Some(c) => Some(c)
    case None => At(palette, 0)
  }

  /** The three seeds: position and clock, with weights per picker. */
  function InkSeed(wx: real, wy: real, now: real): real { wx * 0.01 + wy * 0.012 + now * 0.0004 }
  function WatercolorSeed(wx: real, wy: real, now: real): real { wx * 0.02 + wy * 0.017 + now * 0.0007 }
  function DropletSeed(wx: real, wy: real, now: real): real { wx * 0.015 + wy * 0.018 + now * 0.0006 }

  /** `getInkStops(wx, wy)` at time `now`: for a well-formed profile always an entry of its ink stops. */
  function GetInkStops(mode: Profile, m: Library, wx: real, wy: real, now: real): (r: Option<Stops>)
    ensures WellFormed(mode) ==> r.Some? && r.value in mode.inkStops
  {
    PickOrFirst(mode.inkStops, m.sin(InkSeed(wx, wy, now)))
  }

  /** `getWatercolorPick(wx, wy)` at time `now` */
  function GetWatercolorPick(mode: Profile, m: Library, wx: real, wy: real, now: real): (r: Option<Stops>)
    ensures WellFormed(mode) ==> r.Some? && r.value in mode.watercolorPalette
  {
    PickOrFirst(mode.watercolorPalette, m.sin(WatercolorSeed(wx, wy, now)))
  }

  /** `getDropletPick(wx, wy)` at time `now` */
  function GetDropletPick(mode: Profile, m: Library, wx: real, wy: real, now: real): (r: Option<Stops>)
    ensures WellFormed(mode) ==> r.Some? && r.value in mode.dropletPalette
  {
    PickOrFirst(mode.dropletPalette, m.sin(DropletSeed(wx, wy, now)))
  }

  /** `modeState`: the selected key, its profile, and the background colour shown. */
  class ModeState {
    var currentMode: string
    var mode: Profile
    var background: string

    /** The profile is the one the key selects, and the background is that profile's. */
    ghost predicate Valid()
      reads this
    {
      ModeSettings(currentMode) == Some(mode) && background == mode.background
    }

    /** `createModeState(initialMode)`; the source's default key is "sumi". */
    constructor (initialMode: string)
      requires ModeSettings(initialMode).Some?
      ensures Valid() && currentMode == initialMode
    {
      currentMode := initialMode;
      mode := ModeSettings(initialMode).value;
      background := ModeSettings(initialMode).value.background;
    }

    /**
     * `applyMode(modeState, nextMode, resetWorld)`, with `hasReset` telling whether a reset
     * callback was supplied. An unknown key changes nothing and resets nothing; a known key
     * selects its profile, and the callback runs exactly once when there is one. The result is
     * how many times the callback ran.
     */
    method ApplyMode(nextMode: string, hasReset: bool) returns (resets: nat)
      requires Valid()
      modifies this
      ensures Valid()
      ensures ModeSettings(nextMode).None? ==>
        currentMode == old(currentMode) && mode == old(mode) && background == old(background) && resets == 0
      ensures ModeSettings(nextMode).Some? ==>
        currentMode == nextMode && mode == ModeSettings(nextMode).value && background == mode.background
      ensures resets == if ModeSettings(nextMode).Some? && hasReset then 1 else 0
    {
      resets := 0;
      var next := ModeSettings(nextMode);
      if next.None? {
        return;
      }
      currentMode := nextMode;
      mode := next.value;
      background := mode.background;
      if hasReset {
        resets := resets + 1;
      }
    }
  }
}
