/**
 * The microphone analyser: once started it reads a byte spectrum every frame, averages a low band
 * (bins 2..39) and a high band (bins 150..259, as far as the spectrum goes), and lets three smoothed
 * features (`low`, `high`, `energy`) follow them. While it is off the features drift to a quiet
 * idle level. Acquiring the microphone and the Web Audio graph are not modelled: `Start` is told
 * whether permission was granted, and `Update` is handed the spectrum the analyser produced.
 */
module Audio {
  import opened Maths

  newtype byte = x: int | 0 <= x < 256

  /** `fftSize = 1024` gives `frequencyBinCount = 512` bins. */
  const Bins: nat := 512

  /** The object `getState` returns. */
  datatype Snapshot = Snapshot(on: bool, energy: real, low: real, high: real)

  /** The sum of `s[lo..hi]`. */
  function BandSum(s: seq<byte>, lo: nat, hi: nat): (sum: int)
    requires lo <= hi <= |s|
    ensures 0 <= sum <= 255 * (hi - lo)
    decreases hi
  {
    if hi == lo then 0 else BandSum(s, lo, hi - 1) + s[hi - 1] as int
  }

  /** The upper end of the high band: bin 259, or the last bin of a shorter spectrum. */
  function HighEnd(s: seq<byte>): nat
  {
    if |s| < 260 then |s| else 260
  }

  /** `sum / Math.max(1, n) / 255`: a band mean scaled to [0, 1]. */
  function Mean(sum: int, n: nat): (m: real)
    requires 0 <= sum <= 255 * n
    ensures 0.0 <= m <= 1.0
  {
    var d := Max(1.0, n as real);
    assert sum as real <= 255.0 * d;
    DivBound(sum as real, d, 255.0);
    (sum as real / d) / 255.0
  }

  lemma DivBound(a: real, d: real, c: real)
    requires d >= 1.0 && 0.0 <= a <= c * d
    ensures 0.0 <= a / d <= c
  {
    var q := a / d;
    assert q * d == a;
    assert (q - c) * d <= 0.0;
  }

  /** The low band: the mean of bins 2..39, scaled to [0, 1]. */
  function LowBand(s: seq<byte>): (low: real)
    requires |s| >= 40
    ensures 0.0 <= low <= 1.0
  {
    Mean(BandSum(s, 2, 40), 38)
  }

  /** The high band: the mean of bins 150..259 that exist, scaled; 0 if the spectrum stops first. */
  function HighBand(s: seq<byte>): (high: real)
    ensures 0.0 <= high <= 1.0
    ensures |s| <= 150 ==> high == 0.0
  {
    if |s| <= 150 then 0.0 else Mean(BandSum(s, 150, HighEnd(s)), HighEnd(s) - 150)
  }

  /** `Math.min(1, low * 0.75 + high * 0.35)`: never above 1, and not negative for non-negative bands. */
  function RawEnergy(low: real, high: real): (e: real)
    ensures e <= 1.0
    ensures low >= 0.0 && high >= 0.0 ==> e >= 0.0
  {
    Min(1.0, low * 0.75 + high * 0.35)
  }

  /** The three targets of one frame lie in [0, 1]; a spectrum too short for the high band gives 0. */
  lemma FeaturesInUnit(s: seq<byte>)
    requires |s| >= 40
    ensures 0.0 <= LowBand(s) <= 1.0 && 0.0 <= HighBand(s) <= 1.0
    ensures 0.0 <= RawEnergy(LowBand(s), HighBand(s)) <= 1.0
    ensures |s| <= 150 ==> HighBand(s) == 0.0
  {
  }

  /** A band in which every bin holds `v` sums to `v` times its width. */
  lemma {:induction false} BandSumUniform(s: seq<byte>, lo: nat, hi: nat, v: byte)
    requires lo <= hi <= |s|
    requires forall i :: lo <= i < hi ==> s[i] == v
    ensures BandSum(s, lo, hi) == v as int * (hi - lo)
    decreases hi
  {
    if hi > lo {
      BandSumUniform(s, lo, hi - 1, v);
    }
  }

  /** The scaled mean of a band of width `n >= 1` in which every bin holds `v`. */
  lemma MeanUniform(v: byte, n: nat)
    requires n >= 1
    ensures Mean(v as int * n, n) == v as real / 255.0
  {
    var d := n as real;
    assert Max(1.0, d) == d;
    assert (v as int * n) as real == v as real * d;
    assert (v as real * d) / d == v as real;
  }

  /**
   * The band features are means: a spectrum that holds `v` in every bin gives `v / 255` for both
   * bands, and the energy target is `min(1, 1.1 * v / 255)`.
   */
  lemma UniformSpectrum(s: seq<byte>, v: byte)
    requires |s| > 150
    requires forall i :: 0 <= i < |s| ==> s[i] == v
    ensures LowBand(s) == v as real / 255.0
    ensures HighBand(s) == v as real / 255.0
    ensures RawEnergy(LowBand(s), HighBand(s)) == Min(1.0, 1.1 * (v as real / 255.0))
  {
    BandSumUniform(s, 2, 40, v);
    MeanUniform(v, 38);
    BandSumUniform(s, 150, HighEnd(s), v);
    MeanUniform(v, HighEnd(s) - 150);
  }

  /** Silence: no low and no high band, so nothing for `energy` to follow. */
  lemma SilentSpectrum(s: seq<byte>)
    requires |s| > 150
    requires forall i :: 0 <= i < |s| ==> s[i] == 0
    ensures LowBand(s) == 0.0 && HighBand(s) == 0.0 && RawEnergy(LowBand(s), HighBand(s)) == 0.0
  {
    UniformSpectrum(s, 0);
  }

  class AudioEngine {
    var on: bool
    var data: array?<byte>
    var energy: real
    var low: real
    var high: real

    /** The analyser buffer exists once the engine is on, and every feature lies in [0, 1]. */
    ghost predicate Valid()
      reads this
    {
      && (on ==> data != null && data.Length == Bins)
      && 0.0 <= energy <= 1.0 && 0.0 <= low <= 1.0 && 0.0 <= high <= 1.0
    }

    /** `createAudioEngine()` */
    constructor ()
      ensures Valid() && !on && data == null
      ensures energy == 0.0 && low == 0.0 && high == 0.0
    {
      on, data := false, null;
      energy, low, high := 0.0, 0.0, 0.0;
    }

    /**
     * `start()`: with the microphone granted, a zeroed 512-bin buffer is attached and the engine
     * is on; otherwise the engine is off. The features are untouched either way.
     */
    method Start(granted: bool) returns (ok: bool)
      requires Valid()
      modifies this`on, this`data
      ensures Valid()
      ensures ok == granted && on == granted
      ensures granted ==> fresh(data) && data[..] == seq(Bins, _ => 0 as byte)
      ensures !granted ==> data == old(data)
    {
      if granted {
        data := new byte[Bins](_ => 0);
        on := true;
      } else {
        on := false;
      }
      ok := granted;
    }

    /**
     * `update()`. Off: each feature moves 3% of the way to its idle level (energy 0.12, bands
     * 0.1). On: the analyser's spectrum is copied into the buffer, both band loops run, and the
     * bands follow their targets with k = 0.12, the energy with k = 0.1.
     */
    method Update(spectrum: seq<byte>)
      requires Valid()
      requires on ==> |spectrum| == Bins
      modifies this`energy, this`low, this`high, data
      ensures Valid()
      ensures !on ==> energy == Approach(old(energy), 0.12, 0.03)
      ensures !on ==> low == Approach(old(low), 0.1, 0.03) && high == Approach(old(high), 0.1, 0.03)
      ensures !on && data != null ==> unchanged(data)
      ensures on ==> data[..] == spectrum
      ensures on ==> low == Approach(old(low), LowBand(spectrum), 0.12)
      ensures on ==> high == Approach(old(high), HighBand(spectrum), 0.12)
      ensures on ==> energy == Approach(old(energy), RawEnergy(LowBand(spectrum), HighBand(spectrum)), 0.1)
    {
      if !on {
        ApproachStaysIn(energy, 0.12, 0.03, 0.0, 1.0);
        ApproachStaysIn(low, 0.1, 0.03, 0.0, 1.0);
        ApproachStaysIn(high, 0.1, 0.03, 0.0, 1.0);
        energy := energy + (0.12 - energy) * 0.03;
        low := low + (0.1 - low) * 0.03;
        high := high + (0.1 - high) * 0.03;
        return;
      }

      forall i | 0 <= i < data.Length {
        data[i] := spectrum[i];
      }
      assert data[..] == spectrum;

      var lowSum, lowN, i := 0, 0, 2;
      while i < 40
        invariant 2 <= i <= 40
        invariant lowSum == BandSum(data[..], 2, i) && lowN == i - 2
      {
        lowSum := lowSum + data[i] as int;
        lowN := lowN + 1;
        i := i + 1;
      }

      var highSum, highN := 0, 0;
      i := 150;
      while i < 260 && i < data.Length
        invariant 150 <= i <= HighEnd(data[..])
        invariant highSum == BandSum(data[..], 150, i) && highN == i - 150
      {
        highSum := highSum + data[i] as int;
        highN := highN + 1;
        i := i + 1;
      }

      var lowTarget := Mean(lowSum, lowN);
      var highTarget := Mean(highSum, highN);
      var target := RawEnergy(lowTarget, highTarget);
      FeaturesInUnit(spectrum);
      ApproachStaysIn(low, lowTarget, 0.12, 0.0, 1.0);
      ApproachStaysIn(high, highTarget, 0.12, 0.0, 1.0);
      ApproachStaysIn(energy, target, 0.1, 0.0, 1.0);
      low := low + (lowTarget - low) * 0.12;
      high := high + (highTarget - high) * 0.12;
      energy := energy + (target - energy) * 0.1;
    }

    /** `getState()`: a copy of the flag and the three features, each in [0, 1]. */
    function GetState(): (r: Snapshot)
      reads this
      requires Valid()
      ensures r.on == on && r.energy == energy && r.low == low && r.high == high
      ensures 0.0 <= r.energy <= 1.0 && 0.0 <= r.low <= 1.0 && 0.0 <= r.high <= 1.0
    {
      Snapshot(on, energy, low, high)
    }
  }

  /**
   * While the engine stays off, each feature closes its gap to the idle level geometrically:
   * after `n` frames the energy is `0.12 + 0.97^n * (e - 0.12)`.
   */
  lemma IdleDrift(e: real, n: nat)
    ensures Relaxed(e, 0.12, 0.03, n) - 0.12 == Power(0.97, n) * (e - 0.12)
    ensures 0.0 <= Power(0.97, n) <= 1.0
  {
    RelaxedDistance(e, 0.12, 0.03, n);
    PowerInUnit(0.97, n);
  }
}
