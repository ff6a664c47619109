/**
 * The integer side of the per-batch audio features: zero-crossing rate, peak
 * amplitude, the guards and saturations around RMS and SPL, and the bin ranges
 * and clamps of the eight spectral bands.
 *
 * The floating-point parts (the square root behind RMS, the logarithm behind
 * SPL, the Goertzel recurrence behind each band) are not computed here: their
 * results arrive as inputs, bundled in `FloatMath`, and only what the firmware
 * does with them in integer arithmetic is modelled.
 */
module AudioFeatures {
  import opened Platform
  import opened PacketFormat

  const Q15_MAX: UInt16 := 32767

  // ---------------------------------------------------------------------------
  // Results of the floating-point computations, supplied from outside

  type NonNegReal = r: real | r >= 0.0

  /**
   * What the double-precision code would produce:
   *  - `normalizedRms(s)`: sqrt(sum of squares / count) / 32768 for the batch `s`;
   *  - `splLevel(rms)`: 20*log10(pressure / reference) + 84 dB for a Q15 RMS value,
   *    before the clamp;
   *  - `bandMagnitude(window, lo, hi)`: the uint32 truncation of sqrt(E) / 1000,
   *    where E is the Goertzel energy of `window` summed over bins `lo .. hi-1`.
   */
  datatype FloatMath = FloatMath(
    normalizedRms: seq<Int16> -> NonNegReal,
    splLevel: UInt16 -> real,
    bandMagnitude: (seq<Int16>, nat, nat) -> UInt32)

  // ---------------------------------------------------------------------------
  // RMS and SPL: guards and saturation

  /**
   * `AudioFeatures_CalculateRMS`: no samples gives 0; otherwise the normalized
   * RMS is saturated to Q15_MAX above 0.99999 and else scaled and truncated.
   */
  function CalculateRms(samples: seq<Int16>, normalizedRms: NonNegReal): (r: UInt16)
    ensures |samples| == 0 ==> r == 0
    ensures r <= Q15_MAX
  {
    if |samples| == 0 then 0
    else if normalizedRms > 0.99999 then Q15_MAX
    else (normalizedRms * (Q15_MAX as real)).Floor
  }

  /** A louder batch never reports a smaller Q15 RMS. */
  lemma RmsMonotone(samples: seq<Int16>, a: NonNegReal, b: NonNegReal)
    requires a <= b
    ensures CalculateRms(samples, a) <= CalculateRms(samples, b)
  {
    if |samples| > 0 && a <= 0.99999 {
      assert a * (Q15_MAX as real) <= b * (Q15_MAX as real);
      if b > 0.99999 {
        assert a * (Q15_MAX as real) < Q15_MAX as real;
      }
    }
  }

  /** `AudioFeatures_CalculateSPL` after the logarithm: clamp to 0..120 dB and truncate. */
  function CalculateSpl(level: real): (r: UInt16)
    ensures r <= 120
    ensures level <= 0.0 ==> r == 0
    ensures level >= 120.0 ==> r == 120
    ensures 0.0 <= level <= 120.0 ==> r as real <= level < r as real + 1.0
  {
    if level < 0.0 then 0
    else if level > 120.0 then 120
    else level.Floor
  }

  // ---------------------------------------------------------------------------
  // Zero-crossing rate

  /** A sign change between samples i-1 and i: exactly one of them is negative. */
  predicate IsCrossing(s: seq<Int16>, i: nat)
    requires 1 <= i < |s|
  {
    (s[i - 1] >= 0 && s[i] < 0) || (s[i - 1] < 0 && s[i] >= 0)
  }

  /** Number of sign changes among the first n samples. */
  function Crossings(s: seq<Int16>, n: nat): (c: nat)
    requires n <= |s|
    ensures n == 0 ==> c == 0
    ensures n > 0 ==> c < n
  {
    if n <= 1 then 0
    else Crossings(s, n - 1) + (if IsCrossing(s, n - 1) then 1 else 0)
  }

  /** The indices i in [1, n) at which the signal changes sign. */
  function CrossingIndices(s: seq<Int16>, n: nat): set<nat>
    requires n <= |s|
  {
    set i: nat | 1 <= i < n && IsCrossing(s, i)
  }

  /** The running count is exactly the number of sign-change positions. */
  lemma {:induction false} CrossingsCountIndices(s: seq<Int16>, n: nat)
    requires n <= |s|
    ensures Crossings(s, n) == |CrossingIndices(s, n)|
  {
    if n <= 1 {
      assert CrossingIndices(s, n) == {};
    } else {
      CrossingsCountIndices(s, n - 1);
      if IsCrossing(s, n - 1) {
        assert CrossingIndices(s, n) == CrossingIndices(s, n - 1) + {n - 1};
      } else {
        assert CrossingIndices(s, n) == CrossingIndices(s, n - 1);
      }
    }
  }

  /**
   * `AudioFeatures_CalculateZCR` with its C arithmetic written out: the
   * product `crossings * 100` is a uint32, the quotient is cast to uint16_t,
   * and values above 100 are clamped.
   */
  function ZcrPercent(s: seq<Int16>): (r: UInt16)
    requires |s| < 0x1_0000_0000
    ensures |s| < 2 ==> r == 0
    ensures r <= 100
  {
    if |s| < 2 then 0
    else
      var product := (Crossings(s, |s|) * 100) % 0x1_0000_0000;
      var percent := (product / |s|) % 0x1_0000;
      if percent > 100 then 100 else percent
  }

  /**
   * For every batch short enough that `crossings * 100` cannot overflow, the
   * rate is the plain quotient, and it is below 100: the clamp never fires.
   */
  lemma ZcrWithoutOverflow(s: seq<Int16>)
    requires 2 <= |s| <= 42949673
    ensures ZcrPercent(s) == Crossings(s, |s|) * 100 / |s|
    ensures ZcrPercent(s) < 100
  {
    WrappedQuotient(Crossings(s, |s|), |s|);
  }

  /** The uint32 product and uint16 cast leave the quotient alone below the overflow bound. */
  lemma WrappedQuotient(c: nat, n: nat)
    requires 2 <= n <= 42949673 && c < n
    ensures ((c * 100) % 0x1_0000_0000 / n) % 0x1_0000 == c * 100 / n < 100
  {
    var product := c * 100;
    assert product < 0x1_0000_0000;
    ScaledBelowHundred(c, n);
    assert product % 0x1_0000_0000 == product;
  }

  /** A count strictly below n is strictly below 100 percent of n. */
  lemma ScaledBelowHundred(c: nat, n: nat)
    requires c < n
    ensures c * 100 / n < 100
  {
    var q, r := c * 100 / n, c * 100 % n;
    assert c * 100 == n * q + r;
    assert n * q < n * 100;
  }

  method CalculateZcr(samples: seq<Int16>) returns (zcrPercent: UInt16)
    requires |samples| < 0x1_0000_0000
    ensures zcrPercent == ZcrPercent(samples)
    ensures zcrPercent <= 100
  {
    if |samples| < 2 {
      return 0;
    }
    var zeroCrossings: UInt32 := 0;
    var i := 1;
    while i < |samples|
      invariant 1 <= i <= |samples|
      invariant zeroCrossings == Crossings(samples, i)
    {
      if (samples[i - 1] >= 0 && samples[i] < 0) || (samples[i - 1] < 0 && samples[i] >= 0) {
        zeroCrossings := zeroCrossings + 1;
      }
      i := i + 1;
    }
    var product := (zeroCrossings * 100) % 0x1_0000_0000;
    zcrPercent := (product / |samples|) % 0x1_0000;
    if zcrPercent > 100 {
      zcrPercent := 100;
    }
  }

  // ---------------------------------------------------------------------------
  // Peak amplitude

  function Abs(x: int): nat
  {
    if x < 0 then -x else x
  }

  /** `(int16_t)(-x)`: the negation wraps, so -32768 stays -32768. */
  function Negate16(x: Int16): Int16
  {
    if x == -0x8000 then -0x8000 else -x
  }

  /** `(uint16_t)x` for an int16_t: negative values wrap modulo 65536. */
  function ToUInt16(x: Int16): UInt16
  {
    if x < 0 then x + 0x1_0000 else x
  }

  /**
   * The magnitude the peak loop compares: `abs_val = -abs_val` on an int16_t
   * followed by a uint16_t cast. The two wrap-arounds cancel, so the result
   * is the true magnitude, 32768 included.
   */
  function Magnitude(x: Int16): (m: UInt16)
    ensures m == Abs(x)
  {
    ToUInt16(if x < 0 then Negate16(x) else x)
  }

  /** The largest sample magnitude of a batch; 0 for an empty batch. */
  function MaxMagnitude(s: seq<Int16>): (m: nat)
    ensures m <= 0x8000
  {
    if s == [] then 0
    else
      var rest := MaxMagnitude(s[..|s| - 1]);
      if Abs(s[|s| - 1]) > rest then Abs(s[|s| - 1]) else rest
  }

  /**
   * The maximum bounds every sample's magnitude and is attained by one of
   * them; it stays within 32767 exactly when no sample is -32768.
   */
  lemma {:induction false} MaxMagnitudeIsPeak(s: seq<Int16>)
    ensures forall i :: 0 <= i < |s| ==> Abs(s[i]) <= MaxMagnitude(s)
    ensures |s| > 0 ==> exists i :: 0 <= i < |s| && MaxMagnitude(s) == Abs(s[i])
    ensures MaxMagnitude(s) <= Q15_MAX <==> forall i :: 0 <= i < |s| ==> s[i] != -0x8000
  {
    if s != [] {
      var init := s[..|s| - 1];
      MaxMagnitudeIsPeak(init);
      assert forall i :: 0 <= i < |init| ==> s[i] == init[i];
      if |init| == 0 {
        assert MaxMagnitude(s) == Abs(s[0]);
      } else if Abs(s[|s| - 1]) <= MaxMagnitude(init) {
        var j :| 0 <= j < |init| && MaxMagnitude(init) == Abs(init[j]);
        assert MaxMagnitude(s) == Abs(s[j]);
      }
    }
  }

  /**
   * `AudioFeatures_FindPeakAmplitude`: the largest sample magnitude (0 for an
   * empty batch). The documented ceiling of 32767 holds exactly when no sample
   * is -32768.
   */
  method FindPeakAmplitude(samples: seq<Int16>) returns (peak: UInt16)
    ensures peak == MaxMagnitude(samples)
    ensures |samples| == 0 ==> peak == 0
    ensures forall i :: 0 <= i < |samples| ==> Abs(samples[i]) <= peak
    ensures |samples| > 0 ==> exists i :: 0 <= i < |samples| && peak == Abs(samples[i])
    ensures peak <= Q15_MAX <==> forall i :: 0 <= i < |samples| ==> samples[i] != -0x8000
  {
    MaxMagnitudeIsPeak(samples);
    if |samples| == 0 {
      return 0;
    }
    peak := 0;
    var i := 0;
    while i < |samples|
      invariant 0 <= i <= |samples|
      invariant peak == MaxMagnitude(samples[..i])
    {
      assert samples[..i + 1][..i] == samples[..i];
      var absVal := Magnitude(samples[i]);
      if absVal > peak {
        peak := absVal;
      }
      i := i + 1;
    }
    assert samples[..i] == samples;
  }

  // ---------------------------------------------------------------------------
  // Spectral bands

  /** Hz per bin: 16000 / 512, truncated to 31. */
  const BIN_WIDTH: nat := AUDIO_SAMPLE_RATE / FFT_SIZE
  const BAND_WIDTH: nat := 1000
  /** Bins per band: 1000 / 31, truncated to 32. */
  const BINS_PER_BAND: nat := BAND_WIDTH / BIN_WIDTH
  /** The Nyquist bin limit, FFT_SIZE / 2. */
  const NYQUIST_BINS: nat := FFT_SIZE / 2
  const MAX_BAND_MAGNITUDE: UInt32 := 1000000

  /** First bin of a band. */
  function BinStart(band: nat): nat
  {
    band * BINS_PER_BAND
  }

  /** One past the last bin of a band, capped at the Nyquist limit. */
  function BinEnd(band: nat): nat
  {
    var e := (band + 1) * BINS_PER_BAND;
    if e > NYQUIST_BINS then NYQUIST_BINS else e
  }

  /**
   * The eight bin ranges are 32 bins each, adjacent, and together cover
   * exactly bins 0 .. 255.
   */
  lemma BandRanges()
    ensures BIN_WIDTH == 31 && BINS_PER_BAND == 32
    ensures BinStart(0) == 0 && BinEnd(FFT_BANDS - 1) == NYQUIST_BINS == 256
    ensures forall b :: 0 <= b < FFT_BANDS ==> BinEnd(b) - BinStart(b) == 32
    ensures forall b :: 0 <= b < FFT_BANDS - 1 ==> BinEnd(b) == BinStart(b + 1)
  {
  }

  /** Each bin below the Nyquist limit lies in exactly one band: band k / 32. */
  lemma {:induction false} BinInExactlyOneBand(k: nat, band: nat)
    requires k < NYQUIST_BINS && band < FFT_BANDS
    ensures BinStart(band) <= k < BinEnd(band) <==> band == k / BINS_PER_BAND
  {
    assert BINS_PER_BAND == 32;
    assert BinEnd(band) == (band + 1) * 32;
    if band == k / 32 {
      assert band * 32 <= k < (band + 1) * 32;
    } else if band < k / 32 {
      assert (band + 1) * 32 <= (k / 32) * 32 <= k;
    } else {
      assert k < (k / 32 + 1) * 32 <= band * 32;
    }
  }

  function ClampBand(m: UInt32): (r: UInt32)
    ensures r <= MAX_BAND_MAGNITUDE
    ensures m <= MAX_BAND_MAGNITUDE ==> r == m
  {
    if m > MAX_BAND_MAGNITUDE then MAX_BAND_MAGNITUDE else m
  }

  /**
   * `AudioFeatures_ComputeFFTBands`: zero the output, then write every band
   * with the clamped magnitude of its bin range over the first FFT_SIZE samples.
   */
  method ComputeFftBands(samples: seq<Int16>, bands: array<UInt32>, math: FloatMath)
    requires |samples| >= FFT_SIZE
    requires bands.Length == FFT_BANDS
    modifies bands
    ensures forall b :: 0 <= b < FFT_BANDS ==>
      bands[b] == ClampBand(math.bandMagnitude(samples[..FFT_SIZE], BinStart(b), BinEnd(b)))
    ensures forall b :: 0 <= b < FFT_BANDS ==> bands[b] <= MAX_BAND_MAGNITUDE
  {
    forall b | 0 <= b < bands.Length {
      bands[b] := 0;
    }
    var window := samples[..FFT_SIZE];
    var band := 0;
    while band < FFT_BANDS
      invariant 0 <= band <= FFT_BANDS
      invariant forall b :: 0 <= b < band ==>
        bands[b] == ClampBand(math.bandMagnitude(window, BinStart(b), BinEnd(b)))
    {
      var binStart := band * BINS_PER_BAND;
      var binEnd := (band + 1) * BINS_PER_BAND;
      if binEnd > NYQUIST_BINS {
        binEnd := NYQUIST_BINS;
      }
      var magnitude := math.bandMagnitude(window, binStart, binEnd);
      if magnitude > MAX_BAND_MAGNITUDE {
        magnitude := MAX_BAND_MAGNITUDE;
      }
      bands[band] := magnitude;
      band := band + 1;
    }
  }
}
