/**
 * One analysis frame of the audio analyser component: the byte spectrum the
 * Web Audio analyser fills in becomes the `AudioFeatures` record the rest of
 * the application consumes (mean volume, leading bins, peak-bin pitch and a
 * volume-derived BPM estimate).
 */
module AudioAnalyzer {
  import opened Common
  import opened JsNumber

  /** One element of the `Uint8Array` the analyser fills. */
  type Byte = x: int | 0 <= x < 256

  /** Number of leading bins reported as `frequency`. */
  const LeadingBins: nat := 12

  /** `Array.from(data).reduce((sum, value) => sum + value, 0)`. */
  function Sum(data: seq<Byte>): (r: int)
    ensures 0 <= r <= 255 * |data|
    ensures (forall k :: 0 <= k < |data| ==> data[k] == 0) <==> r == 0
  {
    if data == [] then 0 else Sum(data[..|data| - 1]) + data[|data| - 1]
  }

  /**
   * The mean bin value, `sum / bufferLength`. The analyser's bin count is half
   * its FFT size, which Web Audio keeps at 32 or more, so it is never empty.
   */
  function MeanVolume(data: seq<Byte>): (r: real)
    requires |data| > 0
    ensures 0.0 <= r <= 255.0
    ensures r * (|data| as real) == Sum(data) as real
  {
    var s, n := Sum(data) as real, |data| as real;
    var r := s / n;
    MeanBounds(s, n, r);
    r
  }

  lemma MeanBounds(s: real, n: real, r: real)
    requires n >= 1.0 && 0.0 <= s <= 255.0 * n && r == s / n
    ensures 0.0 <= r <= 255.0 && r * n == s
  {
    assert r * n == s;
    if r > 255.0 {
      AboveBound(r, n);
    }
  }

  lemma AboveBound(r: real, n: real)
    requires n >= 1.0 && r > 255.0
    ensures r * n > 255.0 * n
  {
  }

  /**
   * `estimateBPM`: `120 + (volume - 128) / 2`, clamped to [60, 180].
   */
  function EstimateBpm(volume: real): (r: real)
    ensures 60.0 <= r <= 180.0
    ensures 60.0 <= 120.0 + (volume - 128.0) / 2.0 <= 180.0 ==> r == 120.0 + (volume - 128.0) / 2.0
    ensures volume <= 8.0 ==> r == 60.0
    ensures volume >= 248.0 ==> r == 180.0
  {
    Max(60.0, Min(180.0, 120.0 + (volume - 128.0) / 2.0))
  }

  /** A louder frame never gets a lower BPM estimate. */
  lemma EstimateBpmMonotone(v: real, w: real)
    requires v <= w
    ensures EstimateBpm(v) <= EstimateBpm(w)
  {
  }

  /**
   * The peak search: the first index holding the largest bin value (a later
   * equal value does not replace it, the comparison is strict), and index 0
   * with value 0 when every bin is 0.
   */
  method PeakIndex(data: seq<Byte>) returns (maxIndex: nat, maxValue: Byte)
    ensures |data| > 0 ==> maxIndex < |data|
    ensures |data| == 0 ==> maxIndex == 0
    ensures forall k :: 0 <= k < |data| ==> data[k] <= maxValue
    ensures forall k :: 0 <= k < maxIndex ==> data[k] < maxValue
    ensures maxValue > 0 ==> maxIndex < |data| && data[maxIndex] == maxValue
    ensures maxValue == 0 <==> forall k :: 0 <= k < |data| ==> data[k] == 0
    ensures maxValue == 0 ==> maxIndex == 0
  {
    maxIndex, maxValue := 0, 0;
    var i := 0;
    while i < |data|
      invariant 0 <= i <= |data|
      invariant maxIndex <= i && (i > 0 ==> maxIndex < i)
      invariant forall k :: 0 <= k < i ==> data[k] <= maxValue
      invariant forall k :: 0 <= k < maxIndex ==> data[k] < maxValue
      invariant maxValue > 0 ==> maxIndex < i && data[maxIndex] == maxValue
      invariant maxValue == 0 ==> maxIndex == 0
    {
      if data[i] > maxValue {
        maxValue := data[i];
        maxIndex := i;
      }
      i := i + 1;
    }
  }

  /**
   * `pitch || 440`: the peak bin's centre frequency `maxIndex * sampleRate /
   * (2 * bufferLength)`, replaced by 440 Hz when it is 0, which happens
   * exactly when the peak is bin 0.
   */
  function Pitch(maxIndex: nat, sampleRate: real, binCount: nat): (r: real)
    requires sampleRate > 0.0 && binCount > 0
    ensures r > 0.0
    ensures maxIndex == 0 ==> r == 440.0
    ensures maxIndex > 0 ==> r * (2.0 * binCount as real) == (maxIndex as real) * sampleRate
  {
    var raw := (maxIndex as real) * sampleRate / (2.0 * binCount as real);
    if maxIndex == 0 then
      440.0
    else
      PositiveQuotient(maxIndex as real, sampleRate, 2.0 * binCount as real, raw);
      raw
  }

  lemma PositiveQuotient(a: real, b: real, c: real, q: real)
    requires a >= 1.0 && b > 0.0 && c > 0.0 && q == a * b / c
    ensures q > 0.0 && q * c == a * b
  {
    PositiveProduct(a, b);
  }

  lemma PositiveProduct(a: real, b: real)
    requires a >= 1.0 && b > 0.0
    ensures a * b > 0.0
  {
  }

  /** `frequency.map(f => f / 255)` over the first twelve bins. */
  function ScaledBins(data: seq<Byte>): (r: seq<real>)
    ensures |r| == if |data| < LeadingBins then |data| else LeadingBins
    ensures forall k :: 0 <= k < |r| ==> r[k] * 255.0 == data[k] as real
    ensures forall k :: 0 <= k < |r| ==> 0.0 <= r[k] <= 1.0
  {
    var lead := if |data| < LeadingBins then data else data[..LeadingBins];
    seq(|lead|, k requires 0 <= k < |lead| => lead[k] as real / 255.0)
  }

  /**
   * One frame of analysis: the features record handed to the listeners, and
   * the peak bin `peak` its pitch was taken from, the first bin holding the
   * largest value.
   */
  method AnalyzeFrame(data: seq<Byte>, sampleRate: real) returns (f: AudioFeatures, peak: nat)
    requires |data| > 0 && sampleRate > 0.0
    ensures 60.0 <= f.bpm <= 180.0 && f.bpm == EstimateBpm(MeanVolume(data))
    ensures 0.0 <= f.volume <= 100.0 && f.volume * 255.0 == MeanVolume(data) * 100.0
    ensures peak < |data| && forall k :: 0 <= k < |data| ==> data[k] <= data[peak]
    ensures forall k :: 0 <= k < peak ==> data[k] < data[peak]
    ensures f.pitch == Pitch(peak, sampleRate, |data|) && f.pitch > 0.0
    ensures peak == 0 ==> f.pitch == 440.0
    ensures (forall k :: 0 <= k < |data| ==> data[k] == 0) ==> f.pitch == 440.0
    ensures |f.frequency| <= LeadingBins && f.frequency == ScaledBins(data)
  {
    var volume := MeanVolume(data);
    var maxValue;
    peak, maxValue := PeakIndex(data);
    var pitch := Pitch(peak, sampleRate, |data|);
    f := AudioFeatures(EstimateBpm(volume), pitch, volume / 255.0 * 100.0, ScaledBins(data));
  }
}
