/**
 * Spectral features of one window's daily totals
 * (LSTM-project/src/features/fourier_transform.py). The DFT and the entropy come
 * from `Library.Externals`; everything around them is modelled: detrending, bins and
 * frequencies, top-k selection with numpy's slice clamping, the power spectrum,
 * its normalisation and the low/high band split.
 */
module Spectral {
  import opened Sums
  import opened Sorting
  import opened Library

  /** The feature dictionary: `fft_amp_j`/`fft_freq_j` are `ampTop[j]`/`freqTop[j]`. */
  datatype SpectralFeatures = SpectralFeatures(
    ampTop: seq<real>,
    freqTop: seq<real>,
    totalPower: real,
    spectralEntropy: real,
    lowFreqPower: real,
    highFreqPower: real)

  /** `daily_seq - np.mean(daily_seq)`. */
  function Detrend(s: seq<real>): (d: seq<real>)
    requires |s| > 0
    ensures |d| == |s|
  {
    var m := Mean(s);
    seq(|s|, k requires 0 <= k < |s| => s[k] - m)
  }

  /** The detrended sequence has no DC component: it sums to zero. */
  lemma DetrendSumsToZero(s: seq<real>)
    requires |s| > 0
    ensures Sum(Detrend(s)) == 0.0
  {
    SumOffset(s, Mean(s), Detrend(s));
    assert (|s| as real) * (Sum(s) / (|s| as real)) == Sum(s);
  }

  /** `np.fft.rfftfreq(n)`: bin `k` has frequency `k / n` cycles per sample. */
  function Freqs(n: nat): (f: seq<real>)
    requires n > 0
    ensures |f| == n / 2 + 1
  {
    seq(n / 2 + 1, k requires 0 <= k < n / 2 + 1 => (k as real) / (n as real))
  }

  /** A bin index of at most half the window has a frequency in [0, 1/2]. */
  lemma FrequencyInRange(k: nat, n: nat)
    requires n > 0 && 2 * k <= n
    ensures 0.0 <= (k as real) / (n as real) <= 0.5
  {
    DivMonotone(0.0, k as real, n as real);
    AtMostHalf(k as real, n as real);
  }

  /** The frequencies are `idx / n`, non-decreasing, and lie in [0, 1/2]. */
  lemma FreqsAreNormalised(n: nat)
    requires n > 0
    ensures forall k :: 0 <= k < |Freqs(n)| ==> Freqs(n)[k] == (k as real) / (n as real)
    ensures forall k :: 0 <= k < |Freqs(n)| ==> 0.0 <= Freqs(n)[k] <= 0.5
    ensures forall i, j :: 0 <= i <= j < |Freqs(n)| ==> Freqs(n)[i] <= Freqs(n)[j]
  {
    var f := Freqs(n);
    forall k | 0 <= k < |f|
      ensures 0.0 <= f[k] <= 0.5
    {
      FrequencyInRange(k, n);
    }
    forall i, j | 0 <= i <= j < |f|
      ensures f[i] <= f[j]
    {
      DivMonotone(i as real, j as real, n as real);
    }
  }

  /** The amplitude of bin `i`, or 0 outside the bins (keeps the order total). */
  function AmpAt(amps: seq<real>, i: int): real
  {
    if 0 <= i < |amps| then amps[i] else 0.0
  }

  /** Compare bin indices by amplitude. */
  function ByAmplitude(amps: seq<real>): (int, int) -> bool
  {
    (i: int, j: int) => AmpAt(amps, i) <= AmpAt(amps, j)
  }

  /** The indices `0 .. n-1`. */
  function Range(n: nat): (r: seq<int>)
    ensures |r| == n && forall k :: 0 <= k < n ==> r[k] == k
  {
    seq(n, k requires 0 <= k < n => k)
  }

  /**
   * `order` is a possible result of `np.argsort(amps)`: a permutation of the bin
   * indices in non-decreasing amplitude. Ties may come in any order.
   */
  ghost predicate IsArgsort(amps: seq<real>, order: seq<int>)
  {
    && multiset(order) == multiset(Range(|amps|))
    && forall i, j :: 0 <= i < j < |order| ==> AmpAt(amps, order[i]) <= AmpAt(amps, order[j])
  }

  /** One concrete `np.argsort`: insertion sort of the indices by amplitude. */
  function Argsort(amps: seq<real>): (order: seq<int>)
    ensures |order| == |amps|
  {
    SortBy(Range(|amps|), ByAmplitude(amps))
  }

  lemma ArgsortIsArgsort(amps: seq<real>)
    ensures IsArgsort(amps, Argsort(amps))
  {
    var le := ByAmplitude(amps);
    assert TotalPreorder(le);
    SortBySorted(Range(|amps|), le);
  }

  /**
   * Python's normalisation of a slice start `a[start:]`: negative starts count from
   * the end, and the result is clamped into [0, len].
   */
  function SliceStart(len: nat, start: int): (s: nat)
    ensures s <= len
  {
    if start < 0 then (if start + len < 0 then 0 else start + len)
    else if start > len then len
    else start
  }

  function Reverse<T>(s: seq<T>): (r: seq<T>)
    ensures |r| == |s| && forall k :: 0 <= k < |s| ==> r[k] == s[|s| - 1 - k]
  {
    seq(|s|, k requires 0 <= k < |s| => s[|s| - 1 - k])
  }

  /** `np.argsort(amplitudes)[-top_k:][::-1]`. */
  function TopIndices(order: seq<int>, topK: int): (top: seq<int>)
    ensures |top| == SelectedCount(|order|, topK)
    ensures forall j :: 0 <= j < |top| ==> top[j] in order
  {
    Reverse(order[SliceStart(|order|, -topK)..])
  }

  /** How many bins `[-top_k:]` keeps out of `bins`. */
  function SelectedCount(bins: nat, topK: int): nat
  {
    if topK >= 1 then (if topK < bins then topK else bins)
    else if topK == 0 then bins
    else if bins + topK < 0 then 0 else bins + topK
  }

  /** Every index is a valid bin and no bin repeats in an argsort result. */
  lemma ArgsortIndices(amps: seq<real>, order: seq<int>)
    requires IsArgsort(amps, order)
    ensures |order| == |amps|
    ensures forall p :: 0 <= p < |order| ==> 0 <= order[p] < |amps|
    ensures forall p, q :: 0 <= p < q < |order| ==> order[p] != order[q]
    ensures forall b :: 0 <= b < |amps| ==> b in order
  {
    var rng := Range(|amps|);
    assert |order| == |multiset(order)| == |multiset(rng)| == |amps|;
    forall p | 0 <= p < |order|
      ensures 0 <= order[p] < |amps|
    {
      assert order[p] in multiset(order);
      assert order[p] in rng;
    }
    DistinctOfPermutation(order, rng);
    forall b | 0 <= b < |amps|
      ensures b in order
    {
      assert rng[b] == b;
      assert b in multiset(order);
    }
  }

  /** Every position the slice keeps ends up among the selected indices. */
  lemma SelectedPosition(order: seq<int>, topK: int, p: int)
    requires SliceStart(|order|, -topK) <= p < |order|
    ensures order[p] in TopIndices(order, topK)
  {
    assert TopIndices(order, topK)[|order| - 1 - p] == order[p];
  }

  /**
   * The selected bins: `SelectedCount` of them (the slice clamps; `top_k == 0` keeps
   * all), distinct and valid, in non-increasing amplitude, and no unselected bin has a
   * larger amplitude than a selected one.
   */
  lemma TopIndicesSelect(amps: seq<real>, order: seq<int>, topK: int)
    requires IsArgsort(amps, order)
    ensures |TopIndices(order, topK)| == SelectedCount(|amps|, topK)
    ensures forall j :: 0 <= j < |TopIndices(order, topK)| ==> 0 <= TopIndices(order, topK)[j] < |amps|
    ensures forall j1, j2 :: 0 <= j1 < j2 < |TopIndices(order, topK)| ==>
      TopIndices(order, topK)[j1] != TopIndices(order, topK)[j2]
    ensures forall j1, j2 :: 0 <= j1 < j2 < |TopIndices(order, topK)| ==>
      amps[TopIndices(order, topK)[j1]] >= amps[TopIndices(order, topK)[j2]]
    ensures forall b, j :: 0 <= b < |amps| && b !in TopIndices(order, topK) && 0 <= j < |TopIndices(order, topK)| ==>
      amps[b] <= amps[TopIndices(order, topK)[j]]
  {
    ArgsortIndices(amps, order);
    var n := |order|;
    var start := SliceStart(n, -topK);
    var top := TopIndices(order, topK);
    assert forall j :: 0 <= j < |top| ==> top[j] == order[n - 1 - j];
    forall j1, j2 | 0 <= j1 < j2 < |top|
      ensures amps[top[j1]] >= amps[top[j2]]
    {
      assert AmpAt(amps, order[n - 1 - j2]) <= AmpAt(amps, order[n - 1 - j1]);
    }
    forall b, j | 0 <= b < |amps| && b !in top && 0 <= j < |top|
      ensures amps[b] <= amps[top[j]]
    {
      assert b in order;
      var p :| 0 <= p < n && order[p] == b;
      if p >= start {
        SelectedPosition(order, topK, p);
        assert false;
      }
      assert AmpAt(amps, order[p]) <= AmpAt(amps, order[n - 1 - j]);
    }
  }

  /**
   * The loop `for j, idx in enumerate(top_indices)` that writes `fft_amp_j` and
   * `fft_freq_j`: the j-th entries are the amplitude and frequency of the j-th
   * selected bin.
   */
  method TopK(amplitudes: seq<real>, freqs: seq<real>, order: seq<int>, topK: int)
    returns (ampTop: seq<real>, freqTop: seq<real>)
    requires |freqs| == |amplitudes| && IsArgsort(amplitudes, order)
    ensures |ampTop| == |freqTop| == |TopIndices(order, topK)| == SelectedCount(|amplitudes|, topK)
    ensures forall j :: 0 <= j < |ampTop| ==>
      && 0 <= TopIndices(order, topK)[j] < |amplitudes|
      && ampTop[j] == amplitudes[TopIndices(order, topK)[j]]
      && freqTop[j] == freqs[TopIndices(order, topK)[j]]
    ensures forall j1, j2 :: 0 <= j1 < j2 < |ampTop| ==> ampTop[j1] >= ampTop[j2]
    ensures forall b, j :: 0 <= b < |amplitudes| && b !in TopIndices(order, topK) && 0 <= j < |ampTop| ==>
      amplitudes[b] <= ampTop[j]
  {
    var top := TopIndices(order, topK);
    TopIndicesSelect(amplitudes, order, topK);
    ampTop, freqTop := [], [];
    for j := 0 to |top|
      invariant |ampTop| == |freqTop| == j
      invariant forall t :: 0 <= t < j ==> ampTop[t] == amplitudes[top[t]] && freqTop[t] == freqs[top[t]]
    {
      var idx := top[j];
      ampTop := ampTop + [amplitudes[idx]];
      freqTop := freqTop + [freqs[idx]];
    }
  }

  /** `amplitudes ** 2`: the power spectral density, one non-negative entry per bin. */
  function Psd(amps: seq<real>): (psd: seq<real>)
    ensures |psd| == |amps|
    ensures forall k :: 0 <= k < |psd| ==> psd[k] == amps[k] * amps[k]
    ensures NonNegative(psd)
  {
    seq(|amps|, k requires 0 <= k < |amps| => amps[k] * amps[k])
  }

  /** `psd / (np.sum(psd) + 1e-9)`. */
  function PsdNorm(psd: seq<real>): (p: seq<real>)
    ensures |p| == |psd|
  {
    var d := Sum(psd) + Epsilon;
    seq(|psd|, k requires 0 <= k < |psd| => Ratio(psd[k], d))
  }

  /**
   * The normalised spectrum of a non-negative PSD: every entry lies in [0, 1), and the
   * entries sum to `total / (total + 1e-9)`, which is below 1.
   */
  lemma PsdNormBounds(psd: seq<real>)
    requires NonNegative(psd)
    ensures Sum(psd) >= 0.0
    ensures forall k :: 0 <= k < |psd| ==> 0.0 <= PsdNorm(psd)[k] < 1.0
    ensures Sum(PsdNorm(psd)) == Sum(psd) / (Sum(psd) + Epsilon)
    ensures Sum(PsdNorm(psd)) < 1.0
  {
    var total := Sum(psd);
    var d := total + Epsilon;
    var p := PsdNorm(psd);
    SumNonNegative(psd);
    forall k | 0 <= k < |psd|
      ensures 0.0 <= p[k] < 1.0
    {
      ElementAtMostSum(psd, k);
      FractionBelowOne(psd[k], d);
    }
    SumScaled(psd, d, p);
    FractionBelowOne(total, d);
  }

  /** `len(psd) // 2`: the first bin of the high band. */
  function MidIndex(bins: nat): nat
  {
    bins / 2
  }

  /** `np.sum(psd[:mid_idx])`. */
  function LowPower(psd: seq<real>): real
  {
    Sum(psd[..MidIndex(|psd|)])
  }

  /** `np.sum(psd[mid_idx:])`. */
  function HighPower(psd: seq<real>): real
  {
    Sum(psd[MidIndex(|psd|)..])
  }

  /** The two bands partition the bins, so their powers add up to the total. */
  lemma BandSplit(psd: seq<real>)
    requires NonNegative(psd)
    ensures LowPower(psd) + HighPower(psd) == Sum(psd)
    ensures LowPower(psd) >= 0.0 && HighPower(psd) >= 0.0
    ensures Sum(psd) >= 0.0
  {
    var mid := MidIndex(|psd|);
    SumSplit(psd, mid);
    assert NonNegative(psd[..mid]);
    assert NonNegative(psd[mid..]);
    SumNonNegative(psd[..mid]);
    SumNonNegative(psd[mid..]);
  }

  /** `values[idx]` for each index in turn (0 outside the bins). */
  function Gather(values: seq<real>, indices: seq<int>): (r: seq<real>)
    ensures |r| == |indices|
  {
    seq(|indices|, j requires 0 <= j < |indices| => AmpAt(values, indices[j]))
  }

  /** `fft_features(daily_seq, top_k)` as a value. */
  function SpectralSpec(dailySeq: seq<real>, topK: int, lib: Externals): SpectralFeatures
    requires |dailySeq| > 0
  {
    var amps := lib.spectrum(Detrend(dailySeq));
    var freqs := Freqs(|dailySeq|);
    var top := TopIndices(Argsort(amps), topK);
    var psd := Psd(amps);
    SpectralFeatures(
      Gather(amps, top),
      Gather(freqs, top),
      Sum(psd),
      lib.entropy(PsdNorm(psd)),
      LowPower(psd),
      HighPower(psd))
  }

  /**
   * `fft_features`: detrend, take the spectrum, select the top bins, then the power
   * features. The result is the feature set `SpectralSpec` describes.
   */
  method FftFeatures(dailySeq: seq<real>, lib: Externals, topK: int := 3) returns (features: SpectralFeatures)
    requires |dailySeq| > 0 && lib.Valid()
    ensures features == SpectralSpec(dailySeq, topK, lib)
  {
    var n := |dailySeq|;
    var detrended := Detrend(dailySeq);
    var amplitudes := lib.spectrum(detrended);
    assert HasBins(lib.spectrum, detrended);
    var freqs := Freqs(n);
    var order := Argsort(amplitudes);
    ArgsortIsArgsort(amplitudes);
    var ampTop, freqTop := TopK(amplitudes, freqs, order, topK);
    assert ampTop == Gather(amplitudes, TopIndices(order, topK));
    assert freqTop == Gather(freqs, TopIndices(order, topK));
    var psd := Psd(amplitudes);
    var totalPower := Sum(psd);
    var psdNorm := PsdNorm(psd);
    var midIdx := MidIndex(|psd|);
    features := SpectralFeatures(ampTop, freqTop, totalPower, lib.entropy(psdNorm),
                                 Sum(psd[..midIdx]), Sum(psd[midIdx..]));
  }

  /**
   * What the extracted features promise: `top_k` amplitudes (clamped) in non-increasing
   * order that no unselected bin beats, frequencies `idx / n` in [0, 1/2], a non-negative
   * total power that the two bands split exactly.
   */
  lemma SpectralSpecProperties(dailySeq: seq<real>, topK: int, lib: Externals)
    requires |dailySeq| > 0 && lib.Valid()
    ensures var f := SpectralSpec(dailySeq, topK, lib);
      var amps := lib.spectrum(Detrend(dailySeq));
      && |f.ampTop| == |f.freqTop| == SelectedCount(|dailySeq| / 2 + 1, topK)
      && (forall j1, j2 :: 0 <= j1 < j2 < |f.ampTop| ==> f.ampTop[j1] >= f.ampTop[j2])
      && (forall b, j :: 0 <= b < |amps| && 0 <= j < |f.ampTop| && amps[b] > f.ampTop[j] ==>
            b in TopIndices(Argsort(amps), topK))
      && (forall j :: 0 <= j < |f.freqTop| ==> 0.0 <= f.freqTop[j] <= 0.5)
      && f.totalPower >= 0.0
      && f.lowFreqPower >= 0.0 && f.highFreqPower >= 0.0
      && f.lowFreqPower + f.highFreqPower == f.totalPower
  {
    var amps := lib.spectrum(Detrend(dailySeq));
    assert HasBins(lib.spectrum, Detrend(dailySeq));
    ArgsortIsArgsort(amps);
    TopIndicesSelect(amps, Argsort(amps), topK);
    FreqsAreNormalised(|dailySeq|);
    BandSplit(Psd(amps));
  }
}
