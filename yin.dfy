/** The two private steps of the YIN pitch detector (de Cheveigne and
    Kawahara, 2002) in `FrequencyDetector`: the cumulative-mean-normalised
    difference function (`_yin_diff`) and the lag search (`_find_tau`).
    Samples are reals; the floating-point behaviour of the original is not
    modelled. */
module Yin {
  import opened Common

  /** Lag length used by `_yin_diff` when it is given neither bound. */
  const DefaultTauMax := 882

  /** Threshold `_find_tau` uses unless told otherwise. */
  const DefaultThreshold := 0.1

  function Sq(v: real): real { v * v }

  // ---------------------------------------------------------------------
  // The difference function

  /** sum of (x[i] - x[i + tau])^2 for i < m. */
  function LagSum(x: seq<real>, tau: nat, m: nat): real
    requires tau + m <= |x|
  {
    if m == 0 then 0.0 else LagSum(x, tau, m - 1) + Sq(x[m - 1] - x[m - 1 + tau])
  }

  /** The raw difference d(tau) = sum over i < |x| - tau of (x[i] - x[i + tau])^2;
      empty (zero) once the lag reaches the block length. */
  function RawDiff(x: seq<real>, tau: nat): real
  {
    if tau < |x| then LagSum(x, tau, |x| - tau) else 0.0
  }

  /** sum of d(k) for 1 <= k <= tau. */
  function CumDiff(x: seq<real>, tau: nat): real
  {
    if tau == 0 then 0.0 else CumDiff(x, tau - 1) + RawDiff(x, tau)
  }

  /** The normalised entry tau of the array `_yin_diff` returns: entry 0 is
      never written, a lag whose cumulative sum is not positive gets 1.0. */
  function Normalized(x: seq<real>, tau: nat): real
  {
    if tau == 0 then 0.0
    else if CumDiff(x, tau) > 0.0 then (tau as real) * RawDiff(x, tau) / CumDiff(x, tau)
    else 1.0
  }

  /** The whole array for a resolved length n. */
  function YinSpec(x: seq<real>, n: nat): (yin: seq<real>)
    ensures |yin| == n
  {
    seq(n, k requires 0 <= k < n => Normalized(x, k))
  }

  /** The raw array after the accumulation loops, before normalisation. */
  function RawSeq(x: seq<real>, n: nat): (raw: seq<real>)
    ensures |raw| == n
  {
    seq(n, k requires 0 <= k < n => if k == 0 then 0.0 else RawDiff(x, k))
  }

  /** `np.cumsum`: entry k is the sum of entries 0..k. */
  function CumSum(s: seq<real>): (c: seq<real>)
    ensures |c| == |s|
    ensures |s| > 0 ==> c[0] == s[0]
    ensures forall k :: 0 < k < |s| ==> c[k] == c[k - 1] + s[k]
  {
    if |s| == 0 then []
    else
      var p := CumSum(s[..|s| - 1]);
      p + [(if |p| == 0 then 0.0 else p[|p| - 1]) + s[|s| - 1]]
  }

  /** The array length `_yin_diff` allocates: an explicit third argument
      wins, otherwise the second, and 882 when that is None or 0 (Python's
      `or`). */
  function ResolveTauMax(tauMinOrMax: Option<int>, tauMax: Option<int>): (n: int)
    ensures tauMax.Some? ==> n == tauMax.value
    ensures tauMax.None? && tauMinOrMax.Some? && tauMinOrMax.value != 0 ==> n == tauMinOrMax.value
    ensures tauMax.None? && (tauMinOrMax.None? || tauMinOrMax.value == 0) ==> n == DefaultTauMax
  {
    if tauMax.Some? then tauMax.value
    else if tauMinOrMax.Some? && tauMinOrMax.value != 0 then tauMinOrMax.value
    else DefaultTauMax
  }

  /** What `_yin_diff` returns or raises: `np.zeros` refuses a negative
      length, and on a zero length `cumsum[0] = 1` indexes an empty array. */
  function YinDiffSpec(x: seq<real>, tauMinOrMax: Option<int>, tauMax: Option<int>): (r: Result<seq<real>>)
    ensures r.Success? <==> ResolveTauMax(tauMinOrMax, tauMax) > 0
    ensures r.Failure? ==> (r.error.ValueError? <==> ResolveTauMax(tauMinOrMax, tauMax) < 0)
    ensures r.Success? ==> |r.value| == ResolveTauMax(tauMinOrMax, tauMax)
  {
    var n := ResolveTauMax(tauMinOrMax, tauMax);
    if n < 0 then Failure(ValueError("negative dimensions are not allowed"))
    else if n == 0 then Failure(IndexError("index 0 is out of bounds for axis 0 with size 0"))
    else Success(YinSpec(x, n))
  }

  /** `_yin_diff`: accumulate the raw differences in place, take their
      running sums, then overwrite each entry with its normalised value. */
  method YinDiff(audio: seq<real>, tauMinOrMax: Option<int>, tauMax: Option<int>)
    returns (r: Result<array<real>>)
    ensures r.Success? <==> YinDiffSpec(audio, tauMinOrMax, tauMax).Success?
    ensures r.Success? ==> r.value[..] == YinDiffSpec(audio, tauMinOrMax, tauMax).value
    ensures r.Failure? ==> r.error == YinDiffSpec(audio, tauMinOrMax, tauMax).error
  {
    var n := ResolveTauMax(tauMinOrMax, tauMax);
    if n < 0 {
      return Failure(ValueError("negative dimensions are not allowed"));
    }
    var yin := new real[n](_ => 0.0);
    var tau := 1;
    while tau < n
      invariant 1 <= tau <= Max(n, 1)
      invariant forall k :: 0 <= k < tau && k < n ==> yin[k] == RawSeq(audio, n)[k]
      invariant forall k :: tau <= k < n ==> yin[k] == 0.0
    {
      AccumulateLag(audio, yin, tau);
      tau := tau + 1;
    }
    assert yin[..] == RawSeq(audio, n);
    assert forall k :: 1 <= k < n ==> yin[k] == RawSeq(audio, n)[k];
    if n == 0 {
      return Failure(IndexError("index 0 is out of bounds for axis 0 with size 0"));
    }
    var cumsum := CumSum(yin[..]);
    CumSumOfRaw(audio, n);
    cumsum := cumsum[0 := 1.0];
    NormalizeInPlace(audio, yin, cumsum);
    return Success(yin);
  }

  /** The inner accumulation loop for one lag: yin[tau] += (x[i] - x[i + tau])^2. */
  method AccumulateLag(audio: seq<real>, yin: array<real>, tau: nat)
    requires 1 <= tau < yin.Length && yin[tau] == 0.0
    modifies yin
    ensures yin[tau] == RawDiff(audio, tau)
    ensures forall k :: 0 <= k < yin.Length && k != tau ==> yin[k] == old(yin[k])
  {
    var i := 0;
    while i < |audio| - tau
      invariant 0 <= i <= Max(|audio| - tau, 0)
      invariant yin[tau] == if tau < |audio| then LagSum(audio, tau, i) else 0.0
      invariant forall k :: 0 <= k < yin.Length && k != tau ==> yin[k] == old(yin[k])
    {
      yin[tau] := yin[tau] + Sq(audio[i] - audio[i + tau]);
      i := i + 1;
    }
  }

  /** The normalisation loop, reading the running sums taken before it starts. */
  method NormalizeInPlace(audio: seq<real>, yin: array<real>, cumsum: seq<real>)
    requires yin.Length >= 1 && |cumsum| == yin.Length
    requires yin[0] == 0.0
    requires forall k :: 1 <= k < yin.Length ==> yin[k] == RawDiff(audio, k)
    requires forall k :: 1 <= k < yin.Length ==> cumsum[k] == CumDiff(audio, k)
    modifies yin
    ensures yin[..] == YinSpec(audio, yin.Length)
  {
    var n := yin.Length;
    var tau := 1;
    while tau < n
      invariant 1 <= tau <= n
      invariant yin[0] == 0.0
      invariant forall k :: 1 <= k < tau ==> yin[k] == Normalized(audio, k)
      invariant forall k :: tau <= k < n ==> yin[k] == RawDiff(audio, k)
    {
      var v;
      if cumsum[tau] > 0.0 {
        v := (tau as real) * yin[tau] / cumsum[tau];
      } else {
        v := 1.0;
      }
      assert v == Normalized(audio, tau);
      yin[tau] := v;
      tau := tau + 1;
    }
    assert yin[..] == YinSpec(audio, n);
  }

  lemma {:induction false} CumSumOfRaw(x: seq<real>, n: nat)
    ensures forall k :: 0 <= k < n ==> CumSum(RawSeq(x, n))[k] == CumDiff(x, k)
  {
    var c := CumSum(RawSeq(x, n));
    var k := 0;
    while k < n
      invariant 0 <= k <= n
      invariant forall j :: 0 <= j < k ==> c[j] == CumDiff(x, j)
    {
      k := k + 1;
    }
  }

  // ---------------------------------------------------------------------
  // Properties of the normalised difference function

  lemma {:induction false} LagSumNonNegative(x: seq<real>, tau: nat, m: nat)
    requires tau + m <= |x|
    ensures LagSum(x, tau, m) >= 0.0
  {
    if m > 0 {
      LagSumNonNegative(x, tau, m - 1);
    }
  }

  /** d(tau) is a sum of squares. */
  lemma RawDiffNonNegative(x: seq<real>, tau: nat)
    ensures RawDiff(x, tau) >= 0.0
  {
    if tau < |x| {
      LagSumNonNegative(x, tau, |x| - tau);
    }
  }

  /** The cumulative sum is non-negative and bounds each of its terms. */
  lemma {:induction false} CumDiffDominates(x: seq<real>, tau: nat)
    ensures CumDiff(x, tau) >= 0.0
    ensures tau >= 1 ==> CumDiff(x, tau) >= RawDiff(x, tau)
  {
    if tau > 0 {
      CumDiffDominates(x, tau - 1);
      RawDiffNonNegative(x, tau);
    }
  }

  lemma RatioWithinOne(u: real, v: real)
    requires v > 0.0 && -v <= u <= v
    ensures -1.0 <= u / v <= 1.0
    ensures u >= 0.0 ==> u / v >= 0.0
  {
    var r := u / v;
    assert u == r * v;
  }

  lemma ScaledWithin(t: real, r: real)
    requires t >= 0.0 && 0.0 <= r <= 1.0
    ensures 0.0 <= t * r <= t
  {
  }

  /** Every normalised entry lies in [0, tau]: never negative, and never
      larger than its lag. */
  lemma NormalizedBounds(x: seq<real>, tau: nat)
    ensures 0.0 <= Normalized(x, tau) <= Max(tau, 1) as real
  {
    if tau > 0 && CumDiff(x, tau) > 0.0 {
      var d, c := RawDiff(x, tau), CumDiff(x, tau);
      RawDiffNonNegative(x, tau);
      CumDiffDominates(x, tau);
      RatioWithinOne(d, c);
      var r := d / c;
      assert 0.0 <= r <= 1.0;
      assert Normalized(x, tau) == (tau as real) * r;
      ScaledWithin(tau as real, r);
    }
  }

  /** Entry 1 is always exactly 1.0: d(1) divided by itself, or the
      fallback when it is zero. */
  lemma NormalizedAtOne(x: seq<real>)
    ensures Normalized(x, 1) == 1.0
  {
    assert CumDiff(x, 1) == RawDiff(x, 1);
  }

  /** The facts the normalised array promises: entry 0 stays 0, entry 1 is
      exactly 1, every entry is non-negative. */
  lemma YinShape(x: seq<real>, n: nat)
    ensures n > 0 ==> YinSpec(x, n)[0] == 0.0
    ensures n > 1 ==> YinSpec(x, n)[1] == 1.0
    ensures forall k :: 0 <= k < n ==> YinSpec(x, n)[k] >= 0.0
  {
    if n > 1 {
      NormalizedAtOne(x);
    }
    forall k | 0 <= k < n
      ensures YinSpec(x, n)[k] >= 0.0
    {
      NormalizedBounds(x, k);
    }
  }

  ghost predicate Silent(x: seq<real>)
  {
    forall i :: 0 <= i < |x| ==> x[i] == 0.0
  }

  lemma {:induction false} SilentLagSum(x: seq<real>, tau: nat, m: nat)
    requires Silent(x) && tau + m <= |x|
    ensures LagSum(x, tau, m) == 0.0
  {
    if m > 0 {
      SilentLagSum(x, tau, m - 1);
    }
  }

  lemma {:induction false} SilentCumDiff(x: seq<real>, tau: nat)
    requires Silent(x)
    ensures CumDiff(x, tau) == 0.0
  {
    if tau > 0 {
      SilentCumDiff(x, tau - 1);
      if tau < |x| {
        SilentLagSum(x, tau, |x| - tau);
      }
    }
  }

  /** A silent block makes every lag from 1 on equal to 1.0. */
  lemma SilentYin(x: seq<real>, n: nat)
    requires Silent(x)
    ensures forall k :: 1 <= k < n ==> YinSpec(x, n)[k] == 1.0
  {
    forall k | 1 <= k < n
      ensures YinSpec(x, n)[k] == 1.0
    {
      SilentCumDiff(x, k);
    }
  }

  // ---------------------------------------------------------------------
  // The lag search

  /** `np.argmin(s[lo:hi]) + lo`: the first index of the minimum. */
  function ArgMin(s: seq<real>, lo: nat, hi: nat): (k: nat)
    requires lo < hi <= |s|
    ensures lo <= k < hi
    ensures forall j :: lo <= j < hi ==> s[k] <= s[j]
    ensures forall j :: lo <= j < k ==> s[k] < s[j]
    decreases hi
  {
    if hi == lo + 1 then lo
    else
      var k := ArgMin(s, lo, hi - 1);
      if s[hi - 1] < s[k] then hi - 1 else k
  }

  /** Python indexing `s[k]`: a negative k counts from the end; None stands
      for the IndexError. */
  function PyIndex(s: seq<real>, k: int): (v: Option<real>)
    ensures v.Some? <==> -|s| <= k < |s|
    ensures 0 <= k < |s| ==> v == Some(s[k])
    ensures -|s| <= k < 0 ==> v == Some(s[|s| + k])
  {
    if 0 <= k < |s| then Some(s[k])
    else if -|s| <= k < 0 then Some(s[|s| + k])
    else None
  }

  /** Parabolic interpolation around index k: only strictly inside the array
      and when the parabola is not degenerate; otherwise k itself. The
      refined lag is where the parabola through the three neighbouring
      entries has its vertex, so a symmetric dip stays at k. */
  function Refine(s: seq<real>, k: int): (t: real)
    ensures !(0 < k < |s| - 1) ==> t == k as real
    ensures 0 < k < |s| - 1 && s[k - 1] - 2.0 * s[k] + s[k + 1] != 0.0 ==>
      (s[k + 1] - s[k - 1]) / 2.0 + (s[k - 1] - 2.0 * s[k] + s[k + 1]) * (t - k as real) == 0.0
    ensures 0 < k < |s| - 1 && s[k - 1] - 2.0 * s[k] + s[k + 1] == 0.0 ==> t == k as real
    ensures 0 < k < |s| - 1 && s[k - 1] == s[k + 1] ==> t == k as real
  {
    if 0 < k < |s| - 1 then
      var a, b, c := s[k - 1], s[k], s[k + 1];
      var denom := 2.0 * (2.0 * b - a - c);
      if denom != 0.0 then
        assert (a - 2.0 * b + c) * ((c - a) / denom) == -(c - a) / 2.0;
        k as real + (c - a) / denom
      else k as real
    else k as real
  }

  datatype Bounds = Bounds(lo: int, hi: int)

  /** The search bounds `_find_tau` settles on: both given, or else the whole array. */
  function SearchBounds(len: nat, tauMin: Option<int>, tauMax: Option<int>): (b: Bounds)
    ensures tauMin.Some? && tauMax.Some? ==> b == Bounds(tauMin.value, tauMax.value)
    ensures tauMin.None? || tauMax.None? ==> b == Bounds(1, len)
  {
    if tauMin.Some? && tauMax.Some? then Bounds(tauMin.value, tauMax.value) else Bounds(1, len)
  }

  /** The fallback scan: the first tau in [tau, hi) whose entry is below the
      threshold. */
  function SecondPass(s: seq<real>, tau: int, hi: int, threshold: real): (r: Result<Option<real>>)
    ensures r.Failure? ==> r.error == IndexError("index out of bounds")
    ensures r == Success(None) ==>
      forall j :: tau <= j < hi ==> PyIndex(s, j).Some? && PyIndex(s, j).value >= threshold
    ensures r.Success? && r.value.Some? ==> exists t ::
      && tau <= t < hi && PyIndex(s, t).Some? && PyIndex(s, t).value < threshold
      && r.value.value == Refine(s, t)
      && forall j :: tau <= j < t ==> PyIndex(s, j).Some? && PyIndex(s, j).value >= threshold
    ensures r.Failure? ==> exists t ::
      && tau <= t < hi && PyIndex(s, t).None?
      && forall j :: tau <= j < t ==> PyIndex(s, j).Some? && PyIndex(s, j).value >= threshold
    decreases hi - tau
  {
    if tau >= hi then Success(None)
    else match PyIndex(s, tau)
      case None => Failure(IndexError("index out of bounds"))
      case Some(v) =>
        if v < threshold then Success(Some(Refine(s, tau)))
        else SecondPass(s, tau + 1, hi, threshold)
  }

  /** What `_find_tau` returns: the global argmin over [1, range) if it is
      below the threshold, otherwise the first crossing from tau_min. */
  function FindTauSpec(s: seq<real>, tauMin: Option<int>, tauMax: Option<int>, threshold: real)
    : (r: Result<Option<real>>)
    ensures r.Failure? ==> r.error == IndexError("index out of bounds")
    ensures r.Success? && r.value.Some? ==> exists t ::
      PyIndex(s, t).Some? && PyIndex(s, t).value < threshold && r.value.value == Refine(s, t)
    ensures r == Success(None) ==>
      forall j :: 1 <= j < Min(SearchBounds(|s|, tauMin, tauMax).hi, |s|) ==> s[j] >= threshold
  {
    var b := SearchBounds(|s|, tauMin, tauMax);
    var range := Min(b.hi, |s|);
    if range > 1 && s[ArgMin(s, 1, range)] < threshold then
      Success(Some(Refine(s, ArgMin(s, 1, range))))
    else
      SecondPass(s, b.lo, range, threshold)
  }

  /** `_find_tau`. */
  method FindTau(yin: array<real>, tauMin: Option<int>, tauMax: Option<int>, threshold: real)
    returns (r: Result<Option<real>>)
    ensures r == FindTauSpec(yin[..], tauMin, tauMax, threshold)
  {
    var b := SearchBounds(yin.Length, tauMin, tauMax);
    var range := Min(b.hi, yin.Length);
    if range > 1 {
      var minIdx := ArgMin(yin[..], 1, range);
      if yin[minIdx] < threshold {
        return Success(Some(Refine(yin[..], minIdx)));
      }
    }
    r := ScanFrom(yin, b.lo, range, threshold);
  }

  /** The fallback loop of `_find_tau`: the first lag from tau_min whose
      entry, read with Python indexing, is below the threshold. */
  method ScanFrom(yin: array<real>, lo: int, range: int, threshold: real) returns (r: Result<Option<real>>)
    requires range <= yin.Length
    ensures r == SecondPass(yin[..], lo, range, threshold)
  {
    ghost var s := yin[..];
    var tau := lo;
    while tau < range
      invariant SecondPass(s, lo, range, threshold) == SecondPass(s, tau, range, threshold)
      decreases range - tau
    {
      var v: real;
      if 0 <= tau {
        v := yin[tau];
      } else if -yin.Length <= tau {
        v := yin[yin.Length + tau];
      } else {
        return Failure(IndexError("index out of bounds"));
      }
      assert PyIndex(s, tau) == Some(v);
      if v < threshold {
        return Success(Some(Refine(yin[..], tau)));
      }
      tau := tau + 1;
    }
    return Success(None);
  }

  // ---------------------------------------------------------------------
  // Properties of the lag search

  /** When both neighbours are at least the centre value, the parabolic
      shift is at most half a sample. */
  lemma RefineWithinHalf(s: seq<real>, k: int)
    requires 0 < k < |s| - 1 ==> s[k - 1] >= s[k] && s[k + 1] >= s[k]
    ensures k as real - 0.5 <= Refine(s, k) <= k as real + 0.5
  {
    if 0 < k < |s| - 1 {
      var a, b, c := s[k - 1], s[k], s[k + 1];
      var denom := 2.0 * (2.0 * b - a - c);
      if denom != 0.0 {
        var p, q := a - b, c - b;
        assert denom == -2.0 * (p + q);
        assert p + q > 0.0;
        assert c - a == q - p;
        assert -(p + q) <= q - p <= p + q;
        var shift := (c - a) / denom;
        assert shift == (p - q) / (2.0 * (p + q));
        RatioWithinOne(p - q, p + q);
      }
    }
  }

  /** The fallback scan from a lag tau_min >= 1 only looks at entries the
      first pass already covered. */
  lemma {:induction false} SecondPassAfterFailedMin(s: seq<real>, tau: int, range: int, threshold: real)
    requires 1 <= tau && range <= |s|
    requires forall j :: 1 <= j < range ==> s[j] >= threshold
    ensures SecondPass(s, tau, range, threshold) == Success(None)
    decreases range - tau
  {
    if tau < range {
      SecondPassAfterFailedMin(s, tau + 1, range, threshold);
    }
  }

  /** With tau_min >= 1 the search never fails, returns None exactly when no
      entry in [1, range) is below the threshold, and otherwise returns the
      refined first index of the minimum: the second pass never succeeds where
      the first failed. */
  lemma FindTauFromPositiveMin(s: seq<real>, tauMin: Option<int>, tauMax: Option<int>, threshold: real)
    requires SearchBounds(|s|, tauMin, tauMax).lo >= 1
    ensures var range := Min(SearchBounds(|s|, tauMin, tauMax).hi, |s|);
      && FindTauSpec(s, tauMin, tauMax, threshold).Success?
      && (FindTauSpec(s, tauMin, tauMax, threshold) == Success(None)
          <==> forall j :: 1 <= j < range ==> s[j] >= threshold)
      && (FindTauSpec(s, tauMin, tauMax, threshold) != Success(None)
          ==> range > 1 && s[ArgMin(s, 1, range)] < threshold
              && FindTauSpec(s, tauMin, tauMax, threshold) == Success(Some(Refine(s, ArgMin(s, 1, range)))))
  {
    var b := SearchBounds(|s|, tauMin, tauMax);
    var range := Min(b.hi, |s|);
    if range > 1 && s[ArgMin(s, 1, range)] < threshold {
    } else {
      assert forall j :: 1 <= j < range ==> s[j] >= threshold;
      SecondPassAfterFailedMin(s, b.lo, range, threshold);
    }
  }
}
