/** Audio capture state, the YIN-based `FrequencyDetector.detect`, and the
    `TunerEngine` that ties the two together. The sound device is an
    abstract stream handle and each block read from it is an arbitrary
    sequence of samples; the Hann window coefficients are given. */
module Audio {
  import opened Common
  import opened Yin

  datatype AudioConfig = AudioConfig(sampleRate: int, blockSize: int, channels: int, dtype: string)

  const DefaultConfig := AudioConfig(44100, 4096, 1, "float32")

  datatype FrequencyResult = FrequencyResult(frequency: real, confidence: real, isValid: bool)

  /** The result for "no pitch": no lag, or a lag of zero. */
  const NoPitch := FrequencyResult(0.0, 0.0, false)

  /** `audio_data * np.hanning(len(audio_data))`, with the window given. */
  function Window(audio: seq<real>, hann: seq<real>): (w: seq<real>)
    requires |hann| == |audio|
    ensures |w| == |audio|
    ensures forall i :: 0 <= i < |audio| ==> w[i] == audio[i] * hann[i]
  {
    seq(|audio|, i requires 0 <= i < |audio| => audio[i] * hann[i])
  }

  /** The detector's settings never change after construction. */
  datatype FrequencyDetector = FrequencyDetector(sampleRate: int, confidenceThreshold: real)
  {
    /** Smallest lag searched, for about 1000 Hz. */
    function TauMin(): (t: int)
      ensures sampleRate >= 0 ==> 0 <= t && 1000 * t <= sampleRate < 1000 * (t + 1)
      ensures sampleRate < 0 ==> 1000 * (t - 1) < sampleRate <= 1000 * t <= 0
    { TruncDiv(sampleRate, 1000) }

    /** Largest lag searched, for about 40 Hz. */
    function TauMax(): (t: int)
      ensures sampleRate >= 0 ==> 0 <= t && 40 * t <= sampleRate < 40 * (t + 1)
      ensures sampleRate < 0 ==> 40 * (t - 1) < sampleRate <= 40 * t <= 0
    { TruncDiv(sampleRate, 40) }

    /** `detect`: window the block, build the normalised difference array,
        search for a lag and turn it into a frequency and a confidence. */
    function Detect(audio: seq<real>, hann: seq<real>): (r: Result<FrequencyResult>)
      requires |hann| == |audio|
      ensures r.Success? && !r.value.isValid ==> r.value.frequency == 0.0
      ensures r.Success? && r.value.isValid ==> r.value.confidence >= confidenceThreshold
    {
      var windowed := Window(audio, hann);
      match YinDiffSpec(windowed, Some(TauMax()), None)
      case Failure(e) => Failure(e)
      case Success(yin) => FromLag(yin, FindTauSpec(yin, Some(TauMin()), Some(TauMax()), DefaultThreshold))
    }

    /** The tail of detect, from the outcome of the lag search on `yin`. */
    function FromLag(yin: seq<real>, search: Result<Option<real>>): (r: Result<FrequencyResult>)
      ensures search.Failure? ==> r == Failure(search.error)
      ensures search == Success(None) || search == Success(Some(0.0)) ==> r == Success(FrequencyResult(0.0, 0.0, false))
      ensures r.Success? && !r.value.isValid ==> r.value.frequency == 0.0
      ensures r.Success? && r.value.isValid ==> r.value.confidence >= confidenceThreshold
    {
      match search
      case Failure(e) => Failure(e)
      case Success(None) => Success(NoPitch)
      case Success(Some(tau)) =>
        if tau == 0.0 then Success(NoPitch)
        else
          var frequency := sampleRate as real / tau;
          match PyIndex(yin, Trunc(tau))
          case None => Failure(IndexError("index out of bounds"))
          case Some(v) =>
            var confidence := 1.0 - v;
            if confidence >= confidenceThreshold then Success(FrequencyResult(frequency, confidence, true))
            else Success(FrequencyResult(0.0, confidence, false))
    }
  }

  // ---------------------------------------------------------------------
  // What detect promises

  /** The array length detect's call to `_yin_diff` settles on. */
  function DetectLength(sampleRate: int): int
  {
    ResolveTauMax(Some(FrequencyDetector(sampleRate, 0.0).TauMax()), None)
  }

  /** The lag search on an array shaped like the one `_yin_diff` returns
      (entry 0 is 0, entry 1 is 1), searched from tau_min >= 0 up to either
      nothing or the whole array: it finds nothing, finds lag 0, or finds a
      lag in [1.5, n - 1] whose integer part indexes the array. */
  lemma ShapedSearch(yin: seq<real>, lo: int, hi: int)
    requires |yin| > 0 && yin[0] == 0.0 && (|yin| > 1 ==> yin[1] == 1.0)
    requires forall k :: 1 <= k < |yin| ==> yin[k] >= 0.0
    requires lo >= 0 && (hi == 0 || hi == |yin|)
    ensures var t := FindTauSpec(yin, Some(lo), Some(hi), DefaultThreshold);
      || t == Success(None)
      || t == Success(Some(0.0))
      || (&& t.Success? && t.value.Some?
          && 1.5 <= t.value.value <= (|yin| - 1) as real
          && 1 <= Trunc(t.value.value) < |yin|)
  {
    var n := |yin|;
    assert n > 1 ==> ArgMin(yin, 1, n) >= 1;
    if hi == 0 {
      assert Min(hi, n) == 0;
    } else if n > 1 && yin[ArgMin(yin, 1, n)] < DefaultThreshold {
      var idx := ArgMin(yin, 1, n);
      assert idx >= 2;
      RefineWithinHalf(yin, idx);
      var t := Refine(yin, idx);
      assert idx == n - 1 ==> t == idx as real;
      TruncMonotone(1.5, t);
      assert 1 <= Trunc(t) <= idx;
    } else if lo >= 1 {
      FindTauFromPositiveMin(yin, Some(lo), Some(hi), DefaultThreshold);
    } else {
      assert Min(hi, n) == n;
      assert SecondPass(yin, 0, n, DefaultThreshold) == Success(Some(0.0));
    }
  }

  /** The array detect's call to `_yin_diff` yields, for a sample rate that is
      not negative: YinSpec at length DetectLength, with the shape
      ShapedSearch needs, and tau_max either 0 or that length. */
  lemma DetectArray(d: FrequencyDetector, windowed: seq<real>)
    requires d.sampleRate >= 0
    ensures var n := DetectLength(d.sampleRate);
      && n > 0
      && YinDiffSpec(windowed, Some(d.TauMax()), None) == Success(YinSpec(windowed, n))
      && d.TauMin() >= 0 && d.TauMax() >= 0
      && (d.TauMax() == 0 || d.TauMax() == n)
      && 40 * d.TauMax() <= d.sampleRate
  {
    assert FrequencyDetector(d.sampleRate, 0.0).TauMax() == d.TauMax();
  }

  /** With a sample rate that is not negative, detect never raises; its
      confidence is at most 1; a valid result comes from a lag in
      [1.5, n - 1], so its frequency lies strictly above 40 Hz and at most
      at two thirds of the sample rate. */
  lemma DetectFacts(d: FrequencyDetector, audio: seq<real>, hann: seq<real>)
    requires |hann| == |audio| && d.sampleRate >= 0
    ensures d.Detect(audio, hann).Success?
    ensures d.Detect(audio, hann).value.confidence <= 1.0
    ensures d.Detect(audio, hann).value.isValid ==>
      40.0 < d.Detect(audio, hann).value.frequency <= 2.0 * d.sampleRate as real / 3.0
  {
    var windowed := Window(audio, hann);
    var n := DetectLength(d.sampleRate);
    var yin := YinSpec(windowed, n);
    DetectArray(d, windowed);
    YinShape(windowed, n);
    ShapedSearch(yin, d.TauMin(), d.TauMax());
    var t := FindTauSpec(yin, Some(d.TauMin()), Some(d.TauMax()), DefaultThreshold);
    assert d.Detect(audio, hann) == d.FromLag(yin, t);
    FromShapedLag(d, yin, t);
  }

  /** detect's tail on a lag ShapedSearch allows, with tau_max at most a
      fortieth of the sample rate. */
  lemma FromShapedLag(d: FrequencyDetector, yin: seq<real>, t: Result<Option<real>>)
    requires d.sampleRate >= 0
    requires t.Success? && t.value.Some? && t.value.value != 0.0 ==> 40 * |yin| <= d.sampleRate
    requires forall k :: 0 <= k < |yin| ==> yin[k] >= 0.0
    requires || t == Success(None)
             || t == Success(Some(0.0))
             || (&& t.Success? && t.value.Some?
                 && 1.5 <= t.value.value <= (|yin| - 1) as real
                 && 1 <= Trunc(t.value.value) < |yin|)
    ensures d.FromLag(yin, t).Success?
    ensures d.FromLag(yin, t).value.confidence <= 1.0
    ensures d.FromLag(yin, t).value.isValid ==>
      40.0 < d.FromLag(yin, t).value.frequency <= 2.0 * d.sampleRate as real / 3.0
  {
    if t.value.Some? && t.value.value != 0.0 {
      LagFrequencyBounds(d.sampleRate as real, t.value.value, |yin|);
    }
  }

  lemma LagFrequencyBounds(sr: real, tau: real, n: int)
    requires 1.5 <= tau <= (n - 1) as real && 40.0 * n as real <= sr
    ensures 40.0 < sr / tau <= 2.0 * sr / 3.0
  {
    var f := sr / tau;
    assert f * tau == sr;
    assert tau < n as real;
    assert 40.0 * tau < 40.0 * n as real;
    assert f * tau > 40.0 * tau;
    assert f * tau >= 1.5 * f;
  }

  /** A silent block gives no pitch, for any window and any sample rate that
      is not negative. */
  lemma DetectSilence(d: FrequencyDetector, audio: seq<real>, hann: seq<real>)
    requires |hann| == |audio| && d.sampleRate >= 0
    requires forall i :: 0 <= i < |audio| ==> audio[i] == 0.0
    ensures d.Detect(audio, hann) == Success(NoPitch)
  {
    var windowed := Window(audio, hann);
    var n := DetectLength(d.sampleRate);
    var yin := YinSpec(windowed, n);
    assert Silent(windowed);
    DetectArray(d, windowed);
    SilentYin(windowed, n);
    YinShape(windowed, n);
    SilentSearch(yin, d.TauMin(), d.TauMax());
    assert d.Detect(audio, hann) == d.FromLag(yin, FindTauSpec(yin, Some(d.TauMin()), Some(d.TauMax()), DefaultThreshold));
  }

  /** On an array that is 0 at entry 0 and 1 everywhere else no lag from 1 on
      passes the threshold: the search yields nothing or lag 0. */
  lemma SilentSearch(yin: seq<real>, lo: int, hi: int)
    requires |yin| > 0 && yin[0] == 0.0 && forall k :: 1 <= k < |yin| ==> yin[k] == 1.0
    requires lo >= 0 && (hi == 0 || hi == |yin|)
    ensures FindTauSpec(yin, Some(lo), Some(hi), DefaultThreshold) in {Success(None), Success(Some(0.0))}
  {
    var n := |yin|;
    if hi == 0 {
      assert Min(hi, n) == 0;
    } else if lo >= 1 {
      FindTauFromPositiveMin(yin, Some(lo), Some(hi), DefaultThreshold);
    } else {
      assert Min(hi, n) == n;
      assert n > 1 ==> yin[ArgMin(yin, 1, n)] == 1.0;
      assert SecondPass(yin, 0, n, DefaultThreshold) == Success(Some(0.0));
    }
  }

  /** A found, non-zero lag is valid exactly when its confidence reaches the
      threshold, and then the frequency is the sample rate over the lag. */
  lemma DetectValidity(d: FrequencyDetector, audio: seq<real>, hann: seq<real>, tau: real)
    requires |hann| == |audio|
    requires var yin := YinDiffSpec(Window(audio, hann), Some(d.TauMax()), None);
      && yin.Success?
      && FindTauSpec(yin.value, Some(d.TauMin()), Some(d.TauMax()), DefaultThreshold) == Success(Some(tau))
      && tau != 0.0
    requires d.Detect(audio, hann).Success?
    ensures var yin := YinDiffSpec(Window(audio, hann), Some(d.TauMax()), None).value;
      var r := d.Detect(audio, hann).value;
      && PyIndex(yin, Trunc(tau)).Some?
      && r.confidence == 1.0 - PyIndex(yin, Trunc(tau)).value
      && (r.isValid <==> r.confidence >= d.confidenceThreshold)
      && (r.isValid ==> r.frequency == d.sampleRate as real / tau)
  {
    var yin := YinDiffSpec(Window(audio, hann), Some(d.TauMax()), None).value;
    var lag := FindTauSpec(yin, Some(d.TauMin()), Some(d.TauMax()), DefaultThreshold);
    assert d.Detect(audio, hann) == d.FromLag(yin, lag);
  }

  /** No lag, or lag 0, from the search makes detect report no pitch. */
  lemma DetectNoLag(d: FrequencyDetector, audio: seq<real>, hann: seq<real>)
    requires |hann| == |audio|
    requires YinDiffSpec(Window(audio, hann), Some(d.TauMax()), None).Success?
    requires var yin := YinDiffSpec(Window(audio, hann), Some(d.TauMax()), None).value;
      var lag := FindTauSpec(yin, Some(d.TauMin()), Some(d.TauMax()), DefaultThreshold);
      lag == Success(None) || lag == Success(Some(0.0))
    ensures d.Detect(audio, hann) == Success(FrequencyResult(0.0, 0.0, false))
  {
    var yin := YinDiffSpec(Window(audio, hann), Some(d.TauMax()), None).value;
    assert d.Detect(audio, hann) == d.FromLag(yin, FindTauSpec(yin, Some(d.TauMin()), Some(d.TauMax()), DefaultThreshold));
  }

  /** The confidence is read at the truncated refined lag, not at the index
      the search chose: on this array the minimum 0.05 at index 3 passes the
      threshold, the refined lag 3 - 1/60 truncates to 2, and the result is
      judged invalid from the neighbouring entry 0.92. */
  lemma ConfidenceFromRefinedLag()
    ensures var yin := [0.0, 1.0, 0.92, 0.05, 0.98];
      && FindTauSpec(yin, Some(1), Some(5), DefaultThreshold) == Success(Some(3.0 - 1.0 / 60.0))
      && FrequencyDetector(44100, 0.1).FromLag(yin, FindTauSpec(yin, Some(1), Some(5), DefaultThreshold))
         == Success(FrequencyResult(0.0, 1.0 - 0.92, false))
  {
    var yin := [0.0, 1.0, 0.92, 0.05, 0.98];
    assert ArgMin(yin, 1, 5) == 3;
    assert Refine(yin, 3) == 3.0 - 1.0 / 60.0;
    assert Trunc(3.0 - 1.0 / 60.0) == 2;
  }

  /** The confidence is not clamped to [0, 1]: on this array, with the shape
      YinShape proves of `_yin_diff`'s output (0 then 1, no negative entry), the refined lag
      3 - 0.7/6 truncates to 2 and the confidence is 1 - 1.2 < 0. */
  lemma NegativeConfidence()
    ensures var yin := [0.0, 1.0, 1.2, 0.05, 1.9];
      && FindTauSpec(yin, Some(1), Some(5), DefaultThreshold) == Success(Some(3.0 - 0.7 / 6.0))
      && FrequencyDetector(44100, 0.1).FromLag(yin, FindTauSpec(yin, Some(1), Some(5), DefaultThreshold))
         == Success(FrequencyResult(0.0, 1.0 - 1.2, false))
      && 1.0 - 1.2 < 0.0
  {
    var yin := [0.0, 1.0, 1.2, 0.05, 1.9];
    assert ArgMin(yin, 1, 5) == 3;
    assert Refine(yin, 3) == 3.0 - 0.7 / 6.0;
    assert Trunc(3.0 - 0.7 / 6.0) == 2;
  }

  // ---------------------------------------------------------------------
  // Capture and engine state

  /** Handle of an open input stream on the sound device. */
  datatype InputStream = InputStream(device: nat)

  class AudioCapture {
    const config: AudioConfig
    var stream: Option<InputStream>

    constructor (config: Option<AudioConfig>)
      ensures this.config == (if config.Some? then config.value else DefaultConfig)
      ensures stream == None
    {
      this.config := if config.Some? then config.value else DefaultConfig;
      stream := None;
    }

    /** Opens `device` unless a stream is already open. */
    method Start(device: InputStream)
      modifies this
      ensures stream == if old(stream).Some? then old(stream) else Some(device)
    {
      if stream.Some? {
        return;
      }
      stream := Some(device);
    }

    /** Closes and forgets the stream; nothing to do without one. */
    method Stop()
      modifies this
      ensures stream == None
    {
      if stream.Some? {
        stream := None;
      }
    }

    /** One block from the open stream; raises when there is none. */
    method Read(block: seq<real>) returns (r: Result<seq<real>>)
      ensures r.Success? <==> stream.Some?
      ensures r.Success? ==> r.value == block
      ensures r.Failure? ==> r.error == RuntimeError("Stream not started")
    {
      if stream.None? {
        return Failure(RuntimeError("Stream not started"));
      }
      return Success(block);
    }
  }

  class TunerEngine {
    const config: AudioConfig
    const capture: AudioCapture
    const detector: FrequencyDetector
    var isRunning: bool

    /** A running engine always has an open stream. */
    ghost predicate Valid()
      reads this, capture
    {
      isRunning ==> capture.stream.Some?
    }

    constructor (sampleRate: int)
      ensures Valid() && !isRunning
      ensures config == AudioConfig(sampleRate, 4096, 1, "float32")
      ensures fresh(capture) && capture.config == config && capture.stream == None
      ensures detector == FrequencyDetector(sampleRate, 0.1)
    {
      config := AudioConfig(sampleRate, 4096, 1, "float32");
      capture := new AudioCapture(Some(AudioConfig(sampleRate, 4096, 1, "float32")));
      detector := FrequencyDetector(sampleRate, 0.1);
      isRunning := false;
    }

    method Start(device: InputStream)
      requires Valid()
      modifies this, capture
      ensures Valid() && isRunning
      ensures capture.stream == if old(capture.stream).Some? then old(capture.stream) else Some(device)
    {
      capture.Start(device);
      isRunning := true;
    }

    method Stop()
      requires Valid()
      modifies this, capture
      ensures Valid() && !isRunning && capture.stream == None
    {
      capture.Stop();
      isRunning := false;
    }

    /** Reads one block and runs the detector on it; raises unless running. */
    method GetFrequency(block: seq<real>, hann: seq<real>) returns (r: Result<FrequencyResult>)
      requires Valid() && |hann| == |block|
      ensures !isRunning ==> r == Failure(RuntimeError("Tuner not running"))
      ensures isRunning ==> r == detector.Detect(block, hann)
    {
      if !isRunning {
        return Failure(RuntimeError("Tuner not running"));
      }
      var data := capture.Read(block);
      r := detector.Detect(data.value, hann);
    }
  }
}
