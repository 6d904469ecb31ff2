/** The analysis side of hooks/useAudioVisualizer.js: averages over the
    analyser's frequency bins, the bar down-sampling, the waveform mapping, and
    the refs that guard creating the audio graph once and are reset on cleanup.
    The analyser's output enters as a byte sequence. */
module AudioVisualizer {
  import opened Values

  /** `new Uint8Array(128)`: the data shown before and after a run. */
  const SilentData := Zeros(128)

  /** `analyser.fftSize = 256`, so `frequencyBinCount` is 128. */
  const BinCount := 128

  /** `reduce((acc, value) => acc + value, 0)`. */
  function Sum(s: seq<Byte>): (t: int)
    ensures 0 <= t <= 255 * |s|
  {
    if s == [] then 0 else Sum(s[..|s| - 1]) + s[|s| - 1]
  }

  /** The sum of a concatenation is the sum of the parts. */
  lemma {:induction false} SumAppend(a: seq<Byte>, b: seq<Byte>)
    ensures Sum(a + b) == Sum(a) + Sum(b)
    decreases |b|
  {
    if b == [] {
      assert a + b == a;
    } else {
      assert (a + b)[..|a + b| - 1] == a + b[..|b| - 1];
      SumAppend(a, b[..|b| - 1]);
    }
  }

  /** `sum / length`: 0 / 0 is NaN on an empty slice. */
  function Mean(s: seq<Byte>): (m: Num)
    ensures m.NaN? <==> |s| == 0
    ensures |s| > 0 ==> 0.0 <= m.v <= 255.0 && m.v * |s| as real == Sum(s) as real
  {
    if |s| == 0 then NaN
    else
      var n := |s| as real;
      var t := Sum(s) as real;
      assert t / n * n == t;
      assert t / n <= 255.0 by {
        assert t <= 255.0 * n;
      }
      Finite(t / n)
  }

  /** `s.slice(start, end)` for non-negative bounds: the part of [start, end)
      that lies inside s. */
  function Slice<T>(s: seq<T>, start: nat, end: nat): (r: seq<T>)
    ensures start < end && start < |s| ==> |r| == (if end <= |s| then end else |s|) - start
    ensures end <= start || |s| <= start ==> r == []
    ensures forall k :: 0 <= k < |r| ==> start + k < |s| && r[k] == s[start + k]
  {
    if start < end && start < |s| then s[start..if end <= |s| then end else |s|] else []
  }

  /** `getAverageFrequency`. */
  function AverageFrequency(data: seq<Byte>): (m: Num)
    ensures |data| > 0 ==> m.Finite? && m.v * |data| as real == Sum(data) as real
    ensures |data| == 0 ==> m.NaN?
  {
    Mean(data)
  }

  /** `getBassFrequency`, `getMidFrequency`, `getTrebleFrequency`: the means
      over bins [0, 8), [8, 32) and [32, 64). */
  function Bass(data: seq<Byte>): (m: Num)
    ensures |data| >= 8 ==> m == Mean(data[..8])
  {
    Mean(Slice(data, 0, 8))
  }

  function Mid(data: seq<Byte>): (m: Num)
    ensures |data| >= 32 ==> m == Mean(data[8..32])
    ensures |data| <= 8 ==> m.NaN?
  {
    Mean(Slice(data, 8, 32))
  }

  function Treble(data: seq<Byte>): (m: Num)
    ensures |data| >= 64 ==> m == Mean(data[32..64])
    ensures |data| <= 32 ==> m.NaN?
  {
    Mean(Slice(data, 32, 64))
  }

  /** The three bands split the first 64 bins between them, weighted by band
      width; the bins from 64 on (the upper half of the analyser's 128) lie in
      no band, so the overall mean also counts bins that no band reports. */
  lemma BandsPartitionSpectrum(data: seq<Byte>)
    requires |data| >= 64
    ensures Bass(data).v * 8.0 + Mid(data).v * 24.0 + Treble(data).v * 32.0 == Sum(data[..64]) as real
    ensures AverageFrequency(data).v * |data| as real == Sum(data[..64]) as real + Sum(data[64..]) as real
  {
    var low, mid, high := data[..8], data[8..32], data[32..64];
    assert Sum(data[..64]) == Sum(low) + Sum(mid) + Sum(high) by {
      assert data[..64] == (low + mid) + high;
      SumAppend(low, mid);
      SumAppend(low + mid, high);
    }
    assert Bass(data).v * 8.0 == Sum(low) as real by {
      assert Bass(data) == Mean(low) && |low| == 8;
    }
    assert Mid(data).v * 24.0 == Sum(mid) as real by {
      assert Mid(data) == Mean(mid) && |mid| == 24;
    }
    assert Treble(data).v * 32.0 == Sum(high) as real by {
      assert Treble(data) == Mean(high) && |high| == 32;
    }
    assert Sum(data) == Sum(data[..64]) + Sum(data[64..]) by {
      assert data == data[..64] + data[64..];
      SumAppend(data[..64], data[64..]);
    }
  }

  /** `Math.max(average / 255, 0.01)`: NaN stays NaN, as Math.max propagates it. */
  function BarValue(average: Num): (b: Num)
    ensures b.NaN? <==> average.NaN?
    ensures average.Finite? && 0.0 <= average.v <= 255.0 ==> 0.01 <= b.v <= 1.0
  {
    if average.NaN? then NaN else Finite(Max(average.v / 255.0, 0.01))
  }

  /** Bar i of `getVisualizerBars`: the mean of the bins in
      [i * step, i * step + step), scaled to 1. */
  function Bar(data: seq<Byte>, i: nat, step: nat): Num
  {
    BarValue(Mean(Slice(data, i * step, i * step + step)))
  }

  /** What `getVisualizerBars(n)` returns: n bars with step = floor(length / n). */
  function Bars(data: seq<Byte>, n: nat): (bars: seq<Num>)
    ensures |bars| == n
    ensures n > 0 ==> forall i :: 0 <= i < n ==> bars[i] == Bar(data, i, |data| / n)
  {
    if n == 0 then []
    else seq(n, i requires 0 <= i < n => Bar(data, i, |data| / n))
  }

  /** With no more bars than bins, every bar is a number in [0.01, 1]. */
  lemma BarsInRange(data: seq<Byte>, n: nat)
    requires 0 < n <= |data|
    ensures forall i :: 0 <= i < n ==> Bars(data, n)[i].Finite? && 0.01 <= Bars(data, n)[i].v <= 1.0
  {
    var step := |data| / n;
    assert step >= 1;
    forall i | 0 <= i < n
      ensures Bars(data, n)[i].Finite? && 0.01 <= Bars(data, n)[i].v <= 1.0
    {
      BarWithinData(i, n, step, |data|);
      assert |Slice(data, i * step, i * step + step)| == step;
    }
  }

  lemma BarWithinData(i: nat, n: nat, step: nat, length: nat)
    requires i < n && step == length / n && n > 0
    ensures i * step + step <= length
  {
    assert n * step <= length;
    MulMonotonic(i + 1, n, step);
  }

  lemma {:induction false} MulMonotonic(a: nat, b: nat, c: nat)
    requires a <= b
    ensures a * c <= b * c
  {
    if c > 0 {
      MulMonotonic(a, b, c - 1);
      assert a * c == a * (c - 1) + a && b * c == b * (c - 1) + b;
    }
  }

  /** With more bars than bins the step is 0, every slice is empty and every
      bar is NaN. */
  lemma BarsNaNWhenStepIsZero(data: seq<Byte>, n: nat)
    requires n > |data|
    ensures forall i :: 0 <= i < n ==> Bars(data, n)[i].NaN?
  {
    var step := |data| / n;
    assert step == 0;
    forall i | 0 <= i < n
      ensures Bars(data, n)[i].NaN?
    {
      assert i * step == 0;
    }
  }

  /** The `reduce` and division of one bar: `sum / slice.length`. */
  method SliceAverage(slice: seq<Byte>) returns (average: Num)
    ensures average == Mean(slice)
  {
    var sum: int := 0;
    var k := 0;
    while k < |slice|
      invariant 0 <= k <= |slice|
      invariant sum == Sum(slice[..k])
    {
      assert slice[..k + 1][..k] == slice[..k];
      sum := sum + slice[k];
      k := k + 1;
    }
    assert slice[..k] == slice;
    average := if |slice| == 0 then NaN else Finite(sum as real / |slice| as real);
  }

  /** `getVisualizerBars`: the push loop over the bars. */
  method GetVisualizerBars(audioData: seq<Byte>, barCount: nat) returns (bars: seq<Num>)
    ensures bars == Bars(audioData, barCount)
  {
    bars := [];
    if barCount == 0 {
      return;
    }
    var step := |audioData| / barCount;
    var i := 0;
    while i < barCount
      invariant 0 <= i <= barCount
      invariant |bars| == i && forall k :: 0 <= k < i ==> bars[k] == Bar(audioData, k, step)
    {
      var start := i * step;
      var average := SliceAverage(Slice(audioData, start, start + step));
      bars := bars + [BarValue(average)];
      i := i + 1;
    }
  }

  /** `(value - 128) / 128`: a time-domain byte as a sample in [-1, 1). */
  function Sample(value: Byte): (x: real)
    ensures -1.0 <= x < 1.0
    ensures x * 128.0 + 128.0 == value as real
  {
    (value - 128) as real / 128.0
  }

  /** `getWaveformData`: [] without an analyser, otherwise every byte mapped. */
  function Waveform(hasAnalyser: bool, samples: seq<Byte>): (w: seq<real>)
    ensures !hasAnalyser ==> w == []
    ensures hasAnalyser ==> |w| == |samples| && forall i :: 0 <= i < |w| ==> w[i] == Sample(samples[i])
  {
    if !hasAnalyser then [] else seq(|samples|, i requires 0 <= i < |samples| => Sample(samples[i]))
  }

  /** The mapping loses nothing: each byte is recovered from its sample. */
  lemma WaveformRecoversBytes(samples: seq<Byte>)
    ensures forall i :: 0 <= i < |samples| ==> Waveform(true, samples)[i] * 128.0 + 128.0 == samples[i] as real
  {
  }

  /** The hook's refs and state: whether the context, analyser and source
      exist, the analyser's buffer, the pending animation frame, the data
      shown and the active flag. `taps` counts the media-element sources made
      since the last cleanup. */
  class Visualizer {
    const hasElement: bool
    var hasContext: bool
    var hasAnalyser: bool
    var hasSource: bool
    var dataArray: Option<seq<Byte>>
    var frameHandle: Option<nat>
    var audioData: seq<Byte>
    var isActive: bool
    ghost var taps: nat

    /** The refs are set together, and a source exists exactly when one tap
        was made: never two. */
    ghost predicate Valid()
      reads this
    {
      (hasContext <==> hasAnalyser) && (hasContext <==> hasSource) && (hasContext <==> dataArray.Some?) &&
      (dataArray.Some? ==> |dataArray.value| == BinCount) &&
      taps == (if hasSource then 1 else 0)
    }

    constructor (hasElement: bool)
      ensures Valid() && this.hasElement == hasElement && !hasContext && frameHandle == None
      ensures audioData == SilentData && !isActive && taps == 0
    {
      this.hasElement := hasElement;
      hasContext, hasAnalyser, hasSource, dataArray := false, false, false, None;
      frameHandle, audioData, isActive := None, SilentData, false;
      taps := 0;
    }

    /** `initializeAudioContext`: nothing without an element or once a
        context exists; `ok` is whether the graph is built without an
        exception. */
    method InitializeAudioContext(ok: bool)
      requires Valid()
      modifies this
      ensures Valid() && taps <= 1
      ensures !hasElement || old(hasContext) ==> unchanged(this)
      ensures hasElement && !old(hasContext) && ok ==>
        hasContext && isActive && dataArray == Some(Zeros(BinCount)) && taps == 1 &&
        frameHandle == old(frameHandle) && audioData == old(audioData)
      ensures hasElement && !old(hasContext) && !ok ==>
        !hasContext && !isActive && taps == 0 && frameHandle == old(frameHandle) && audioData == old(audioData)
    {
      if !hasElement || hasContext {
        return;
      }
      if ok {
        hasContext, hasAnalyser, hasSource := true, true, true;
        taps := taps + 1;
        dataArray := Some(Zeros(BinCount));
        isActive := true;
      } else {
        isActive := false;
      }
    }

    /** `updateVisualizerData`: copies the analyser's bins into the shown data
        and asks for another frame only while playing and active. `frame` is
        what `getByteFrequencyData` writes, `handle` what
        `requestAnimationFrame` returns. */
    method UpdateVisualizerData(frame: seq<Byte>, isPlaying: bool, handle: nat) returns (rescheduled: bool)
      requires Valid() && (dataArray.Some? ==> |frame| == |dataArray.value|)
      modifies this`dataArray, this`audioData, this`frameHandle
      ensures Valid()
      ensures !hasAnalyser ==> unchanged(this) && !rescheduled
      ensures hasAnalyser ==> dataArray == Some(frame) && audioData == frame
      ensures rescheduled <==> hasAnalyser && isPlaying && isActive
      ensures rescheduled ==> frameHandle == Some(handle)
      ensures !rescheduled ==> frameHandle == old(frameHandle)
    {
      rescheduled := false;
      if !hasAnalyser || dataArray.None? {
        return;
      }
      dataArray := Some(frame);
      audioData := frame;
      if isPlaying && isActive {
        frameHandle := Some(handle);
        rescheduled := true;
      }
    }

    /** `stopVisualizer`: no pending frame, and the data back to 128 zeros. */
    method StopVisualizer()
      modifies this`frameHandle, this`audioData
      ensures frameHandle == None && audioData == SilentData
    {
      frameHandle := None;
      audioData := SilentData;
    }

    /** `cleanup`: stops, drops every ref and deactivates, so a later
        initialization can build the graph again. */
    method Cleanup()
      requires Valid()
      modifies this
      ensures Valid()
      ensures frameHandle == None && audioData == SilentData
      ensures !hasContext && !hasAnalyser && !hasSource && dataArray == None && !isActive && taps == 0
    {
      StopVisualizer();
      hasContext, hasAnalyser, hasSource, dataArray := false, false, false, None;
      isActive := false;
      taps := 0;
    }
  }
}
