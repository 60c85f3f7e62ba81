/** The overdrive of effects/drive/drive_effect.py: `tanh` waveshaping, a
    one-pole low-pass "tone" filter whose memory starts at 0 on every block,
    an output level and a clip to [-1, 1]. `np.tanh` is passed in as `tanh`.
    The effect keeps no state between blocks. */
module Drive {
  import opened Audio
  import opened BaseEffect

  /** A sample times a gain. */
  function Gain(x: real, g: real): real
  {
    x * g
  }

  /** `np.tanh(audio_data * drive)`, sample by sample. */
  function Driven(tanh: real -> real, m: seq<real>, drive: real): (d: seq<real>)
    ensures |d| == |m|
    ensures forall k :: 0 <= k < |m| ==> d[k] == tanh(Gain(m[k], drive))
  {
    seq(|m|, k requires 0 <= k < |m| => tanh(Gain(m[k], drive)))
  }

  /** One filter update: `last_sample * tone + driven * (1 - tone)`. */
  function FilterStep(last: real, tone: real, x: real): real
  {
    Gain(last, tone) + Gain(x, 1.0 - tone)
  }

  /** The filter memory: the last filtered value, 0 before the first. */
  function Last(f: seq<real>): real
  {
    if |f| == 0 then 0.0 else f[|f| - 1]
  }

  /** The tone filter over a block, one `FilterStep` per sample. */
  function Filter(d: seq<real>, tone: real): (f: seq<real>)
    ensures |f| == |d|
    decreases |d|
  {
    if |d| == 0 then []
    else
      var prev := Filter(d[..|d| - 1], tone);
      prev + [FilterStep(Last(prev), tone, d[|d| - 1])]
  }

  /** `output *= level`. */
  function Scale(s: seq<real>, level: real): (r: seq<real>)
    ensures |r| == |s|
    ensures forall k :: 0 <= k < |s| ==> r[k] == Gain(s[k], level)
  {
    seq(|s|, k requires 0 <= k < |s| => Gain(s[k], level))
  }

  datatype Params = Params(drive: real, tone: real, level: real)

  /** The whole transform of one mono block. */
  function Shaped(tanh: real -> real, p: Params, m: seq<real>): (r: seq<real>)
    ensures |r| == |m|
    ensures forall k :: 0 <= k < |r| ==> -1.0 <= r[k] <= 1.0
  {
    ClipAll(Scale(Filter(Driven(tanh, m, p.drive), p.tone), p.level))
  }

  /** The filter depends only on the samples so far. */
  lemma {:induction false} FilterPrefix(d: seq<real>, tone: real, k: int)
    requires 0 <= k <= |d|
    ensures Filter(d[..k], tone) == Filter(d, tone)[..k]
    decreases |d|
  {
    var n := |d|;
    if k < n {
      assert d[..n - 1][..k] == d[..k];
      FilterPrefix(d[..n - 1], tone, k);
    } else {
      assert d[..k] == d;
    }
  }

  /** The filter as a recurrence: `f[i] = tone * f[i-1] + (1 - tone) * d[i]`,
      with `f[-1] = 0`. */
  lemma {:induction false} FilterRecurrence(d: seq<real>, tone: real, i: int)
    requires 0 <= i < |d|
    ensures Filter(d, tone)[i] ==
      FilterStep(if i == 0 then 0.0 else Filter(d, tone)[i - 1], tone, d[i])
  {
    FilterPrefix(d, tone, i + 1);
    FilterPrefix(d, tone, i);
    assert d[..i + 1][..i] == d[..i];
    var prev := Filter(d[..i], tone);
    assert Filter(d[..i + 1], tone) == prev + [FilterStep(Last(prev), tone, d[i])];
  }

  /** Each filtered value is a convex combination of the previous one and the
      input, so with `tone` in [0, 1] a signal within [-1, 1] stays within it. */
  lemma {:induction false} FilterBounded(d: seq<real>, tone: real)
    requires 0.0 <= tone <= 1.0
    requires forall k :: 0 <= k < |d| ==> -1.0 <= d[k] <= 1.0
    ensures forall k :: 0 <= k < |d| ==> -1.0 <= Filter(d, tone)[k] <= 1.0
    decreases |d|
  {
    var n := |d|;
    if n > 0 {
      var prev := Filter(d[..n - 1], tone);
      FilterBounded(d[..n - 1], tone);
      ConvexBounded(Last(prev), tone, d[n - 1]);
    }
  }

  lemma ConvexBounded(last: real, tone: real, x: real)
    requires 0.0 <= tone <= 1.0 && -1.0 <= last <= 1.0 && -1.0 <= x <= 1.0
    ensures -1.0 <= FilterStep(last, tone, x) <= 1.0
  {
    UnitScale(last, tone);
    UnitScale(x, 1.0 - tone);
  }

  /** With `tone = 0` the filter passes its input through. */
  lemma {:induction false} ToneZeroFilter(d: seq<real>)
    ensures Filter(d, 0.0) == d
    decreases |d|
  {
    if |d| > 0 {
      ToneZeroFilter(d[..|d| - 1]);
      assert d == d[..|d| - 1] + [d[|d| - 1]];
    }
  }

  /** With `tone = 0` the effect is `clip(level * tanh(drive * x))` sample by sample. */
  lemma ToneZeroOutput(tanh: real -> real, p: Params, m: seq<real>)
    requires p.tone == 0.0
    ensures forall k :: 0 <= k < |m| ==>
      Shaped(tanh, p, m)[k] == Clip(Gain(tanh(Gain(m[k], p.drive)), p.level))
  {
    ToneZeroFilter(Driven(tanh, m, p.drive));
  }

  /** With `tone = 1` the filter never leaves its initial 0. */
  lemma {:induction false} ToneOneFilter(d: seq<real>)
    ensures Filter(d, 1.0) == Zeros(|d|)
    decreases |d|
  {
    if |d| > 0 {
      ToneOneFilter(d[..|d| - 1]);
    }
  }

  /** When `tanh` stays within [-1, 1], with tone and level in [0, 1] the
      clip never engages: the output is the scaled filter output itself. */
  lemma ClipIsInactive(tanh: real -> real, p: Params, m: seq<real>)
    requires forall v :: -1.0 <= tanh(v) <= 1.0
    requires 0.0 <= p.tone <= 1.0 && 0.0 <= p.level <= 1.0
    ensures Shaped(tanh, p, m) == Scale(Filter(Driven(tanh, m, p.drive), p.tone), p.level)
  {
    var f := Filter(Driven(tanh, m, p.drive), p.tone);
    FilterBounded(Driven(tanh, m, p.drive), p.tone);
    forall k | 0 <= k < |f| ensures -1.0 <= Gain(f[k], p.level) <= 1.0 {
      UnitScale(f[k], p.level);
    }
  }

  /** A factor in [-1, 1] scales `y >= 0` into `[-y, y]`. */
  lemma UnitScale(x: real, y: real)
    requires -1.0 <= x <= 1.0 && y >= 0.0
    ensures -y <= Gain(x, y) <= y
  {
    ScaleBounds(y, x + 1.0, 2.0);
    assert y * (x + 1.0) == x * y + y;
    assert y * 2.0 == y + y;
    assert y * (x + 1.0) <= y * 2.0;
    assert x * y + y <= y + y;
    assert x * y <= y;
    assert Gain(x, y) == x * y;
  }

  class DriveEffect {
    const base: AudioEffect
    var drive: real
    var tone: real
    var level: real

    function CurrentParams(): Params
      reads this
    {
      Params(drive, tone, level)
    }

    constructor (sampleRate: int := 44100, drive: real := 5.0, tone: real := 0.2, level: real := 1.0)
      ensures fresh(base) && base.sampleRate == sampleRate && base.isEnabled
      ensures this.drive == drive && this.tone == tone && this.level == level
    {
      base := new AudioEffect(sampleRate);
      this.drive := drive;
      this.tone := tone;
      this.level := level;
    }

    /** Waveshape, filter sample by sample into a fresh array, scale the
        array in place, clip. Changes no field. */
    method ProcessImpl(audio: Block, tanh: real -> real) returns (out: Block)
      requires Downmixable(audio)
      ensures out == Mono(Shaped(tanh, CurrentParams(), Downmix(audio)))
    {
      var m := Downmix(audio);
      var driven := Driven(tanh, m, drive);
      var output := LowPass(driven, tone);
      ghost var filteredAll := output[..];
      forall k | 0 <= k < output.Length {
        output[k] := Gain(output[k], level);
      }
      assert output[..] == Scale(filteredAll, level);
      out := Mono(ClipAll(output[..]));
    }

    /** The tone loop: `output = np.zeros_like(driven)`, then each sample
        filtered against `last_sample`, which starts at 0. */
    static method LowPass(driven: seq<real>, tone: real) returns (output: array<real>)
      ensures fresh(output) && output[..] == Filter(driven, tone)
    {
      output := new real[|driven|](_ => 0.0);
      var lastSample := 0.0;
      var i := 0;
      while i < |driven|
        invariant 0 <= i <= |driven| && output.Length == |driven|
        invariant output[..i] == Filter(driven[..i], tone)
        invariant lastSample == Last(output[..i])
      {
        var filtered := lastSample * tone + driven[i] * (1.0 - tone);
        assert filtered == FilterStep(lastSample, tone, driven[i]);
        assert driven[..i + 1][..i] == driven[..i];
        assert Filter(driven[..i + 1], tone) ==
          Filter(driven[..i], tone) + [FilterStep(lastSample, tone, driven[i])];
        output[i] := filtered;
        lastSample := filtered;
        assert output[..i + 1] == output[..i] + [filtered];
        i := i + 1;
      }
      assert driven[..i] == driven && output[..] == output[..i];
    }

    /** Disabled: the input itself; enabled: the transform. */
    method Process(audio: Block, tanh: real -> real) returns (out: Block)
      requires base.isEnabled ==> Downmixable(audio)
      ensures !base.isEnabled ==> out == audio
      ensures base.isEnabled ==> out == Mono(Shaped(tanh, CurrentParams(), Downmix(audio)))
    {
      if !base.isEnabled {
        return audio;
      }
      out := ProcessImpl(audio, tanh);
    }

    /** There is no state to clear. */
    method Reset()
      ensures unchanged(this)
    {
    }
  }
}
