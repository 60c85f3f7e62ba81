/** The chorus of effects/chorus/chorus_effect.py: a 100 ms circular buffer
    written one sample at a time and read back at an offset that a sine LFO
    sweeps between 0 and `depth` seconds. `np.sin` is passed in as `sin`. */
module Chorus {
  import opened Audio
  import opened BaseEffect
  import Modular

  /** The persistent state of the delay line: buffer, write cursor, LFO phase. */
  datatype LineState = LineState(buffer: seq<real>, index: int, phase: int)

  datatype Params = Params(sampleRate: int, rate: real, depth: real, mix: real)

  /** A state the per-sample loop can run on. */
  predicate ValidLine(s: LineState, sampleRate: int)
  {
    |s.buffer| > 0 && 0 <= s.index < |s.buffer| && 0 <= s.phase < sampleRate
  }

  /** The LFO value at a phase. */
  function Lfo(sin: real -> real, rate: real, phase: int, sampleRate: int): (v: real)
    requires sampleRate > 0
    ensures (forall a :: -1.0 <= sin(a) <= 1.0) ==> -1.0 <= v <= 1.0
  {
    sin(2.0 * PI * rate * (phase as real) / (sampleRate as real))
  }

  /** The read offset in samples, truncated as `int(...)` truncates. */
  function DelaySamples(depth: real, sampleRate: int, lfo: real): int
  {
    Trunc(depth * (sampleRate as real) * (lfo + 1.0) / 2.0)
  }

  /** One iteration of the per-sample loop: write, read, mix, advance. */
  function Step(s: LineState, p: Params, sin: real -> real, x: real): (r: (LineState, real))
    requires p.sampleRate > 0 && ValidLine(s, p.sampleRate)
    ensures ValidLine(r.0, p.sampleRate) && |r.0.buffer| == |s.buffer|
    ensures r.0.buffer[s.index] == x
  {
    var buf := s.buffer[s.index := x];
    var delay := DelaySamples(p.depth, p.sampleRate, Lfo(sin, p.rate, s.phase, p.sampleRate));
    var delayed := buf[(s.index - delay) % |buf|];
    (LineState(buf, (s.index + 1) % |buf|, (s.phase + 1) % p.sampleRate),
     Mix(p.mix, x, delayed))
  }

  /** The loop over a whole mono block: the final state and the output. */
  function Run(s: LineState, p: Params, sin: real -> real, xs: seq<real>): (r: (LineState, seq<real>))
    requires p.sampleRate > 0 && ValidLine(s, p.sampleRate)
    ensures ValidLine(r.0, p.sampleRate)
    ensures |r.0.buffer| == |s.buffer| && |r.1| == |xs|
    decreases |xs|
  {
    if |xs| == 0 then (s, [])
    else
      var before := Run(s, p, sin, xs[..|xs| - 1]);
      var st := Step(before.0, p, sin, xs[|xs| - 1]);
      (st.0, before.1 + [st.1])
  }

  /** One more sample is one more `Step`. */
  lemma {:induction false} RunSnoc(s: LineState, p: Params, sin: real -> real, xs: seq<real>, x: real)
    requires p.sampleRate > 0 && ValidLine(s, p.sampleRate)
    ensures var before := Run(s, p, sin, xs);
      Run(s, p, sin, xs + [x]) == (Step(before.0, p, sin, x).0, before.1 + [Step(before.0, p, sin, x).1])
  {
    assert (xs + [x])[..|xs|] == xs;
  }

  /** What `_process_impl` returns and leaves behind, exceptions included:
      an empty buffer fails on the first sample written into it. The last
      branch has no counterpart in the source: a `ChorusEffect` satisfying
      `Valid` with a non-empty buffer always takes the branch before it. */
  function Processed(s: LineState, p: Params, sin: real -> real, m: seq<real>): (r: (Outcome<Block>, LineState))
    ensures r.0.Raised? <==> |m| > 0 && !(p.sampleRate > 0 && ValidLine(s, p.sampleRate))
    ensures r.0.Raised? ==> r.0.error == IndexError && r.1 == s
    ensures r.0.Ok? ==> r.0.value.Mono? && |r.0.value.samples| == |m|
    ensures |r.1.buffer| == |s.buffer|
  {
    if |m| == 0 then (Ok(Mono([])), s)
    else if |s.buffer| == 0 then (Raised(IndexError), s)
    else if p.sampleRate > 0 && ValidLine(s, p.sampleRate) then
      var r := Run(s, p, sin, m);
      (Ok(Mono(r.1)), r.0)
    else (Raised(IndexError), s)
  }

  /** The offset applied at step `t` of a block that starts in state `s`. */
  function OffsetAt(s: LineState, p: Params, sin: real -> real, t: int): int
    requires p.sampleRate > 0
  {
    DelaySamples(p.depth, p.sampleRate, Lfo(sin, p.rate, (s.phase + t) % p.sampleRate, p.sampleRate))
  }

  /** The sample `u` steps into the block (negative: written before the block
      started, still in the buffer it started with). */
  function Past(s: LineState, xs: seq<real>, u: int): real
    requires |s.buffer| > 0 && u < |xs|
  {
    if u >= 0 then xs[u] else s.buffer[(s.index + u) % |s.buffer|]
  }

  /** The cursor advances by one per sample and the phase wraps modulo the
      sample rate. */
  lemma {:induction false} RunCursor(s: LineState, p: Params, sin: real -> real, xs: seq<real>)
    requires p.sampleRate > 0 && ValidLine(s, p.sampleRate)
    ensures Run(s, p, sin, xs).0.index == (s.index + |xs|) % |s.buffer|
    ensures Run(s, p, sin, xs).0.phase == (s.phase + |xs|) % p.sampleRate
    decreases |xs|
  {
    if |xs| > 0 {
      var n, len, sr := |xs|, |s.buffer|, p.sampleRate;
      var before := Run(s, p, sin, xs[..n - 1]).0;
      var after := Run(s, p, sin, xs).0;
      RunCursor(s, p, sin, xs[..n - 1]);
      assert after == Step(before, p, sin, xs[n - 1]).0;
      StepCursor(before, p, sin, xs[n - 1]);
      Modular.CountStep(s.index, n - 1, len, before.index, after.index);
      Modular.CountStep(s.phase, n - 1, sr, before.phase, after.phase);
    } else {
      Modular.ModUnique(s.index + |xs|, |s.buffer|, 0, s.index);
      Modular.ModUnique(s.phase + |xs|, p.sampleRate, 0, s.phase);
    }
  }

  /** One step moves the cursor and the phase on by one. */
  lemma StepCursor(s: LineState, p: Params, sin: real -> real, x: real)
    requires p.sampleRate > 0 && ValidLine(s, p.sampleRate)
    ensures Step(s, p, sin, x).0.index == (s.index + 1) % |s.buffer|
    ensures Step(s, p, sin, x).0.phase == (s.phase + 1) % p.sampleRate
  {
  }

  /** After a block, the last `|buffer|` samples written sit in the cells the
      cursor passed over; cells it did not reach keep their old value. */
  lemma {:induction false} RunContents(s: LineState, p: Params, sin: real -> real, xs: seq<real>)
    requires p.sampleRate > 0 && ValidLine(s, p.sampleRate)
    ensures forall u :: |xs| - |s.buffer| <= u < |xs| ==>
      Run(s, p, sin, xs).0.buffer[(s.index + u) % |s.buffer|] == Past(s, xs, u)
    decreases |xs|
  {
    var n, len := |xs|, |s.buffer|;
    if n > 0 {
      var xs' := xs[..n - 1];
      RunContents(s, p, sin, xs');
      RunCursor(s, p, sin, xs');
      var before := Run(s, p, sin, xs');
      var after := Run(s, p, sin, xs).0.buffer;
      assert after == before.0.buffer[before.0.index := xs[n - 1]];
      forall u | n - len <= u < n
        ensures after[(s.index + u) % len] == Past(s, xs, u)
      {
        if u < n - 1 {
          Modular.ModDistinct(s.index, u, n - 1, len);
          assert Past(s, xs', u) == Past(s, xs, u);
        }
      }
    }
  }

  /** The chorus as a modulated delay line: each output mixes the dry sample
      with the sample written `OffsetAt(t) mod |buffer|` steps earlier. */
  lemma {:induction false} RunOutput(s: LineState, p: Params, sin: real -> real, xs: seq<real>, t: int)
    requires p.sampleRate > 0 && ValidLine(s, p.sampleRate)
    requires 0 <= t < |xs|
    ensures Run(s, p, sin, xs).1[t] ==
      Mix(p.mix, xs[t], Past(s, xs, t - OffsetAt(s, p, sin, t) % |s.buffer|))
    decreases |xs|
  {
    var n, len := |xs|, |s.buffer|;
    var xs' := xs[..n - 1];
    if t < n - 1 {
      RunOutput(s, p, sin, xs', t);
      var before := Run(s, p, sin, xs');
      assert Run(s, p, sin, xs).1 == before.1 + [Step(before.0, p, sin, xs[n - 1]).1];
      assert Past(s, xs', t - OffsetAt(s, p, sin, t) % len) == Past(s, xs, t - OffsetAt(s, p, sin, t) % len);
    } else {
      LastOutput(s, p, sin, xs);
    }
  }

  /** The read of the last sample of a block (the step case of `RunOutput`). */
  lemma {:induction false} LastOutput(s: LineState, p: Params, sin: real -> real, xs: seq<real>)
    requires p.sampleRate > 0 && ValidLine(s, p.sampleRate)
    requires |xs| > 0
    ensures Run(s, p, sin, xs).1[|xs| - 1] ==
      Mix(p.mix, xs[|xs| - 1], Past(s, xs, |xs| - 1 - OffsetAt(s, p, sin, |xs| - 1) % |s.buffer|))
  {
    var len, t := |s.buffer|, |xs| - 1;
    var xs' := xs[..t];
    RunCursor(s, p, sin, xs');
    var before := Run(s, p, sin, xs').0;
    var d := OffsetAt(s, p, sin, t);
    var u := t - d % len;
    var cell := (before.index - d) % len;
    var buf := before.buffer[before.index := xs[t]];
    assert before.phase == (s.phase + t) % p.sampleRate;
    assert d == DelaySamples(p.depth, p.sampleRate, Lfo(sin, p.rate, before.phase, p.sampleRate));
    StepRead(before, p, sin, xs[t]);
    RunLast(s, p, sin, xs);
    assert Run(s, p, sin, xs).1[t] == Mix(p.mix, xs[t], buf[cell]);
    Modular.ReadCell(s.index, t, d, len, before.index, cell);
    RunContents(s, p, sin, xs');
    BufferRead(s, xs, xs', before.buffer, before.index, u, cell);
  }

  /** The cell `u` steps into a block, read right after writing the last
      sample: the sample just written when `u` is that last step, otherwise
      the cell as the earlier steps left it. */
  lemma {:induction false} BufferRead(s: LineState, xs: seq<real>, prev: seq<real>, buf: seq<real>, index: int, u: int, cell: int)
    requires |s.buffer| > 0 && |buf| == |s.buffer| && |xs| > 0 && prev == xs[..|xs| - 1]
    requires index == (s.index + (|xs| - 1)) % |s.buffer| && cell == (s.index + u) % |s.buffer|
    requires |xs| - 1 - |s.buffer| < u < |xs|
    requires forall v :: |xs| - 1 - |s.buffer| <= v < |xs| - 1 ==>
      buf[(s.index + v) % |s.buffer|] == Past(s, prev, v)
    ensures buf[index := xs[|xs| - 1]][cell] == Past(s, xs, u)
  {
    var t := |xs| - 1;
    if u < t {
      Modular.ModDistinct(s.index, u, t, |s.buffer|);
      PastPrefix(s, xs, t, u);
    }
  }

  /** The last output of a block is the output of its last step. */
  lemma RunLast(s: LineState, p: Params, sin: real -> real, xs: seq<real>)
    requires p.sampleRate > 0 && ValidLine(s, p.sampleRate) && |xs| > 0
    ensures Run(s, p, sin, xs).1[|xs| - 1] == Step(Run(s, p, sin, xs[..|xs| - 1]).0, p, sin, xs[|xs| - 1]).1
  {
  }

  /** `Step` unfolded: the mixed output reads the buffer after the write. */
  lemma {:induction false} StepRead(s: LineState, p: Params, sin: real -> real, x: real)
    requires p.sampleRate > 0 && ValidLine(s, p.sampleRate)
    ensures Step(s, p, sin, x).1 == Mix(p.mix, x,
      s.buffer[s.index := x][(s.index - DelaySamples(p.depth, p.sampleRate, Lfo(sin, p.rate, s.phase, p.sampleRate))) % |s.buffer|])
  {
  }

  lemma {:induction false} PastPrefix(s: LineState, xs: seq<real>, t: int, u: int)
    requires |s.buffer| > 0 && 0 <= t <= |xs| && u < t
    ensures Past(s, xs[..t], u) == Past(s, xs, u)
  {
  }

  /** With a zero (or whole-buffer) offset the read sees the sample just
      written, because the write precedes the read: the output is the input. */
  lemma {:induction false} ZeroOffsetPassesThrough(s: LineState, p: Params, sin: real -> real, xs: seq<real>, t: int)
    requires p.sampleRate > 0 && ValidLine(s, p.sampleRate)
    requires 0 <= t < |xs| && OffsetAt(s, p, sin, t) % |s.buffer| == 0
    ensures Run(s, p, sin, xs).1[t] == xs[t]
  {
    RunOutput(s, p, sin, xs, t);
    assert Past(s, xs, t - OffsetAt(s, p, sin, t) % |s.buffer|) == xs[t];
    MixOfEqual(p.mix, xs[t]);
  }

  /** A fully dry mix gives back the input. */
  lemma {:induction false} DryMixIsIdentity(s: LineState, p: Params, sin: real -> real, xs: seq<real>)
    requires p.sampleRate > 0 && ValidLine(s, p.sampleRate) && p.mix == 0.0
    ensures Run(s, p, sin, xs).1 == xs
  {
    forall t | 0 <= t < |xs| ensures Run(s, p, sin, xs).1[t] == xs[t] {
      RunOutput(s, p, sin, xs, t);
    }
  }

  /** With the LFO in [-1, 1] and a non-negative depth, the read offset lies in
      [0, depth * sampleRate], and the read cell lies inside the buffer. */
  lemma OffsetBounds(depth: real, sampleRate: int, lfo: real, index: int, len: int)
    requires depth >= 0.0 && sampleRate > 0 && -1.0 <= lfo <= 1.0 && len > 0
    ensures 0 <= DelaySamples(depth, sampleRate, lfo)
    ensures DelaySamples(depth, sampleRate, lfo) as real <= depth * (sampleRate as real)
    ensures 0 <= (index - DelaySamples(depth, sampleRate, lfo)) % len < len
  {
    var span := depth * (sampleRate as real);
    assert span >= 0.0;
    var x := span * (lfo + 1.0);
    ScaleBounds(span, lfo + 1.0, 2.0);
    assert span * 2.0 == 2.0 * span;
    DivBounds(x, 2.0, span);
    assert DelaySamples(depth, sampleRate, lfo) == Trunc(x / 2.0);
  }

  /** Silence into a silent line gives silence out, and the line stays silent. */
  lemma {:induction false} SilenceStaysSilent(s: LineState, p: Params, sin: real -> real, xs: seq<real>)
    requires p.sampleRate > 0 && ValidLine(s, p.sampleRate)
    requires AllZero(s.buffer) && AllZero(xs)
    ensures AllZero(Run(s, p, sin, xs).0.buffer) && AllZero(Run(s, p, sin, xs).1)
    decreases |xs|
  {
    if |xs| > 0 {
      SilenceStaysSilent(s, p, sin, xs[..|xs| - 1]);
    }
  }

  class ChorusEffect {
    const base: AudioEffect
    var rate: real
    var depth: real
    var mix: real
    var phase: int
    var buffer: array<real>
    var bufferIndex: int

    ghost predicate Valid()
      reads this
    {
      0 <= bufferIndex &&
      (buffer.Length > 0 ==> base.sampleRate > 0 && 0 <= phase < base.sampleRate && bufferIndex < buffer.Length) &&
      (buffer.Length == 0 ==> bufferIndex == 0)
    }

    function State(): LineState
      reads this, buffer
    {
      LineState(buffer[..], bufferIndex, phase)
    }

    function CurrentParams(): Params
      reads this
    {
      Params(base.sampleRate, rate, depth, mix)
    }

    /** A zeroed buffer of `int(sample_rate * 0.1)` samples, cursor and phase 0;
        `np.zeros` refuses only a negative length. A rate below 10 gives an
        empty buffer, on which every non-empty block raises. */
    constructor (sampleRate: int := 44100, rate: real := 1.0, depth: real := 0.002, mix: real := 0.5)
      requires Trunc(sampleRate as real * 0.1) >= 0
      ensures Valid() && fresh(base) && fresh(buffer)
      ensures base.sampleRate == sampleRate && base.isEnabled
      ensures this.rate == rate && this.depth == depth && this.mix == mix
      ensures buffer[..] == Zeros(Trunc(sampleRate as real * 0.1))
      ensures bufferIndex == 0 && phase == 0
    {
      base := new AudioEffect(sampleRate);
      this.rate := rate;
      this.depth := depth;
      this.mix := mix;
      phase := 0;
      buffer := new real[Trunc(sampleRate as real * 0.1)](_ => 0.0);
      bufferIndex := 0;
    }

    /** The per-sample loop over the down-mixed block. */
    method ProcessImpl(audio: Block, sin: real -> real) returns (r: Outcome<Block>)
      requires Valid() && Downmixable(audio)
      modifies this`phase, this`bufferIndex, buffer
      ensures Valid()
      ensures (r, State()) == Processed(old(State()), CurrentParams(), sin, Downmix(audio))
    {
      var m := Downmix(audio);
      if |m| == 0 {
        // the loop does not run: `np.zeros_like` of an empty block
        return Ok(Mono([]));
      }
      if buffer.Length == 0 {
        // the first write `buffer[buffer_index] = x` indexes an empty array
        return Raised(IndexError);
      }
      var output := RunBlock(m, sin);
      r := Ok(Mono(output));
    }

    /** `for i in range(len(audio_data))` over a non-empty buffer, filling
        `output = np.zeros_like(audio_data)` one mixed sample at a time (the
        local array is never shared, so it is modelled as a value). */
    method RunBlock(m: seq<real>, sin: real -> real) returns (output: seq<real>)
      requires Valid() && buffer.Length > 0
      modifies this`phase, this`bufferIndex, buffer
      ensures Valid()
      ensures (State(), output) == Run(old(State()), CurrentParams(), sin, m)
    {
      ghost var s0, p := State(), CurrentParams();
      output := Zeros(|m|);
      var i := 0;
      while i < |m|
        invariant 0 <= i <= |m| && |output| == |m| && Valid() && buffer.Length > 0 && CurrentParams() == p
        invariant (State(), output[..i]) == Run(s0, p, sin, m[..i])
      {
        ghost var before := Run(s0, p, sin, m[..i]);
        assert m[..i + 1] == m[..i] + [m[i]];
        RunSnoc(s0, p, sin, m[..i], m[i]);
        var y := Tick(m[i], sin);
        assert (State(), y) == Step(before.0, p, sin, m[i]);
        output := output[i := y];
        assert output[..i + 1] == before.1 + [y];
        i := i + 1;
      }
      assert m[..i] == m && output == output[..i];
    }

    /** One iteration of the per-sample loop, in place. */
    method Tick(x: real, sin: real -> real) returns (y: real)
      requires Valid() && buffer.Length > 0
      modifies this`phase, this`bufferIndex, buffer
      ensures Valid()
      ensures var st := Step(old(State()), CurrentParams(), sin, x);
        State() == st.0 && y == st.1
    {
      ghost var before := State();
      ghost var st := Step(before, CurrentParams(), sin, x);
      buffer[bufferIndex] := x;
      assert buffer[..] == st.0.buffer;
      var lfo := Lfo(sin, rate, phase, base.sampleRate);
      var delaySamples := DelaySamples(depth, base.sampleRate, lfo);
      var delayIndex := (bufferIndex - delaySamples) % buffer.Length;
      var delayed := buffer[delayIndex];
      StepRead(before, CurrentParams(), sin, x);
      y := Mix(mix, x, delayed);
      bufferIndex := (bufferIndex + 1) % buffer.Length;
      phase := (phase + 1) % base.sampleRate;
    }

    /** A disabled chorus hands the block back untouched and keeps its state. */
    method Process(audio: Block, sin: real -> real) returns (r: Outcome<Block>)
      requires Valid() && (base.isEnabled ==> Downmixable(audio))
      modifies this`phase, this`bufferIndex, buffer
      ensures Valid()
      ensures !base.isEnabled ==> r == Ok(audio) && State() == old(State())
      ensures base.isEnabled ==>
        (r, State()) == Processed(old(State()), CurrentParams(), sin, Downmix(audio))
    {
      if !base.isEnabled {
        return Ok(audio);
      }
      r := ProcessImpl(audio, sin);
    }

    /** Zeroes the buffer in place, phase and cursor; the length stays. */
    method Reset()
      requires Valid()
      modifies this`phase, this`bufferIndex, buffer
      ensures Valid()
      ensures phase == 0 && bufferIndex == 0 && buffer[..] == Zeros(buffer.Length)
    {
      phase := 0;
      forall k | 0 <= k < buffer.Length {
        buffer[k] := 0.0;
      }
      bufferIndex := 0;
    }
  }
}
