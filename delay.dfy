/** The echo of effects/delay/delay_effect.py: a circular buffer of
    `int(sample_rate * delay_time)` samples that is read at the cursor, written
    back with feedback at the same cell, and advanced; plus tap tempo, which
    sets the delay time to the mean interval between the last few taps and
    resizes the buffer. The clock `time()` is passed in as `now`. */
module Delay {
  import opened Audio
  import opened BaseEffect
  import Modular

  /** `max_tap_memory` and `tap_timeout` (seconds), fixed at construction. */
  const MaxTapMemory: int := 4
  const TapTimeout: real := 2.0

  /** The delay line: buffer contents and cursor. */
  datatype LineState = LineState(buffer: seq<real>, index: int)

  datatype Params = Params(feedback: real, mix: real)

  /** The cursors a delay line can have: resizing to `min(index, size - 1)`
      can leave -1, also when the buffer later grows again. */
  predicate ValidState(s: LineState)
  {
    -1 <= s.index && (s.index < |s.buffer| || s.index <= 0)
  }

  /** A line the per-sample loop can run on: a non-empty buffer. */
  predicate Runnable(s: LineState)
  {
    |s.buffer| > 0 && -1 <= s.index < |s.buffer|
  }

  /** The buffer size a delay time asks for, `int(sample_rate * delay_time)`. */
  function Size(sampleRate: int, delayTime: real): int
  {
    Trunc(sampleRate as real * delayTime)
  }

  /** The sample written back into the line: input plus feedback times the
      sample read. */
  function NewSample(x: real, feedback: real, delayed: real): real
  {
    x + feedback * delayed
  }

  /** One iteration of the per-sample loop: read the cell at the cursor,
      write input plus feedback back into it, mix, advance. */
  function Step(s: LineState, p: Params, x: real): (r: (LineState, real))
    requires Runnable(s)
    ensures Runnable(r.0) && |r.0.buffer| == |s.buffer|
    ensures 0 <= r.0.index
  {
    var cell := PyIndex(s.index, |s.buffer|);
    var delayed := s.buffer[cell];
    (LineState(s.buffer[cell := NewSample(x, p.feedback, delayed)], (s.index + 1) % |s.buffer|),
     Mix(p.mix, x, delayed))
  }

  /** The loop over a whole mono block: the final line and the output. */
  function Run(s: LineState, p: Params, xs: seq<real>): (r: (LineState, seq<real>))
    requires Runnable(s)
    ensures Runnable(r.0) && |r.0.buffer| == |s.buffer| && |r.1| == |xs|
    decreases |xs|
  {
    if |xs| == 0 then (s, [])
    else
      var before := Run(s, p, xs[..|xs| - 1]);
      var st := Step(before.0, p, xs[|xs| - 1]);
      (st.0, before.1 + [st.1])
  }

  /** One more sample is one more `Step`. */
  lemma {:induction false} RunSnoc(s: LineState, p: Params, xs: seq<real>, x: real)
    requires Runnable(s)
    ensures var before := Run(s, p, xs);
      Run(s, p, xs + [x]) == (Step(before.0, p, x).0, before.1 + [Step(before.0, p, x).1])
  {
    assert (xs + [x])[..|xs|] == xs;
  }

  /** What `_process_impl` returns and leaves behind: an empty buffer fails
      on the first read `buffer[buffer_index]`. */
  function Processed(s: LineState, p: Params, m: seq<real>): (r: (Outcome<Block>, LineState))
    requires ValidState(s)
    ensures r.0.Raised? <==> |m| > 0 && |s.buffer| == 0
    ensures r.0.Raised? ==> r.0.error == IndexError && r.1 == s
    ensures r.0.Ok? ==> r.0.value.Mono? && |r.0.value.samples| == |m|
    ensures |r.1.buffer| == |s.buffer|
  {
    if |m| == 0 then (Ok(Mono([])), s)
    else if |s.buffer| == 0 then (Raised(IndexError), s)
    else
      var r := Run(s, p, m);
      (Ok(Mono(r.1)), r.0)
  }

  /** The value written into the line at step `u` of a block (negative `u`:
      the cell content the block started with, `-u` cells behind the cursor).
      Step `u` writes its input plus feedback times what step `u - size` wrote. */
  function Written(s: LineState, p: Params, xs: seq<real>, u: int): real
    requires |s.buffer| > 0 && u < |xs|
    decreases u + |s.buffer|
  {
    if u < 0 then s.buffer[(s.index + u) % |s.buffer|]
    else NewSample(xs[u], p.feedback, Written(s, p, xs, u - |s.buffer|))
  }

  /** What a step writes depends only on the samples up to it. */
  lemma {:induction false} WrittenPrefix(s: LineState, p: Params, xs: seq<real>, k: int, u: int)
    requires |s.buffer| > 0 && 0 <= k <= |xs| && u < k
    ensures Written(s, p, xs[..k], u) == Written(s, p, xs, u)
    decreases u + |s.buffer|
  {
    if u >= 0 {
      WrittenPrefix(s, p, xs, k, u - |s.buffer|);
    }
  }

  /** The cursor advances by one cell per sample (a cursor of -1 is the last
      cell); after at least one sample it is exactly `(index + n) % size`. */
  lemma {:induction false} RunCursor(s: LineState, p: Params, xs: seq<real>)
    requires Runnable(s)
    ensures Run(s, p, xs).0.index % |s.buffer| == (s.index + |xs|) % |s.buffer|
    ensures |xs| > 0 ==> Run(s, p, xs).0.index == (s.index + |xs|) % |s.buffer|
    decreases |xs|
  {
    var n, len := |xs|, |s.buffer|;
    if n > 0 {
      RunCursor(s, p, xs[..n - 1]);
      var before := Run(s, p, xs[..n - 1]).0;
      var after := Run(s, p, xs).0;
      assert after.index == (before.index + 1) % len;
      Modular.ModSucc(before.index, len);
      Modular.ModSucc(s.index + n - 1, len);
      Modular.ModUnique(after.index, len, 0, after.index);
    }
  }

  /** After a block, the cell `u` steps past the starting cursor holds what
      step `u` wrote, for the last `size` steps. */
  lemma {:induction false} RunContents(s: LineState, p: Params, xs: seq<real>)
    requires Runnable(s)
    ensures forall u :: |xs| - |s.buffer| <= u < |xs| ==>
      Run(s, p, xs).0.buffer[(s.index + u) % |s.buffer|] == Written(s, p, xs, u)
    decreases |xs|, 0
  {
    var n, len := |xs|, |s.buffer|;
    if n > 0 {
      var xs' := xs[..n - 1];
      RunContents(s, p, xs');
      RunCursor(s, p, xs');
      var before := Run(s, p, xs').0;
      var c := PyIndex(before.index, len);
      assert c == (s.index + (n - 1)) % len;
      OldestAtCursor(s, p, xs');
      WrittenPrefix(s, p, xs, n - 1, n - 1 - len);
      var w := NewSample(xs[n - 1], p.feedback, before.buffer[c]);
      assert w == Written(s, p, xs, n - 1);
      var after := Run(s, p, xs).0.buffer;
      assert after == before.buffer[c := w];
      forall u | n - len <= u < n
        ensures after[(s.index + u) % len] == Written(s, p, xs, u)
      {
        if u < n - 1 {
          Modular.ModDistinct(s.index, u, n - 1, len);
          ContentsAt(s, p, xs', u);
          WrittenPrefix(s, p, xs, n - 1, u);
        }
      }
    }
  }

  /** The cell under the cursor holds the oldest sample, written `size` steps ago. */
  lemma {:induction false} OldestAtCursor(s: LineState, p: Params, xs: seq<real>)
    requires Runnable(s)
    ensures var after := Run(s, p, xs).0;
      after.buffer[after.index % |s.buffer|] == Written(s, p, xs, |xs| - |s.buffer|)
    decreases |xs|, 1
  {
    var len := |s.buffer|;
    RunContents(s, p, xs);
    RunCursor(s, p, xs);
    ContentsAt(s, p, xs, |xs| - len);
    assert s.index + (|xs| - len) == (s.index + |xs|) + (-1) * len;
    Modular.ModShift(s.index + |xs|, len, -1);
  }

  /** Instantiates the conclusion of `RunContents` at step `u`. */
  lemma {:induction false} ContentsAt(s: LineState, p: Params, xs: seq<real>, u: int)
    requires Runnable(s)
    requires forall v :: |xs| - |s.buffer| <= v < |xs| ==>
      Run(s, p, xs).0.buffer[(s.index + v) % |s.buffer|] == Written(s, p, xs, v)
    requires |xs| - |s.buffer| <= u < |xs|
    ensures Run(s, p, xs).0.buffer[(s.index + u) % |s.buffer|] == Written(s, p, xs, u)
  {
  }

  /** The delay line as an echo: each output mixes the dry sample with what
      was written `size` steps earlier. */
  lemma {:induction false} RunOutput(s: LineState, p: Params, xs: seq<real>, t: int)
    requires Runnable(s) && 0 <= t < |xs|
    ensures Run(s, p, xs).1[t] == Mix(p.mix, xs[t], Written(s, p, xs, t - |s.buffer|))
    decreases |xs|
  {
    var n, len := |xs|, |s.buffer|;
    var xs' := xs[..n - 1];
    var before := Run(s, p, xs');
    assert Run(s, p, xs) == (Step(before.0, p, xs[n - 1]).0, before.1 + [Step(before.0, p, xs[n - 1]).1]);
    if t < n - 1 {
      RunOutput(s, p, xs', t);
      WrittenPrefix(s, p, xs, n - 1, t - len);
    } else {
      RunContents(s, p, xs');
      OldestAtCursor(s, p, xs');
      WrittenPrefix(s, p, xs, n - 1, t - len);
    }
  }

  /** Without feedback the line is a pure delay of `size` samples: the wet
      signal is the input `size` samples back, or the starting buffer before that. */
  lemma {:induction false} NoFeedbackIsPureDelay(s: LineState, p: Params, xs: seq<real>, t: int)
    requires Runnable(s) && p.feedback == 0.0 && 0 <= t < |xs|
    ensures Run(s, p, xs).1[t] == Mix(p.mix, xs[t],
      if t >= |s.buffer| then xs[t - |s.buffer|] else s.buffer[(s.index + t) % |s.buffer|])
  {
    var len := |s.buffer|;
    RunOutput(s, p, xs, t);
    if t < len {
      assert s.index + (t - len) == (s.index + t) + (-1) * len;
      Modular.ModShift(s.index + t, len, -1);
    } else {
      assert Written(s, p, xs, t - len) == NewSample(xs[t - len], 0.0, Written(s, p, xs, t - 2 * len));
    }
  }

  /** Fully wet and without feedback, a block longer than the line comes out
      as the same block shifted by `size` samples. */
  lemma {:induction false} WetEchoShifts(s: LineState, p: Params, xs: seq<real>)
    requires Runnable(s) && p.feedback == 0.0 && p.mix == 1.0
    ensures forall t :: |s.buffer| <= t < |xs| ==> Run(s, p, xs).1[t] == xs[t - |s.buffer|]
  {
    forall t | |s.buffer| <= t < |xs| ensures Run(s, p, xs).1[t] == xs[t - |s.buffer|] {
      NoFeedbackIsPureDelay(s, p, xs, t);
    }
  }

  /** A fully dry mix gives back the input. */
  lemma {:induction false} DryMixIsIdentity(s: LineState, p: Params, xs: seq<real>)
    requires Runnable(s) && p.mix == 0.0
    ensures Run(s, p, xs).1 == xs
  {
    forall t | 0 <= t < |xs| ensures Run(s, p, xs).1[t] == xs[t] {
      RunOutput(s, p, xs, t);
    }
  }

  /** Silence into a silent line gives silence out, and the line stays silent. */
  lemma {:induction false} SilenceStaysSilent(s: LineState, p: Params, xs: seq<real>)
    requires Runnable(s) && AllZero(s.buffer) && AllZero(xs)
    ensures AllZero(Run(s, p, xs).0.buffer) && AllZero(Run(s, p, xs).1)
    decreases |xs|
  {
    if |xs| > 0 {
      SilenceStaysSilent(s, p, xs[..|xs| - 1]);
    }
  }

  /** `new_buffer[:copy_size] = buffer[:copy_size]` into `np.zeros(n)`. */
  function Resized(buf: seq<real>, n: nat): (r: seq<real>)
    ensures |r| == n
    ensures forall k :: 0 <= k < n && k < |buf| ==> r[k] == buf[k]
    ensures forall k :: |buf| <= k < n ==> r[k] == 0.0
  {
    seq(n, k requires 0 <= k < n => if k < |buf| then buf[k] else 0.0)
  }

  /** Growing the buffer and shrinking it back restores it. */
  lemma ResizeRoundTrip(buf: seq<real>, n: nat)
    requires n >= |buf|
    ensures Resized(Resized(buf, n), |buf|) == buf
  {
  }

  /** What `set_delay_time` does to the line for a requested size `n`: nothing
      if the size is unchanged, `ValueError` (from `np.zeros`) if it is negative,
      otherwise the resized buffer and the cursor clamped to `n - 1`. */
  function Retime(s: LineState, n: int): (r: Outcome<LineState>)
    requires ValidState(s)
    ensures r.Raised? <==> n < 0
    ensures r.Raised? ==> r.error == ValueError
    ensures r.Ok? ==> ValidState(r.value) && |r.value.buffer| == n
    ensures n == |s.buffer| ==> r == Ok(s)
  {
    if n == |s.buffer| then Ok(s)
    else if n < 0 then Raised(ValueError)
    else Ok(LineState(Resized(s.buffer, n), Min(s.index, n - 1)))
  }

  /** Asking for the size the line already has changes nothing, so
      `set_delay_time` is idempotent. */
  lemma RetimeIdempotent(s: LineState, n: int)
    requires ValidState(s) && Retime(s, n).Ok?
    ensures Retime(Retime(s, n).value, n) == Retime(s, n)
  {
  }

  /** The intervals between consecutive taps. */
  function Intervals(ts: seq<real>): (r: seq<real>)
    ensures |ts| > 0 ==> |r| == |ts| - 1
    ensures |ts| == 0 ==> r == []
  {
    if |ts| == 0 then [] else seq(|ts| - 1, i requires 0 <= i < |ts| - 1 => ts[i + 1] - ts[i])
  }

  /** The delay time a tap history asks for: the mean interval. */
  function TapDelay(ts: seq<real>): real
    requires |ts| >= 2
  {
    Mean(Intervals(ts))
  }

  /** The tap history after a tap at `now`: forgotten if the last tap is more
      than `TapTimeout` old, then the new tap, keeping the last `MaxTapMemory`. */
  function NextTaps(taps: seq<real>, last: real, now: real): (r: seq<real>)
    ensures 1 <= |r| <= MaxTapMemory && r[|r| - 1] == now
    ensures now - last > TapTimeout ==> r == [now]
    ensures now - last <= TapTimeout && |taps| < MaxTapMemory ==> r == taps + [now]
    ensures now - last <= TapTimeout && |taps| >= MaxTapMemory ==>
      r == taps[|taps| - MaxTapMemory + 1..] + [now]
  {
    var kept := if now - last > TapTimeout then [] else taps;
    var added := kept + [now];
    if |added| > MaxTapMemory then added[|added| - MaxTapMemory..] else added
  }

  /** The intervals telescope: their sum is the span from first to last tap. */
  lemma {:induction false} IntervalsTelescope(ts: seq<real>)
    requires |ts| > 0
    ensures Sum(Intervals(ts)) == ts[|ts| - 1] - ts[0]
    decreases |ts|
  {
    var n := |ts|;
    if n > 1 {
      IntervalsTelescope(ts[..n - 1]);
      assert Intervals(ts)[..n - 2] == Intervals(ts[..n - 1]);
    }
  }

  /** The tap delay is the span of the history divided by its number of intervals. */
  lemma TapDelayIsSpan(ts: seq<real>)
    requires |ts| >= 2
    ensures TapDelay(ts) == (ts[|ts| - 1] - ts[0]) / ((|ts| - 1) as real)
  {
    IntervalsTelescope(ts);
  }

  /** A history left by a clock that never runs backwards: it ends at the last
      tap and every interval lies between 0 and the timeout. */
  predicate TapHistory(taps: seq<real>, last: real)
  {
    (|taps| > 0 ==> taps[|taps| - 1] == last) &&
    forall i :: 0 < i < |taps| ==> 0.0 <= taps[i] - taps[i - 1] <= TapTimeout
  }

  /** A tap at a time no earlier than the last keeps the history well formed. */
  lemma TapHistoryPreserved(taps: seq<real>, last: real, now: real)
    requires TapHistory(taps, last) && now >= last
    ensures TapHistory(NextTaps(taps, last, now), now)
  {
    var kept := if now - last > TapTimeout then [] else taps;
    var added := kept + [now];
    forall i | 0 < i < |added| ensures 0.0 <= added[i] - added[i - 1] <= TapTimeout {
      if i < |kept| {
        assert added[i] == kept[i] && added[i - 1] == kept[i - 1];
      } else {
        assert added[i] == now && added[i - 1] == kept[|kept| - 1] == last;
      }
    }
    assert TapHistory(added, now);
    if |added| > MaxTapMemory {
      var r := added[|added| - MaxTapMemory..];
      forall i | 0 < i < |r| ensures 0.0 <= r[i] - r[i - 1] <= TapTimeout {
        assert r[i] == added[i + |added| - MaxTapMemory];
      }
      assert NextTaps(taps, last, now) == r;
    } else {
      assert NextTaps(taps, last, now) == added;
    }
  }

  /** Each of `n` terms lies in `[lo, hi]`, so the sum lies in `[n lo, n hi]`. */
  lemma {:induction false} SumBounds(s: seq<real>, lo: real, hi: real)
    requires forall i :: 0 <= i < |s| ==> lo <= s[i] <= hi
    ensures (|s| as real) * lo <= Sum(s) <= (|s| as real) * hi
    decreases |s|
  {
    var n := |s|;
    if n > 0 {
      SumBounds(s[..n - 1], lo, hi);
      assert Sum(s) == Sum(s[..n - 1]) + s[n - 1];
      assert (n as real) * lo == ((n - 1) as real) * lo + lo;
      assert (n as real) * hi == ((n - 1) as real) * hi + hi;
    }
  }

  /** With a well-formed history the tap delay lies between 0 and the timeout,
      so the buffer size it asks for lies between 0 and `2 * sample_rate`. */
  lemma TapDelayBounds(ts: seq<real>, last: real, sampleRate: int)
    requires TapHistory(ts, last) && |ts| >= 2 && sampleRate >= 0
    ensures 0.0 <= TapDelay(ts) <= TapTimeout
    ensures 0 <= Size(sampleRate, TapDelay(ts)) <= 2 * sampleRate
  {
    var iv := Intervals(ts);
    SumBounds(iv, 0.0, TapTimeout);
    DivBounds(Sum(iv), |iv| as real, TapTimeout);
    SizeBounds(sampleRate, TapDelay(ts));
  }

  /** A delay time in `[0, TapTimeout]` asks for between 0 and `2 * sample_rate` samples. */
  lemma SizeBounds(sampleRate: int, d: real)
    requires sampleRate >= 0 && 0.0 <= d <= TapTimeout
    ensures 0 <= Size(sampleRate, d) <= 2 * sampleRate
  {
    var v := sampleRate as real * d;
    ScaleBounds(sampleRate as real, d, TapTimeout);
    assert (sampleRate as real) * TapTimeout == (2 * sampleRate) as real;
    assert Size(sampleRate, d) as real <= v;
  }

  /** Taps from a clock that never runs backwards never make `set_delay_time` raise. */
  lemma SteadyTapsNeverRaise(s: LineState, taps: seq<real>, last: real, now: real, sampleRate: int)
    requires ValidState(s) && TapHistory(taps, last) && now >= last && sampleRate >= 0
    ensures var ts := NextTaps(taps, last, now);
      |ts| >= 2 ==> Retime(s, Size(sampleRate, TapDelay(ts))).Ok?
  {
    var ts := NextTaps(taps, last, now);
    TapHistoryPreserved(taps, last, now);
    if |ts| >= 2 {
      TapDelayBounds(ts, now, sampleRate);
    }
  }

  class DelayEffect {
    const base: AudioEffect
    var delayTime: real
    var feedback: real
    var mix: real
    var bufferSize: int
    var buffer: array<real>
    var bufferIndex: int
    var tapTimes: seq<real>
    var lastTapTime: real

    ghost predicate Valid()
      reads this
    {
      bufferSize == buffer.Length &&
      -1 <= bufferIndex && (bufferIndex < buffer.Length || bufferIndex <= 0)
    }

    function State(): LineState
      reads this, buffer
    {
      LineState(buffer[..], bufferIndex)
    }

    function CurrentParams(): Params
      reads this
    {
      Params(feedback, mix)
    }

    /** A zeroed buffer of `int(sample_rate * delay_time)` samples, cursor 0,
        no taps. */
    constructor (sampleRate: int := 44100, delayTime: real := 0.3, feedback: real := 0.3, mix: real := 0.5)
      requires Size(sampleRate, delayTime) >= 0
      ensures Valid() && fresh(base) && fresh(buffer)
      ensures base.sampleRate == sampleRate && base.isEnabled
      ensures this.delayTime == delayTime && this.feedback == feedback && this.mix == mix
      ensures buffer[..] == Zeros(Size(sampleRate, delayTime)) && bufferIndex == 0
      ensures tapTimes == [] && lastTapTime == 0.0
    {
      base := new AudioEffect(sampleRate);
      this.delayTime := delayTime;
      this.feedback := feedback;
      this.mix := mix;
      bufferSize := Size(sampleRate, delayTime);
      buffer := new real[Size(sampleRate, delayTime)](_ => 0.0);
      bufferIndex := 0;
      tapTimes := [];
      lastTapTime := 0.0;
    }

    /** A tap at time `now`; with two taps or more the delay time becomes
        their mean interval. */
    method TapTempo(now: real) returns (r: Outcome<()>)
      requires Valid()
      modifies this`tapTimes, this`lastTapTime, this`delayTime, this`buffer,
        this`bufferSize, this`bufferIndex
      ensures Valid() && (buffer == old(buffer) || fresh(buffer))
      ensures tapTimes == NextTaps(old(tapTimes), old(lastTapTime), now) && lastTapTime == now
      ensures |tapTimes| < 2 ==>
        r == Ok(()) && delayTime == old(delayTime) && State() == old(State())
      ensures |tapTimes| >= 2 ==> delayTime == TapDelay(tapTimes)
      ensures |tapTimes| >= 2 ==>
        (match Retime(old(State()), Size(base.sampleRate, delayTime))
         case Ok(s) => r == Ok(()) && State() == s
         case Raised(e) => r == Raised(e) && State() == old(State()))
    {
      if now - lastTapTime > TapTimeout {
        tapTimes := [];
      }
      tapTimes := tapTimes + [now];
      lastTapTime := now;
      if |tapTimes| > MaxTapMemory {
        tapTimes := tapTimes[|tapTimes| - MaxTapMemory..];
      }
      if |tapTimes| >= 2 {
        var intervals := Intervals(tapTimes);
        var newDelayTime := Sum(intervals) / (|intervals| as real);
        r := SetDelayTime(newDelayTime);
      } else {
        r := Ok(());
      }
    }

    /** Sets the delay time and resizes the buffer when its size changes,
        keeping the common prefix and clamping the cursor. */
    method SetDelayTime(delayTime: real) returns (r: Outcome<()>)
      requires Valid()
      modifies this`delayTime, this`buffer, this`bufferSize, this`bufferIndex
      ensures Valid() && this.delayTime == delayTime
      ensures buffer == old(buffer) || fresh(buffer)
      ensures match Retime(old(State()), Size(base.sampleRate, delayTime))
        case Ok(s) => r == Ok(()) && State() == s
        case Raised(e) => r == Raised(e) && State() == old(State())
    {
      this.delayTime := delayTime;
      var newSize := Size(base.sampleRate, delayTime);
      if newSize != bufferSize {
        if newSize < 0 {
          // np.zeros refuses a negative dimension
          return Raised(ValueError);
        }
        var newBuffer := new real[newSize](_ => 0.0);
        var copySize := Min(bufferSize, newSize);
        forall k | 0 <= k < copySize {
          newBuffer[k] := buffer[k];
        }
        buffer := newBuffer;
        bufferSize := newSize;
        bufferIndex := Min(bufferIndex, newSize - 1);
      }
      r := Ok(());
    }

    /** The per-sample loop over the down-mixed block. */
    method ProcessImpl(audio: Block) returns (r: Outcome<Block>)
      requires Valid() && Downmixable(audio)
      modifies buffer, this`bufferIndex
      ensures Valid()
      ensures (r, State()) == Processed(old(State()), CurrentParams(), Downmix(audio))
    {
      var m := Downmix(audio);
      if |m| == 0 {
        // the loop does not run: `np.zeros_like` of an empty block
        return Ok(Mono([]));
      }
      if bufferSize == 0 {
        // the first read `buffer[buffer_index]` indexes an empty array
        return Raised(IndexError);
      }
      var output := RunBlock(m);
      r := Ok(Mono(output));
    }

    /** `for i in range(len(audio_data))` over a non-empty buffer, filling
        `output = np.zeros_like(audio_data)` one mixed sample at a time (the
        local array is never shared, so it is modelled as a value). */
    method RunBlock(m: seq<real>) returns (output: seq<real>)
      requires Valid() && bufferSize > 0
      modifies buffer, this`bufferIndex
      ensures Valid()
      ensures (State(), output) == Run(old(State()), CurrentParams(), m)
    {
      ghost var s0, p := State(), CurrentParams();
      output := Zeros(|m|);
      var i := 0;
      while i < |m|
        invariant 0 <= i <= |m| && |output| == |m| && Valid() && bufferSize > 0 && CurrentParams() == p
        invariant (State(), output[..i]) == Run(s0, p, m[..i])
      {
        ghost var before := Run(s0, p, m[..i]);
        assert m[..i + 1] == m[..i] + [m[i]];
        RunSnoc(s0, p, m[..i], m[i]);
        var y := Tick(m[i]);
        assert (State(), y) == Step(before.0, p, m[i]);
        output := output[i := y];
        assert output[..i + 1] == before.1 + [y];
        i := i + 1;
      }
      assert m[..i] == m && output == output[..i];
    }

    /** One iteration of the per-sample loop, in place. */
    method Tick(x: real) returns (y: real)
      requires Valid() && bufferSize > 0
      modifies buffer, this`bufferIndex
      ensures Valid()
      ensures State() == Step(old(State()), CurrentParams(), x).0
      ensures y == Step(old(State()), CurrentParams(), x).1
    {
      ghost var before := State();
      var cell := PyIndex(bufferIndex, bufferSize);
      var delayed := buffer[cell];
      var newSample := x + feedback * delayed;
      buffer[cell] := newSample;
      assert buffer[..] == before.buffer[cell := NewSample(x, feedback, delayed)];
      y := Mix(mix, x, delayed);
      bufferIndex := (bufferIndex + 1) % bufferSize;
    }

    /** A disabled delay hands the block back untouched and keeps its state. */
    method Process(audio: Block) returns (r: Outcome<Block>)
      requires Valid() && (base.isEnabled ==> Downmixable(audio))
      modifies buffer, this`bufferIndex
      ensures Valid()
      ensures !base.isEnabled ==> r == Ok(audio) && State() == old(State())
      ensures base.isEnabled ==>
        (r, State()) == Processed(old(State()), CurrentParams(), Downmix(audio))
    {
      if !base.isEnabled {
        return Ok(audio);
      }
      r := ProcessImpl(audio);
    }

    /** Zeroes the buffer in place, rewinds the cursor and forgets the taps. */
    method Reset()
      requires Valid()
      modifies buffer, this`bufferIndex, this`tapTimes, this`lastTapTime
      ensures Valid() && buffer[..] == Zeros(buffer.Length) && bufferIndex == 0
      ensures tapTimes == [] && lastTapTime == 0.0
    {
      forall k | 0 <= k < buffer.Length {
        buffer[k] := 0.0;
      }
      bufferIndex := 0;
      tapTimes := [];
      lastTapTime := 0.0;
    }
  }
}
