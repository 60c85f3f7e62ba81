/** The reverb of effects/reverb/reverb_effect.py: four early-reflection and
    four late-reverberation delay lines. Each block is read out of every line
    through the window of cells `(k + index) % n` (`n` the block length),
    then written back into the same window: the input for the early lines,
    the input plus half the early reflections for the late lines. A line
    shorter than the block is first grown to the block length. */
module Reverb {
  import opened Audio
  import opened BaseEffect
  import Modular

  /** The delay times (seconds) and feedback gains of the lines. */
  const EarlyTimes: seq<real> := [0.01, 0.015, 0.02, 0.025]
  const LateTimes: seq<real> := [0.03, 0.035, 0.04, 0.045]
  const EarlyGains: seq<real> := [0.7, 0.6, 0.5, 0.4]
  const LateGains: seq<real> := [0.3, 0.25, 0.2, 0.15]
  const Lines: int := 4

  /** `int(sample_rate * t)`: a delay time in whole samples. */
  function LineLength(sampleRate: int, t: real): (d: int)
    ensures sampleRate >= 0 && t >= 0.0 ==> d >= 0
  {
    Trunc(sampleRate as real * t)
  }

  /** `[int(sample_rate * t) for t in times]`. */
  function Delays(sampleRate: int, times: seq<real>): (d: seq<int>)
    ensures |d| == |times|
    ensures forall i :: 0 <= i < |times| ==> d[i] == LineLength(sampleRate, times[i])
  {
    seq(|times|, i requires 0 <= i < |times| => LineLength(sampleRate, times[i]))
  }

  /** A line grown to at least `n` cells: the old contents, then zeros. */
  function Grow(buf: seq<real>, n: int): (g: seq<real>)
    ensures |buf| < n ==> |g| == n
    ensures |buf| >= n ==> g == buf
    ensures forall k :: 0 <= k < |buf| ==> g[k] == buf[k]
    ensures forall k :: |buf| <= k < |g| ==> g[k] == 0.0
  {
    if |buf| < n then buf + Zeros(n - |buf|) else buf
  }

  /** `buffer[np.mod(np.arange(n) + index, n)]`. */
  function Window(buf: seq<real>, idx: int, n: int): (w: seq<real>)
    requires 0 < n <= |buf|
    ensures |w| == n
    ensures forall k :: 0 <= k < n ==> w[k] == buf[(k + idx) % n]
  {
    seq(n, k requires 0 <= k < n => buf[(k + idx) % n])
  }

  /** `buffer[np.mod(np.arange(n) + index, n)] = vals`: cell `j < n` receives
      the value whose window position is `(j - index) % n`, cells from `n` on
      keep theirs. */
  function Overwrite(buf: seq<real>, idx: int, vals: seq<real>): (r: seq<real>)
    requires 0 < |vals| <= |buf|
    ensures |r| == |buf|
    ensures forall j :: |vals| <= j < |buf| ==> r[j] == buf[j]
  {
    seq(|buf|, j requires 0 <= j < |buf| => if j < |vals| then vals[(j - idx) % |vals|] else buf[j])
  }

  /** The scatter puts value `k` at window position `k`. */
  lemma OverwriteAt(buf: seq<real>, idx: int, vals: seq<real>, k: int)
    requires 0 < |vals| <= |buf| && 0 <= k < |vals|
    ensures Overwrite(buf, idx, vals)[(k + idx) % |vals|] == vals[k]
  {
    Modular.WindowInverse(k, idx, |vals|);
  }

  /** Reading the window just written gives back what was written. */
  lemma WindowOfOverwrite(buf: seq<real>, idx: int, vals: seq<real>)
    requires 0 < |vals| <= |buf|
    ensures Window(Overwrite(buf, idx, vals), idx, |vals|) == vals
  {
    forall k | 0 <= k < |vals|
      ensures Window(Overwrite(buf, idx, vals), idx, |vals|)[k] == vals[k]
    {
      OverwriteAt(buf, idx, vals, k);
    }
  }

  /** A window only depends on the cursor modulo `n`. */
  lemma WindowModIndex(buf: seq<real>, idx: int, n: int)
    requires 0 < n <= |buf|
    ensures Window(buf, (idx + n) % n, n) == Window(buf, idx, n)
  {
    forall k | 0 <= k < n ensures Window(buf, (idx + n) % n, n)[k] == Window(buf, idx, n)[k] {
      CursorMod(k, idx, n);
    }
  }

  lemma CursorMod(k: int, idx: int, n: int)
    requires n > 0
    ensures (k + (idx + n) % n) % n == (k + idx) % n
  {
    var q := (idx + n) / n;
    assert k + (idx + n) % n == (k + idx) + (1 - q) * n;
    Modular.ModShift(k + idx, n, 1 - q);
  }

  /** One reflection: `sample * gain * room_size`. */
  function Tap(b: real, gain: real, room: real): real
  {
    b * gain * room
  }

  /** `sample * (1 - damping)`. */
  function Damp(b: real, damping: real): real
  {
    b * (1.0 - damping)
  }

  /** What a late line is fed: `x + early * 0.5`. */
  function Feedback(x: real, early: real): real
  {
    x + early * 0.5
  }

  function Taps(w: seq<real>, gain: real, room: real): (r: seq<real>)
    ensures |r| == |w|
    ensures forall k :: 0 <= k < |w| ==> r[k] == Tap(w[k], gain, room)
  {
    seq(|w|, k requires 0 <= k < |w| => Tap(w[k], gain, room))
  }

  function Damped(w: seq<real>, damping: real): (r: seq<real>)
    ensures |r| == |w|
    ensures forall k :: 0 <= k < |w| ==> r[k] == Damp(w[k], damping)
  {
    seq(|w|, k requires 0 <= k < |w| => Damp(w[k], damping))
  }

  /** `audio_data + early_reflections * 0.5`. */
  function LateInput(m: seq<real>, early: seq<real>): (r: seq<real>)
    requires |early| == |m|
    ensures |r| == |m|
    ensures forall k :: 0 <= k < |m| ==> r[k] == Feedback(m[k], early[k])
  {
    seq(|m|, k requires 0 <= k < |m| => Feedback(m[k], early[k]))
  }

  /** Element-wise `a + b`, numpy's `+=`. */
  function Add(a: seq<real>, b: seq<real>): (r: seq<real>)
    requires |a| == |b|
    ensures |r| == |a|
    ensures forall k :: 0 <= k < |a| ==> r[k] == a[k] + b[k]
  {
    seq(|a|, k requires 0 <= k < |a| => a[k] + b[k])
  }

  /** What one early line contributes to a block of length `n`. */
  function EarlyTaps(buf: seq<real>, idx: int, gain: real, room: real, n: int): (r: seq<real>)
    requires n > 0
    ensures |r| == n
  {
    Taps(Window(Grow(buf, n), idx, n), gain, room)
  }

  /** What one late line contributes: its window damped, then tapped. */
  function LateTaps(buf: seq<real>, idx: int, gain: real, damping: real, room: real, n: int): (r: seq<real>)
    requires n > 0
    ensures |r| == n
  {
    Taps(Damped(Window(Grow(buf, n), idx, n), damping), gain, room)
  }

  /** The early reflections accumulated over the first `i` early lines. */
  function EarlySum(bufs: seq<seq<real>>, idxs: seq<int>, room: real, n: int, i: int): (r: seq<real>)
    requires n > 0 && 0 <= i <= Lines && |bufs| == Lines && |idxs| == Lines
    ensures |r| == n
    decreases i
  {
    if i == 0 then Zeros(n)
    else Add(EarlySum(bufs, idxs, room, n, i - 1), EarlyTaps(bufs[i - 1], idxs[i - 1], EarlyGains[i - 1], room, n))
  }

  /** The late reverberation accumulated over the first `i` late lines. */
  function LateSum(bufs: seq<seq<real>>, idxs: seq<int>, damping: real, room: real, n: int, i: int): (r: seq<real>)
    requires n > 0 && 0 <= i <= Lines && |bufs| == Lines && |idxs| == Lines
    ensures |r| == n
    decreases i
  {
    if i == 0 then Zeros(n)
    else Add(LateSum(bufs, idxs, damping, room, n, i - 1),
             LateTaps(bufs[i - 1], idxs[i - 1], LateGains[i - 1], damping, room, n))
  }

  /** The lines after the first `i` of them have had `vals` written into their window. */
  function Rewritten(bufs: seq<seq<real>>, idxs: seq<int>, vals: seq<real>, i: int): (r: seq<seq<real>>)
    requires |vals| > 0 && |bufs| == Lines && |idxs| == Lines
    ensures |r| == Lines
  {
    seq(Lines, j requires 0 <= j < Lines =>
      if j < i then Overwrite(Grow(bufs[j], |vals|), idxs[j], vals) else bufs[j])
  }

  /** The cursors after the first `i` lines moved on by `(index + n) % n`. */
  function Advanced(idxs: seq<int>, n: int, i: int): (r: seq<int>)
    requires n > 0 && |idxs| == Lines
    ensures |r| == Lines
  {
    seq(Lines, j requires 0 <= j < Lines => if j < i then (idxs[j] + n) % n else idxs[j])
  }

  /** Writing line `i` takes `Rewritten` from `i` lines to `i + 1`. */
  lemma RewrittenStep(bufs: seq<seq<real>>, idxs: seq<int>, vals: seq<real>, i: int)
    requires |vals| > 0 && |bufs| == Lines && |idxs| == Lines && 0 <= i < Lines
    ensures Rewritten(bufs, idxs, vals, i)[i] == bufs[i]
    ensures Rewritten(bufs, idxs, vals, i)[i := Overwrite(Grow(bufs[i], |vals|), idxs[i], vals)] ==
      Rewritten(bufs, idxs, vals, i + 1)
  {
  }

  /** Moving cursor `i` takes `Advanced` from `i` cursors to `i + 1`. */
  lemma AdvancedStep(idxs: seq<int>, n: int, i: int)
    requires n > 0 && |idxs| == Lines && 0 <= i < Lines
    ensures Advanced(idxs, n, i)[i] == idxs[i]
    ensures Advanced(idxs, n, i)[i := (idxs[i] + n) % n] == Advanced(idxs, n, i + 1)
  {
  }

  /** All delay lines and their cursors. */
  datatype ReverbState = ReverbState(early: seq<seq<real>>, earlyIndex: seq<int>,
                                     late: seq<seq<real>>, lateIndex: seq<int>)

  predicate WellFormed(s: ReverbState)
  {
    |s.early| == Lines && |s.earlyIndex| == Lines && |s.late| == Lines && |s.lateIndex| == Lines
  }

  datatype Params = Params(roomSize: real, damping: real, mix: real)

  /** `np.clip((1 - mix) * audio_data + mix * (early + late), -1, 1)`. */
  function Output(mix: real, m: seq<real>, early: seq<real>, late: seq<real>): (r: seq<real>)
    requires |early| == |m| && |late| == |m|
    ensures |r| == |m|
    ensures forall k :: 0 <= k < |m| ==> r[k] == Clip(Mix(mix, m[k], early[k] + late[k]))
  {
    ClipAll(seq(|m|, k requires 0 <= k < |m| => Mix(mix, m[k], early[k] + late[k])))
  }

  /** The dry part of the mix, `(1 - mix) * audio_data`. */
  function DryPart(mix: real, m: seq<real>): (r: seq<real>)
    ensures |r| == |m|
    ensures forall k :: 0 <= k < |m| ==> r[k] == (1.0 - mix) * m[k]
  {
    seq(|m|, k requires 0 <= k < |m| => (1.0 - mix) * m[k])
  }

  /** The running values of one of `_process_impl`'s two loops: the
      accumulated array (`early_reflections` or `late_reverb`), the lines
      and their cursors. */
  datatype Pass = Pass(acc: seq<real>, lines: seq<seq<real>>, cursors: seq<int>)

  predicate PassShape(q: Pass, n: int)
  {
    |q.acc| == n && |q.lines| == Lines && |q.cursors| == Lines
  }

  /** One iteration of the early loop, on line `i` as the loop finds it:
      grow, read the window into the reflections, write the block, advance. */
  function EarlyStep(q: Pass, room: real, m: seq<real>, i: int): (r: Pass)
    requires |m| > 0 && PassShape(q, |m|) && 0 <= i < Lines
    ensures PassShape(r, |m|)
  {
    var n := |m|;
    Pass(Add(q.acc, EarlyTaps(q.lines[i], q.cursors[i], EarlyGains[i], room, n)),
         q.lines[i := Overwrite(Grow(q.lines[i], n), q.cursors[i], m)],
         q.cursors[i := (q.cursors[i] + n) % n])
  }

  /** The early loop after its first `i` iterations. */
  function EarlyLoop(lines: seq<seq<real>>, cursors: seq<int>, room: real, m: seq<real>, i: int): (r: Pass)
    requires |m| > 0 && |lines| == Lines && |cursors| == Lines && 0 <= i <= Lines
    ensures PassShape(r, |m|)
    decreases i
  {
    if i == 0 then Pass(Zeros(|m|), lines, cursors)
    else EarlyStep(EarlyLoop(lines, cursors, room, m, i - 1), room, m, i - 1)
  }

  /** One iteration of the late loop: grow, read the window damped into the
      reverberation, write `vals`, advance. */
  function LateStep(q: Pass, damping: real, room: real, vals: seq<real>, i: int): (r: Pass)
    requires |vals| > 0 && PassShape(q, |vals|) && 0 <= i < Lines
    ensures PassShape(r, |vals|)
  {
    var n := |vals|;
    Pass(Add(q.acc, LateTaps(q.lines[i], q.cursors[i], LateGains[i], damping, room, n)),
         q.lines[i := Overwrite(Grow(q.lines[i], n), q.cursors[i], vals)],
         q.cursors[i := (q.cursors[i] + n) % n])
  }

  /** The late loop after its first `i` iterations. */
  function LateLoop(lines: seq<seq<real>>, cursors: seq<int>, damping: real, room: real,
                    vals: seq<real>, i: int): (r: Pass)
    requires |vals| > 0 && |lines| == Lines && |cursors| == Lines && 0 <= i <= Lines
    ensures PassShape(r, |vals|)
    decreases i
  {
    if i == 0 then Pass(Zeros(|vals|), lines, cursors)
    else LateStep(LateLoop(lines, cursors, damping, room, vals, i - 1), damping, room, vals, i - 1)
  }

  /** Each iteration touches only its own line, so the loop equals the
      line-by-line sums over the lines as they were before the loop. */
  lemma {:induction false} EarlyLoopClosedForm(lines: seq<seq<real>>, cursors: seq<int>, room: real, m: seq<real>, i: int)
    requires |m| > 0 && |lines| == Lines && |cursors| == Lines && 0 <= i <= Lines
    ensures EarlyLoop(lines, cursors, room, m, i) ==
      Pass(EarlySum(lines, cursors, room, |m|, i), Rewritten(lines, cursors, m, i), Advanced(cursors, |m|, i))
    decreases i
  {
    if i > 0 {
      EarlyLoopClosedForm(lines, cursors, room, m, i - 1);
      EarlyStepClosedForm(lines, cursors, room, m, i - 1);
    }
  }

  /** One early iteration takes the closed form from `i` lines to `i + 1`. */
  lemma EarlyStepClosedForm(lines: seq<seq<real>>, cursors: seq<int>, room: real, m: seq<real>, i: int)
    requires |m| > 0 && |lines| == Lines && |cursors| == Lines && 0 <= i < Lines
    ensures EarlyStep(Pass(EarlySum(lines, cursors, room, |m|, i), Rewritten(lines, cursors, m, i), Advanced(cursors, |m|, i)), room, m, i) ==
      Pass(EarlySum(lines, cursors, room, |m|, i + 1), Rewritten(lines, cursors, m, i + 1), Advanced(cursors, |m|, i + 1))
  {
    RewrittenStep(lines, cursors, m, i);
    AdvancedStep(cursors, |m|, i);
  }

  lemma {:induction false} LateLoopClosedForm(lines: seq<seq<real>>, cursors: seq<int>, damping: real, room: real,
                                              vals: seq<real>, i: int)
    requires |vals| > 0 && |lines| == Lines && |cursors| == Lines && 0 <= i <= Lines
    ensures LateLoop(lines, cursors, damping, room, vals, i) ==
      Pass(LateSum(lines, cursors, damping, room, |vals|, i), Rewritten(lines, cursors, vals, i), Advanced(cursors, |vals|, i))
    decreases i
  {
    if i > 0 {
      LateLoopClosedForm(lines, cursors, damping, room, vals, i - 1);
      LateStepClosedForm(lines, cursors, damping, room, vals, i - 1);
    }
  }

  /** One late iteration takes the closed form from `i` lines to `i + 1`. */
  lemma LateStepClosedForm(lines: seq<seq<real>>, cursors: seq<int>, damping: real, room: real, vals: seq<real>, i: int)
    requires |vals| > 0 && |lines| == Lines && |cursors| == Lines && 0 <= i < Lines
    ensures LateStep(Pass(LateSum(lines, cursors, damping, room, |vals|, i), Rewritten(lines, cursors, vals, i), Advanced(cursors, |vals|, i)),
                     damping, room, vals, i) ==
      Pass(LateSum(lines, cursors, damping, room, |vals|, i + 1), Rewritten(lines, cursors, vals, i + 1), Advanced(cursors, |vals|, i + 1))
  {
    RewrittenStep(lines, cursors, vals, i);
    AdvancedStep(cursors, |vals|, i);
  }

  /** `early_reflections` once all early lines have been read, summed over
      the lines as the block found them. */
  function EarlyReflections(s: ReverbState, room: real, n: int): (r: seq<real>)
    requires WellFormed(s) && n > 0
    ensures |r| == n
  {
    EarlySum(s.early, s.earlyIndex, room, n, |s.early|)
  }

  /** `late_reverb` once all late lines have been read. */
  function LateReverb(s: ReverbState, damping: real, room: real, n: int): (r: seq<real>)
    requires WellFormed(s) && n > 0
    ensures |r| == n
  {
    LateSum(s.late, s.lateIndex, damping, room, n, |s.late|)
  }

  /** The lines after a non-empty block: every line grown to the block length
      and its window overwritten, the early lines with the block, the late
      lines with the block plus half its early reflections; every cursor
      moved on by the block length. */
  function NextState(s: ReverbState, p: Params, m: seq<real>): (t: ReverbState)
    requires WellFormed(s) && |m| > 0
    ensures WellFormed(t)
  {
    var fed := LateInput(m, EarlyReflections(s, p.roomSize, |m|));
    ReverbState(Rewritten(s.early, s.earlyIndex, m, Lines), Advanced(s.earlyIndex, |m|, Lines),
                Rewritten(s.late, s.lateIndex, fed, Lines), Advanced(s.lateIndex, |m|, Lines))
  }

  /** What `_process_impl` returns and leaves behind. An empty block fails
      with `ZeroDivisionError` at the first cursor update `(index + 0) % 0`,
      before anything has changed. */
  function Processed(s: ReverbState, p: Params, m: seq<real>): (Outcome<Block>, ReverbState)
    requires WellFormed(s)
  {
    if |m| == 0 then (Raised(ZeroDivisionError), s)
    else
      (Ok(Mono(Output(p.mix, m, EarlyReflections(s, p.roomSize, |m|),
                      LateReverb(s, p.damping, p.roomSize, |m|)))),
       NextState(s, p, m))
  }

  /** Only the empty block raises, and it leaves the lines alone; any other
      block comes back as one mono channel of its own length and leaves a
      well-formed state. */
  lemma ProcessedOutcome(s: ReverbState, p: Params, m: seq<real>)
    requires WellFormed(s)
    ensures Processed(s, p, m).0.Raised? <==> |m| == 0
    ensures Processed(s, p, m).0.Raised? ==>
      Processed(s, p, m).0.error == ZeroDivisionError && Processed(s, p, m).1 == s
    ensures Processed(s, p, m).0.Ok? ==>
      Processed(s, p, m).0.value.Mono? && |Processed(s, p, m).0.value.samples| == |m|
    ensures WellFormed(Processed(s, p, m).1)
  {
  }

  /** The cursor update `(index + n) % n` only reduces the cursor modulo
      the block length: a cursor that starts at 0 stays at 0. */
  lemma CursorsKeepRemainder(s: ReverbState, p: Params, m: seq<real>, j: int)
    requires WellFormed(s) && |m| > 0 && 0 <= j < Lines
    ensures NextState(s, p, m).earlyIndex[j] == s.earlyIndex[j] % |m|
    ensures NextState(s, p, m).lateIndex[j] == s.lateIndex[j] % |m|
  {
    var t := NextState(s, p, m);
    assert t.earlyIndex == Advanced(s.earlyIndex, |m|, Lines) && t.lateIndex == Advanced(s.lateIndex, |m|, Lines);
    AdvancedIsRemainder(s.earlyIndex, |m|, j);
    AdvancedIsRemainder(s.lateIndex, |m|, j);
  }

  lemma AdvancedIsRemainder(idxs: seq<int>, n: int, j: int)
    requires n > 0 && |idxs| == Lines && 0 <= j < Lines
    ensures Advanced(idxs, n, Lines)[j] == idxs[j] % n
  {
    Modular.ModShift(idxs[j], n, 1);
  }

  /** A line shorter than the block grows to the block length; otherwise it
      keeps its length, and its cells from the block length on keep their
      samples. */
  lemma LinesOnlyGrow(s: ReverbState, p: Params, m: seq<real>, j: int)
    requires WellFormed(s) && |m| > 0 && 0 <= j < Lines
    ensures |NextState(s, p, m).early[j]| == if |s.early[j]| < |m| then |m| else |s.early[j]|
    ensures |NextState(s, p, m).late[j]| == if |s.late[j]| < |m| then |m| else |s.late[j]|
    ensures forall k :: |m| <= k < |s.early[j]| ==> NextState(s, p, m).early[j][k] == s.early[j][k]
    ensures forall k :: |m| <= k < |s.late[j]| ==> NextState(s, p, m).late[j][k] == s.late[j][k]
  {
  }

  /** A line at least `n` long is not grown. */
  lemma GrowLong(buf: seq<real>, n: int)
    requires |buf| >= n
    ensures Grow(buf, n) == buf
  {
  }

  /** Overwriting a line's window and moving its cursor on leaves the
      written values in the window the next block of that length reads. */
  lemma LineHoldsWritten(g: seq<real>, idx: int, vals: seq<real>)
    requires 0 < |vals| <= |g|
    ensures Window(Overwrite(g, idx, vals), (idx + |vals|) % |vals|, |vals|) == vals
  {
    var n, o := |vals|, Overwrite(g, idx, vals);
    var w := Window(o, (idx + n) % n, n);
    forall k {:trigger w[k]} | 0 <= k < n ensures w[k] == vals[k] {
      CursorMod(k, idx, n);
      OverwriteAt(g, idx, vals, k);
    }
  }

  /** After a block, every early line's window holds that block, and every
      late line's window holds the block plus half its early reflections. */
  lemma LinesHoldBlock(s: ReverbState, p: Params, m: seq<real>, j: int)
    requires WellFormed(s) && |m| > 0 && 0 <= j < Lines
    ensures Window(Grow(NextState(s, p, m).early[j], |m|), NextState(s, p, m).earlyIndex[j], |m|) == m
    ensures Window(Grow(NextState(s, p, m).late[j], |m|), NextState(s, p, m).lateIndex[j], |m|) ==
      LateInput(m, EarlyReflections(s, p.roomSize, |m|))
  {
    var fed := LateInput(m, EarlyReflections(s, p.roomSize, |m|));
    RewrittenHolds(s.early, s.earlyIndex, m, j);
    RewrittenHolds(s.late, s.lateIndex, fed, j);
  }

  /** Line `j` after all lines were written holds `vals` in its next window. */
  lemma RewrittenHolds(bufs: seq<seq<real>>, idxs: seq<int>, vals: seq<real>, j: int)
    requires |vals| > 0 && |bufs| == Lines && |idxs| == Lines && 0 <= j < Lines
    ensures Window(Grow(Rewritten(bufs, idxs, vals, Lines)[j], |vals|), Advanced(idxs, |vals|, Lines)[j], |vals|) == vals
  {
    var n, g := |vals|, Grow(bufs[j], |vals|);
    var o := Overwrite(g, idxs[j], vals);
    assert Rewritten(bufs, idxs, vals, Lines)[j] == o;
    assert Advanced(idxs, n, Lines)[j] == (idxs[j] + n) % n;
    GrowLong(o, n);
    LineHoldsWritten(g, idxs[j], vals);
  }

  /** Two reflections of one sample add up to one with the summed gain. */
  lemma TapsAdd(b: real, g1: real, g2: real, room: real)
    ensures Tap(b, g1, room) + Tap(b, g2, room) == Tap(b, g1 + g2, room)
  {
    assert b * g1 * room + b * g2 * room == b * (g1 + g2) * room;
  }

  /** Early lines whose windows all hold `w` reflect `w` scaled by the sum of
      the gains of the lines read so far. */
  lemma {:induction false} EarlyOfEqualWindows(bufs: seq<seq<real>>, idxs: seq<int>, room: real, w: seq<real>, i: int)
    requires |w| > 0 && 0 <= i <= Lines && |bufs| == Lines && |idxs| == Lines
    requires forall j :: 0 <= j < Lines ==> Window(Grow(bufs[j], |w|), idxs[j], |w|) == w
    ensures forall k :: 0 <= k < |w| ==>
      EarlySum(bufs, idxs, room, |w|, i)[k] == Tap(w[k], Sum(EarlyGains[..i]), room)
    decreases i
  {
    if i > 0 {
      EarlyOfEqualWindows(bufs, idxs, room, w, i - 1);
      assert EarlyGains[..i][..i - 1] == EarlyGains[..i - 1];
      forall k | 0 <= k < |w|
        ensures EarlySum(bufs, idxs, room, |w|, i)[k] == Tap(w[k], Sum(EarlyGains[..i]), room)
      {
        TapsAdd(w[k], Sum(EarlyGains[..i - 1]), EarlyGains[i - 1], room);
      }
    }
  }

  lemma {:induction false} LateOfEqualWindows(bufs: seq<seq<real>>, idxs: seq<int>, damping: real, room: real, w: seq<real>, i: int)
    requires |w| > 0 && 0 <= i <= Lines && |bufs| == Lines && |idxs| == Lines
    requires forall j :: 0 <= j < Lines ==> Window(Grow(bufs[j], |w|), idxs[j], |w|) == w
    ensures forall k :: 0 <= k < |w| ==>
      LateSum(bufs, idxs, damping, room, |w|, i)[k] == Tap(Damp(w[k], damping), Sum(LateGains[..i]), room)
    decreases i
  {
    if i > 0 {
      LateOfEqualWindows(bufs, idxs, damping, room, w, i - 1);
      assert LateGains[..i][..i - 1] == LateGains[..i - 1];
      forall k | 0 <= k < |w|
        ensures LateSum(bufs, idxs, damping, room, |w|, i)[k] == Tap(Damp(w[k], damping), Sum(LateGains[..i]), room)
      {
        TapsAdd(Damp(w[k], damping), Sum(LateGains[..i - 1]), LateGains[i - 1], room);
      }
    }
  }

  /** The reverberation heard in a block is the previous block of the same
      length: its early reflections are that block times
      0.7 + 0.6 + 0.5 + 0.4 = 2.2 times `room_size`, its late reverberation
      what the late lines were fed, damped, times 0.3 + 0.25 + 0.2 + 0.15 =
      0.9 times `room_size`. */
  lemma NextBlockEchoes(s: ReverbState, p: Params, m: seq<real>, q: Params)
    requires WellFormed(s) && |m| > 0
    ensures forall k :: 0 <= k < |m| ==>
      EarlyReflections(NextState(s, p, m), q.roomSize, |m|)[k] == Tap(m[k], 2.2, q.roomSize)
    ensures forall k :: 0 <= k < |m| ==>
      LateReverb(NextState(s, p, m), q.damping, q.roomSize, |m|)[k] ==
      Tap(Damp(LateInput(m, EarlyReflections(s, p.roomSize, |m|))[k], q.damping), 0.9, q.roomSize)
  {
    var t := NextState(s, p, m);
    var fed := LateInput(m, EarlyReflections(s, p.roomSize, |m|));
    forall j | 0 <= j < Lines
      ensures Window(Grow(t.early[j], |m|), t.earlyIndex[j], |m|) == m
      ensures Window(Grow(t.late[j], |m|), t.lateIndex[j], |m|) == fed
    {
      LinesHoldBlock(s, p, m, j);
    }
    EarlyOfEqualWindows(t.early, t.earlyIndex, q.roomSize, m, Lines);
    LateOfEqualWindows(t.late, t.lateIndex, q.damping, q.roomSize, fed, Lines);
    GainSums();
    assert EarlyGains[..Lines] == EarlyGains && LateGains[..Lines] == LateGains;
  }

  /** The early gains add up to 2.2, the late ones to 0.9. */
  lemma GainSums()
    ensures Sum(EarlyGains) == 2.2 && Sum(LateGains) == 0.9
  {
    assert [0.7][..0] == [] && [0.7, 0.6][..1] == [0.7] && [0.7, 0.6, 0.5][..2] == [0.7, 0.6];
    assert EarlyGains[..3] == [0.7, 0.6, 0.5];
    assert Sum([0.7, 0.6, 0.5]) == 1.8;
    assert [0.3][..0] == [] && [0.3, 0.25][..1] == [0.3] && [0.3, 0.25, 0.2][..2] == [0.3, 0.25];
    assert LateGains[..3] == [0.3, 0.25, 0.2];
    assert Sum([0.3, 0.25, 0.2]) == 0.75;
  }

  lemma {:induction false} EarlySilentRoom(bufs: seq<seq<real>>, idxs: seq<int>, n: int, i: int)
    requires n > 0 && 0 <= i <= Lines && |bufs| == Lines && |idxs| == Lines
    ensures EarlySum(bufs, idxs, 0.0, n, i) == Zeros(n)
    decreases i
  {
    if i > 0 {
      EarlySilentRoom(bufs, idxs, n, i - 1);
      assert EarlySum(bufs, idxs, 0.0, n, i) == Zeros(n);
    }
  }

  lemma {:induction false} LateSilentRoom(bufs: seq<seq<real>>, idxs: seq<int>, damping: real, n: int, i: int)
    requires n > 0 && 0 <= i <= Lines && |bufs| == Lines && |idxs| == Lines
    ensures LateSum(bufs, idxs, damping, 0.0, n, i) == Zeros(n)
    decreases i
  {
    if i > 0 {
      LateSilentRoom(bufs, idxs, damping, n, i - 1);
      assert LateSum(bufs, idxs, damping, 0.0, n, i) == Zeros(n);
    }
  }

  /** A room of size 0 reflects nothing: the output is the clipped dry part. */
  lemma NoRoomIsDry(s: ReverbState, p: Params, m: seq<real>)
    requires WellFormed(s) && |m| > 0 && p.roomSize == 0.0
    ensures Processed(s, p, m).0 == Ok(Mono(ClipAll(DryPart(p.mix, m))))
  {
    EarlySilentRoom(s.early, s.earlyIndex, |m|, |s.early|);
    LateSilentRoom(s.late, s.lateIndex, p.damping, |m|, |s.late|);
    DryOutput(p.mix, m, EarlyReflections(s, p.roomSize, |m|), LateReverb(s, p.damping, p.roomSize, |m|));
    ProcessedOutput(s, p, m);
  }

  lemma DryOutput(mix: real, m: seq<real>, early: seq<real>, late: seq<real>)
    requires early == Zeros(|m|) && late == Zeros(|m|)
    ensures Output(mix, m, early, late) == ClipAll(DryPart(mix, m))
  {
    forall k | 0 <= k < |m| ensures Output(mix, m, early, late)[k] == ClipAll(DryPart(mix, m))[k] {
      assert early[k] + late[k] == 0.0;
      assert Mix(mix, m[k], 0.0) == (1.0 - mix) * m[k];
    }
  }

  /** The samples `_process_impl` returns for a non-empty block. */
  lemma ProcessedOutput(s: ReverbState, p: Params, m: seq<real>)
    requires WellFormed(s) && |m| > 0
    ensures Processed(s, p, m).0 ==
      Ok(Mono(Output(p.mix, m, EarlyReflections(s, p.roomSize, |m|), LateReverb(s, p.damping, p.roomSize, |m|))))
  {
  }

  /** A fully dry mix outputs the clipped input, whatever the lines hold. */
  lemma DryMixIsClippedInput(s: ReverbState, p: Params, m: seq<real>)
    requires WellFormed(s) && |m| > 0 && p.mix == 0.0
    ensures Processed(s, p, m).0 == Ok(Mono(ClipAll(m)))
  {
    var early := EarlyReflections(s, p.roomSize, |m|);
    var late := LateReverb(s, p.damping, p.roomSize, |m|);
    forall k | 0 <= k < |m| ensures Output(p.mix, m, early, late)[k] == ClipAll(m)[k] {
      MixDry(m[k], early[k] + late[k]);
    }
    assert Output(p.mix, m, early, late) == ClipAll(m);
  }

  /** Every line of the state holds only zeros. */
  predicate Silent(s: ReverbState)
    requires WellFormed(s)
  {
    forall j :: 0 <= j < Lines ==> AllZero(s.early[j]) && AllZero(s.late[j])
  }

  lemma {:induction false} EarlySilentLines(bufs: seq<seq<real>>, idxs: seq<int>, room: real, n: int, i: int)
    requires n > 0 && 0 <= i <= Lines && |bufs| == Lines && |idxs| == Lines
    requires forall j :: 0 <= j < Lines ==> AllZero(bufs[j])
    ensures EarlySum(bufs, idxs, room, n, i) == Zeros(n)
    decreases i
  {
    if i > 0 {
      EarlySilentLines(bufs, idxs, room, n, i - 1);
      var w := Window(Grow(bufs[i - 1], n), idxs[i - 1], n);
      assert forall k :: 0 <= k < n ==> w[k] == 0.0;
      assert EarlySum(bufs, idxs, room, n, i) == Zeros(n);
    }
  }

  lemma {:induction false} LateSilentLines(bufs: seq<seq<real>>, idxs: seq<int>, damping: real, room: real, n: int, i: int)
    requires n > 0 && 0 <= i <= Lines && |bufs| == Lines && |idxs| == Lines
    requires forall j :: 0 <= j < Lines ==> AllZero(bufs[j])
    ensures LateSum(bufs, idxs, damping, room, n, i) == Zeros(n)
    decreases i
  {
    if i > 0 {
      LateSilentLines(bufs, idxs, damping, room, n, i - 1);
      var w := Window(Grow(bufs[i - 1], n), idxs[i - 1], n);
      assert forall k :: 0 <= k < n ==> w[k] == 0.0;
      var d := Damped(w, damping);
      forall k | 0 <= k < n ensures d[k] == 0.0 {
        assert d[k] == Damp(w[k], damping) && w[k] == 0.0;
      }
      assert Taps(d, LateGains[i - 1], room) == Zeros(n);
      assert LateSum(bufs, idxs, damping, room, n, i) == Zeros(n);
    }
  }

  /** Silence into silent lines gives silence out and leaves the lines silent. */
  lemma SilenceStaysSilent(s: ReverbState, p: Params, m: seq<real>)
    requires WellFormed(s) && |m| > 0 && Silent(s) && AllZero(m)
    ensures Processed(s, p, m).0 == Ok(Mono(Zeros(|m|)))
    ensures Silent(NextState(s, p, m))
  {
    var n := |m|;
    var early := EarlyReflections(s, p.roomSize, n);
    var late := LateReverb(s, p.damping, p.roomSize, n);
    assert early == Zeros(n) by { EarlySilentLines(s.early, s.earlyIndex, p.roomSize, n, |s.early|); }
    assert late == Zeros(n) by { LateSilentLines(s.late, s.lateIndex, p.damping, p.roomSize, n, |s.late|); }
    SilentOutput(p.mix, m, early, late);
    ProcessedOutput(s, p, m);
    var fed := LateInput(m, early);
    assert AllZero(fed);
    RewrittenSilent(s.early, s.earlyIndex, m);
    RewrittenSilent(s.late, s.lateIndex, fed);
  }

  lemma SilentOutput(mix: real, m: seq<real>, early: seq<real>, late: seq<real>)
    requires AllZero(m) && early == Zeros(|m|) && late == Zeros(|m|)
    ensures Output(mix, m, early, late) == Zeros(|m|)
  {
    forall k | 0 <= k < |m| ensures Output(mix, m, early, late)[k] == 0.0 {
      assert m[k] == 0.0 && early[k] + late[k] == 0.0;
      assert Mix(mix, m[k], 0.0) == 0.0;
    }
  }

  /** Writing silence into silent lines leaves them silent. */
  lemma RewrittenSilent(bufs: seq<seq<real>>, idxs: seq<int>, vals: seq<real>)
    requires |vals| > 0 && |bufs| == Lines && |idxs| == Lines && AllZero(vals)
    requires forall j :: 0 <= j < Lines ==> AllZero(bufs[j])
    ensures forall j :: 0 <= j < Lines ==> AllZero(Rewritten(bufs, idxs, vals, Lines)[j])
  {
    forall j | 0 <= j < Lines ensures AllZero(Rewritten(bufs, idxs, vals, Lines)[j]) {
      var n, g := |vals|, Grow(bufs[j], |vals|);
      var o := Overwrite(g, idxs[j], vals);
      assert Rewritten(bufs, idxs, vals, Lines)[j] == o;
      forall k | 0 <= k < |o| ensures o[k] == 0.0 {
        if k < n {
          assert o[k] == vals[(k - idxs[j]) % n];
        } else {
          assert o[k] == g[k];
        }
      }
    }
  }

  /** A state with every line holding only zeros. */
  lemma SilentLinesGiveDryOutput(s: ReverbState, p: Params, m: seq<real>)
    requires WellFormed(s) && |m| > 0 && Silent(s)
    ensures Processed(s, p, m).0 == Ok(Mono(ClipAll(DryPart(p.mix, m))))
  {
    EarlySilentLines(s.early, s.earlyIndex, p.roomSize, |m|, |s.early|);
    LateSilentLines(s.late, s.lateIndex, p.damping, p.roomSize, |m|, |s.late|);
    DryOutput(p.mix, m, EarlyReflections(s, p.roomSize, |m|), LateReverb(s, p.damping, p.roomSize, |m|));
    ProcessedOutput(s, p, m);
  }

  /** The lines after the first `i` of them have been zeroed in place. */
  function ClearedLines(bufs: seq<seq<real>>, i: int): (r: seq<seq<real>>)
    requires |bufs| == Lines
    ensures |r| == Lines
    ensures forall j :: 0 <= j < Lines ==> |r[j]| == |bufs[j]|
  {
    seq(Lines, j requires 0 <= j < Lines => if j < i then Zeros(|bufs[j]|) else bufs[j])
  }

  /** What `reset` leaves: every line zeroed at its current length, every
      cursor 0. */
  function Cleared(s: ReverbState): (t: ReverbState)
    requires WellFormed(s)
    ensures WellFormed(t)
  {
    ReverbState(ClearedLines(s.early, Lines), [0, 0, 0, 0], ClearedLines(s.late, Lines), [0, 0, 0, 0])
  }

  /** After `reset` the lines are silent and keep their lengths, so the next
      block comes out dry. */
  lemma ClearedIsSilent(s: ReverbState)
    requires WellFormed(s)
    ensures Silent(Cleared(s))
    ensures forall j :: 0 <= j < Lines ==>
      |Cleared(s).early[j]| == |s.early[j]| && |Cleared(s).late[j]| == |s.late[j]|
  {
  }

  /** The lines of a new reverb: `np.zeros(delay)` for each delay. */
  function ZeroedLines(delays: seq<int>): (r: seq<seq<real>>)
    requires forall i :: 0 <= i < |delays| ==> delays[i] >= 0
    ensures |r| == |delays|
    ensures forall i :: 0 <= i < |delays| ==> r[i] == Zeros(delays[i])
  {
    seq(|delays|, i requires 0 <= i < |delays| => Zeros(delays[i]))
  }

  /** `np.zeros(delay)` accepts every delay time: no `int(sample_rate * t)`
      is negative. */
  predicate Constructible(sampleRate: int)
  {
    forall i :: 0 <= i < Lines ==>
      Delays(sampleRate, EarlyTimes)[i] >= 0 && Delays(sampleRate, LateTimes)[i] >= 0
  }

  /** Every non-negative rate is constructible, and so are the negative rates
      above the longest delay's `-1 / 0.045`, where every length truncates to 0. */
  lemma ConstructibleRates(sampleRate: int)
    ensures sampleRate >= 0 ==> Constructible(sampleRate)
    ensures -22 <= sampleRate <= 0 ==> Constructible(sampleRate)
    ensures -22 <= sampleRate <= 0 ==> forall i :: 0 <= i < Lines ==>
      Delays(sampleRate, EarlyTimes)[i] == 0 && Delays(sampleRate, LateTimes)[i] == 0
    ensures sampleRate <= -23 ==> !Constructible(sampleRate)
  {
    assert forall i :: 0 <= i < Lines ==> 0.0 < EarlyTimes[i] <= 0.045 && 0.0 < LateTimes[i] <= 0.045;
    assert LateTimes[3] == 0.045;
    if sampleRate <= -23 {
      assert Delays(sampleRate, LateTimes)[3] < 0;
    }
  }

  /** The state of a new reverb. */
  function Initial(sampleRate: int): (s: ReverbState)
    requires Constructible(sampleRate)
    ensures WellFormed(s)
  {
    ReverbState(ZeroedLines(Delays(sampleRate, EarlyTimes)), [0, 0, 0, 0],
                ZeroedLines(Delays(sampleRate, LateTimes)), [0, 0, 0, 0])
  }

  /** A new reverb is silent, with line lengths `int(sample_rate * t)`. */
  lemma InitialIsSilent(sampleRate: int)
    requires Constructible(sampleRate)
    ensures Silent(Initial(sampleRate))
    ensures forall j :: 0 <= j < Lines ==>
      |Initial(sampleRate).early[j]| == LineLength(sampleRate, EarlyTimes[j]) &&
      |Initial(sampleRate).late[j]| == LineLength(sampleRate, LateTimes[j])
  {
  }

  /** The contents of the arrays of a list of lines. */
  function Contents(bs: seq<array<real>>): (r: seq<seq<real>>)
    reads bs
    ensures |r| == |bs|
    ensures forall i :: 0 <= i < |bs| ==> r[i] == bs[i][..]
  {
    seq(|bs|, i reads bs requires 0 <= i < |bs| => bs[i][..])
  }

  /** No two lines share an array. */
  predicate Distinct(bs: seq<array<real>>)
  {
    forall i, j :: 0 <= i < j < |bs| ==> bs[i] != bs[j]
  }

  /** One line of `_process_impl`'s loops: grow the array if it is shorter
      than the block (a new zeroed array with the old samples in front),
      read its window, then write `vals` into the window. The write
      `buffer[indices] = vals` is done cell by cell: cell `j` receives the
      value at window position `(j - index) % n`, the same assignment since
      the window positions are a permutation of the cells. */
  method Line(b: array<real>, idx: int, vals: seq<real>) returns (g: array<real>, w: seq<real>)
    requires |vals| > 0
    modifies b
    ensures g == b || fresh(g)
    ensures w == Window(Grow(old(b[..]), |vals|), idx, |vals|)
    ensures g[..] == Overwrite(Grow(old(b[..]), |vals|), idx, vals)
  {
    var n := |vals|;
    g := b;
    if b.Length < n {
      g := new real[n](_ => 0.0);
      forall k | 0 <= k < b.Length {
        g[k] := b[k];
      }
    }
    assert g[..] == Grow(old(b[..]), n);
    w := Window(g[..], idx, n);
    forall j | 0 <= j < n {
      g[j] := vals[(j - idx) % n];
    }
    assert g[..] == Overwrite(Grow(old(b[..]), n), idx, vals);
  }

  class ReverbEffect {
    const base: AudioEffect
    var roomSize: real
    var damping: real
    var mix: real
    const earlyDelays: seq<int>
    const lateDelays: seq<int>
    var earlyBuffers: seq<array<real>>
    var lateBuffers: seq<array<real>>
    var earlyIndices: seq<int>
    var lateIndices: seq<int>

    /** Four lines of each kind, each with a cursor, no array shared. */
    ghost predicate Valid()
      reads this
    {
      |earlyBuffers| == Lines && |lateBuffers| == Lines &&
      |earlyIndices| == Lines && |lateIndices| == Lines &&
      Distinct(earlyBuffers) && Distinct(lateBuffers) &&
      (forall i, j :: 0 <= i < Lines && 0 <= j < Lines ==> earlyBuffers[i] != lateBuffers[j])
    }

    function State(): ReverbState
      reads this, earlyBuffers, lateBuffers
    {
      ReverbState(Contents(earlyBuffers), earlyIndices, Contents(lateBuffers), lateIndices)
    }

    function CurrentParams(): Params
      reads this
    {
      Params(roomSize, damping, mix)
    }

    /** A new reverb: for each delay time a zeroed line of
        `int(sample_rate * t)` samples, every cursor 0. */
    constructor (sampleRate: int := 44100, roomSize: real := 0.5, damping: real := 0.5, mix: real := 0.3)
      requires Constructible(sampleRate)
      ensures Valid() && fresh(base)
      ensures base.sampleRate == sampleRate && base.isEnabled
      ensures this.roomSize == roomSize && this.damping == damping && this.mix == mix
      ensures earlyDelays == Delays(sampleRate, EarlyTimes) && lateDelays == Delays(sampleRate, LateTimes)
      ensures forall j :: 0 <= j < Lines ==> fresh(earlyBuffers[j]) && fresh(lateBuffers[j])
      ensures State() == Initial(sampleRate)
    {
      base := new AudioEffect(sampleRate);
      this.roomSize := roomSize;
      this.damping := damping;
      this.mix := mix;
      var ed, ld := Delays(sampleRate, EarlyTimes), Delays(sampleRate, LateTimes);
      earlyDelays, lateDelays := ed, ld;
      var eb := ZeroLines(ed);
      ghost var early := Contents(eb);
      var lb := ZeroLines(ld);
      assert Contents(eb) == early;
      ghost var late := Contents(lb);
      earlyBuffers, lateBuffers := eb, lb;
      earlyIndices, lateIndices := [0, 0, 0, 0], [0, 0, 0, 0];
      new;
      assert Contents(earlyBuffers) == early && Contents(lateBuffers) == late;
      assert Initial(sampleRate) == ReverbState(early, [0, 0, 0, 0], late, [0, 0, 0, 0]);
    }

    /** `[np.zeros(delay) for delay in delays]`. */
    static method ZeroLines(delays: seq<int>) returns (bs: seq<array<real>>)
      requires forall i :: 0 <= i < |delays| ==> delays[i] >= 0
      ensures |bs| == |delays| && Distinct(bs)
      ensures forall i :: 0 <= i < |bs| ==> fresh(bs[i])
      ensures Contents(bs) == ZeroedLines(delays)
    {
      bs := [];
      var i := 0;
      while i < |delays|
        invariant 0 <= i <= |delays| && |bs| == i && Distinct(bs)
        invariant forall j :: 0 <= j < i ==> fresh(bs[j]) && bs[j][..] == Zeros(delays[j])
      {
        var b := new real[delays[i]](_ => 0.0);
        bs := bs + [b];
        i := i + 1;
      }
    }

    /** One iteration of the early loop, on line `i`; `acc` is
        `early_reflections` so far. */
    method EarlyLine(i: int, m: seq<real>, acc: seq<real>) returns (acc': seq<real>)
      requires Valid() && 0 <= i < Lines && |m| > 0 && |acc| == |m|
      modifies this`earlyBuffers, this`earlyIndices, earlyBuffers[i]
      ensures Valid()
      ensures Pass(acc', Contents(earlyBuffers), earlyIndices) ==
        EarlyStep(Pass(acc, old(State()).early, old(earlyIndices)), roomSize, m, i)
      ensures Contents(lateBuffers) == old(State()).late
      ensures forall j :: 0 <= j < Lines && j != i ==> earlyBuffers[j] == old(earlyBuffers[j])
      ensures earlyBuffers[i] == old(earlyBuffers[i]) || fresh(earlyBuffers[i])
    {
      ghost var s0 := State();
      var n := |m|;
      var g, w := Line(earlyBuffers[i], earlyIndices[i], m);
      acc' := Add(acc, Taps(w, EarlyGains[i], roomSize));
      earlyBuffers := earlyBuffers[i := g];
      earlyIndices := earlyIndices[i := (earlyIndices[i] + n) % n];
      assert Contents(earlyBuffers) == s0.early[i := Overwrite(Grow(s0.early[i], n), old(earlyIndices[i]), m)];
    }

    /** One iteration of the late loop, on line `i`, fed `vals`, the block
        plus half its early reflections; `acc` is `late_reverb` so far. */
    method LateLine(i: int, vals: seq<real>, acc: seq<real>) returns (acc': seq<real>)
      requires Valid() && 0 <= i < Lines && |vals| > 0 && |acc| == |vals|
      modifies this`lateBuffers, this`lateIndices, lateBuffers[i]
      ensures Valid()
      ensures Pass(acc', Contents(lateBuffers), lateIndices) ==
        LateStep(Pass(acc, old(State()).late, old(lateIndices)), damping, roomSize, vals, i)
      ensures Contents(earlyBuffers) == old(State()).early
      ensures forall j :: 0 <= j < Lines && j != i ==> lateBuffers[j] == old(lateBuffers[j])
      ensures lateBuffers[i] == old(lateBuffers[i]) || fresh(lateBuffers[i])
    {
      ghost var s0 := State();
      var n := |vals|;
      var g, w := Line(lateBuffers[i], lateIndices[i], vals);
      var damped := Damped(w, damping);
      acc' := Add(acc, Taps(damped, LateGains[i], roomSize));
      lateBuffers := lateBuffers[i := g];
      lateIndices := lateIndices[i := (lateIndices[i] + n) % n];
      assert Contents(lateBuffers) == s0.late[i := Overwrite(Grow(s0.late[i], n), old(lateIndices[i]), vals)];
    }

    /** The loop over the early lines. */
    method EarlyPass(m: seq<real>) returns (early: seq<real>)
      requires Valid() && |m| > 0
      modifies this`earlyBuffers, this`earlyIndices, earlyBuffers
      ensures Valid()
      ensures early == EarlyReflections(old(State()), roomSize, |m|)
      ensures Contents(earlyBuffers) == Rewritten(old(State()).early, old(earlyIndices), m, Lines)
      ensures earlyIndices == Advanced(old(earlyIndices), |m|, Lines)
      ensures Contents(lateBuffers) == old(State()).late
    {
      ghost var s0 := State();
      early := Zeros(|m|);
      var i := 0;
      while i < Lines
        invariant 0 <= i <= Lines && Valid()
        invariant Pass(early, Contents(earlyBuffers), earlyIndices) ==
          EarlyLoop(s0.early, s0.earlyIndex, roomSize, m, i)
        invariant Contents(lateBuffers) == s0.late
        invariant forall j :: i <= j < Lines ==> earlyBuffers[j] == old(earlyBuffers[j])
      {
        early := EarlyLine(i, m, early);
        i := i + 1;
      }
      EarlyLoopClosedForm(s0.early, s0.earlyIndex, roomSize, m, Lines);
    }

    /** The loop over the late lines, fed `vals`. */
    method LatePass(vals: seq<real>) returns (late: seq<real>)
      requires Valid() && |vals| > 0
      modifies this`lateBuffers, this`lateIndices, lateBuffers
      ensures Valid()
      ensures late == LateReverb(old(State()), damping, roomSize, |vals|)
      ensures Contents(lateBuffers) == Rewritten(old(State()).late, old(lateIndices), vals, Lines)
      ensures lateIndices == Advanced(old(lateIndices), |vals|, Lines)
      ensures Contents(earlyBuffers) == old(State()).early
    {
      ghost var s0 := State();
      late := Zeros(|vals|);
      var i := 0;
      while i < Lines
        invariant 0 <= i <= Lines && Valid()
        invariant Pass(late, Contents(lateBuffers), lateIndices) ==
          LateLoop(s0.late, s0.lateIndex, damping, roomSize, vals, i)
        invariant Contents(earlyBuffers) == s0.early
        invariant forall j :: i <= j < Lines ==> lateBuffers[j] == old(lateBuffers[j])
      {
        late := LateLine(i, vals, late);
        i := i + 1;
      }
      LateLoopClosedForm(s0.late, s0.lateIndex, damping, roomSize, vals, Lines);
    }

    /** `_process_impl`. An empty block raises `ZeroDivisionError` at the
        first cursor update; everything before it in the first early pass
        works on empty windows and changes nothing, so the check comes first. */
    method ProcessImpl(audio: Block) returns (r: Outcome<Block>)
      requires Valid() && Downmixable(audio)
      modifies this`earlyBuffers, this`earlyIndices, this`lateBuffers, this`lateIndices, earlyBuffers, lateBuffers
      ensures Valid()
      ensures (r, State()) == Processed(old(State()), CurrentParams(), Downmix(audio))
    {
      ghost var s0, p := State(), CurrentParams();
      var m := Downmix(audio);
      if |m| == 0 {
        return Raised(ZeroDivisionError);
      }
      var early := EarlyPass(m);
      ghost var s1 := State();
      assert s1.late == s0.late && s1.lateIndex == s0.lateIndex;
      var late := LatePass(LateInput(m, early));
      assert State() == NextState(s0, p, m);
      ProcessedOutput(s0, p, m);
      r := Ok(Mono(Output(mix, m, early, late)));
    }

    /** A disabled reverb hands the block back untouched and keeps its state. */
    method Process(audio: Block) returns (r: Outcome<Block>)
      requires Valid() && (base.isEnabled ==> Downmixable(audio))
      modifies this`earlyBuffers, this`earlyIndices, this`lateBuffers, this`lateIndices, earlyBuffers, lateBuffers
      ensures Valid()
      ensures !base.isEnabled ==> r == Ok(audio) && State() == old(State())
      ensures base.isEnabled ==>
        (r, State()) == Processed(old(State()), CurrentParams(), Downmix(audio))
    {
      if !base.isEnabled {
        return Ok(audio);
      }
      r := ProcessImpl(audio);
    }

    /** `buffer.fill(0)`. */
    static method Fill(b: array<real>)
      modifies b
      ensures b[..] == Zeros(b.Length)
    {
      forall k | 0 <= k < b.Length {
        b[k] := 0.0;
      }
    }

    /** `for buffer in buffers: buffer.fill(0)`. */
    static method FillAll(bs: seq<array<real>>)
      requires |bs| == Lines && Distinct(bs)
      modifies bs
      ensures Contents(bs) == ClearedLines(old(Contents(bs)), Lines)
    {
      ghost var b0 := Contents(bs);
      var i := 0;
      while i < Lines
        invariant 0 <= i <= Lines
        invariant Contents(bs) == ClearedLines(b0, i)
      {
        Fill(bs[i]);
        assert ClearedLines(b0, i)[i := Zeros(|b0[i]|)] == ClearedLines(b0, i + 1);
        i := i + 1;
      }
    }

    /** Zeroes every line in place, keeping its length, and every cursor. */
    method Reset()
      requires Valid()
      modifies this`earlyIndices, this`lateIndices, earlyBuffers, lateBuffers
      ensures Valid()
      ensures State() == Cleared(old(State()))
    {
      ghost var s0 := State();
      FillAll(earlyBuffers);
      FillAll(lateBuffers);
      assert Contents(earlyBuffers) == ClearedLines(s0.early, Lines);
      earlyIndices := [0, 0, 0, 0];
      lateIndices := [0, 0, 0, 0];
    }
  }
}
