# Audio effects, modelled and verified in Dafny

This project models the `effects/` package of a small Python guitar-rig
program. The package has five stateful audio effects, and each one processes
a numpy block of samples:

- **`AudioEffect`**: the shared enable/bypass contract. A disabled effect hands its input back unchanged.
- **`ChorusEffect`**: a 100 ms circular buffer, read at an offset swept by a sine LFO.
- **`DelayEffect`**: a feedback delay line. `set_delay_time` resizes it, and `tap_tempo` sets the delay time to the mean interval between the last four taps.
- **`DriveEffect`**: `tanh` waveshaping, then a one-pole tone filter, an output level and a clip to [-1, 1].
- **`ReverbEffect`**: four early-reflection and four late-reverberation delay lines. Each is read and written through a window that wraps modulo the block length.

Each source file is one module:

| module | file | models |
|---|---|---|
| `Audio` | `audio.dfy` | The numpy vocabulary the effects share: blocks, the down-mix `np.mean(axis=1)`, `np.zeros`, `np.clip`, Python's truncating `int()`, negative list indices, and the exceptions a block can raise. |
| `Modular` | `modular.dfy` | The facts about Euclidean `%` that the circular buffers need. |
| `BaseEffect` | `base_effect.dfy` | `AudioEffect`. |
| `Chorus` | `chorus.dfy` | `ChorusEffect`. |
| `Delay` | `delay.dfy` | `DelayEffect`. |
| `Drive` | `drive.dfy` | `DriveEffect`. |
| `Reverb` | `reverb.dfy` | `ReverbEffect`. |

Every effect is a `class`, and the attributes the source reads and updates
are its fields. Buffers are `array<real>`, and Python lists of buffers are
`seq<array<real>>`. The attributes that are set once and never change are
module constants instead: the delay's `max_tap_memory` and `tap_timeout`
(`Delay.MaxTapMemory`, `Delay.TapTimeout`), and the reverb's gains and delay
times. The constructors take the Python default arguments as Dafny default
parameter values.

Each per-sample or per-line loop is a `method` with a `while` loop. It is
proved against a specification written as functions on values:

- `Step` and `Run` for the chorus and the delay.
- `EarlyStep`/`EarlyLoop` and `LateStep`/`LateLoop` for the reverb.
- `Filter` for the drive.

For the chorus, the delay and the reverb, `_process_impl` is proved equal to
a function `Processed`. It gives the returned block (or the exception raised)
and the new state. The drive keeps no state between blocks, so its
`ProcessImpl` is proved to return `Mono(Shaped(tanh, params, Downmix(audio)))`
and to write no field. The
behavioural facts are lemmas about those functions. The Python class
hierarchy becomes composition: each effect owns a `base: AudioEffect`
holding `sample_rate` and `is_enabled`. Its `Process` does the same
dispatch as `AudioEffect.process`.

Samples are `real`. The functions `np.sin`, `np.tanh` and `time()` come in
as parameters (`sin`, `tanh`, `now`).

## Model

| member | source | states |
|---|---|---|
| BaseEffect.AudioEffect.constructor | effects/base_effect.py:4-6 | A new effect has the given sample rate and is enabled. |
| BaseEffect.AudioEffect.ProcessImpl | effects/base_effect.py:21-32 | The default transform returns its input. |
| BaseEffect.AudioEffect.Process | effects/base_effect.py:8-19 | Either way the plain effect returns its input unchanged: disabled, it bypasses; enabled, it calls the identity `_process_impl`. |
| BaseEffect.AudioEffect.Enable | effects/base_effect.py:34-36 | Sets the flag to true and nothing else. |
| BaseEffect.AudioEffect.Disable | effects/base_effect.py:38-40 | Sets the flag to false and nothing else. |
| BaseEffect.AudioEffect.Toggle | effects/base_effect.py:42-44 | The flag becomes the negation of the old flag, so two toggles restore it. |
| BaseEffect.AudioEffect.Reset | effects/base_effect.py:46-51 | Changes nothing. |
| Audio.Downmix | effects/chorus/chorus_effect.py:16-17 | A mono block is kept as is. A multi-channel block becomes the mean of each frame. Either way one sample per frame. |
| Audio.Downmixable | effects/chorus/chorus_effect.py:16-17 | Definition: a mono block, or a block whose frames each have at least one channel. |
| Audio.Sum | effects/delay/delay_effect.py:42 | Definition: Python's `sum`, accumulated left to right from 0. |
| Audio.Mean | effects/chorus/chorus_effect.py:17 | Definition: `np.mean` of one frame, its sum divided by its channel count. |
| Audio.Mix | effects/chorus/chorus_effect.py:33 | Definition: the wet/dry mix `(1 - mix) * dry + mix * wet` that every effect ends with. |
| Audio.Clip | effects/drive/drive_effect.py:32 | The result lies in [-1, 1], equals the input inside that range, and is the nearer bound outside it. |
| Audio.ClipAll | effects/reverb/reverb_effect.py:76 | Same length, and each sample is clipped. |
| Audio.Trunc | effects/delay/delay_effect.py:11 | `int()` truncates toward zero: for `x >= 0` the floor, otherwise the ceiling. |
| Audio.PyIndex | effects/delay/delay_effect.py:71 | A Python index in [-n, n) addresses cell `i mod n`, so -1 is the last cell. |
| Audio.Zeros | effects/delay/delay_effect.py:12 | `np.zeros(n)`: n samples, all 0. |
| Audio.MixOfEqual | effects/chorus/chorus_effect.py:33 | Helper for `Chorus.ZeroOffsetPassesThrough` (algebra): mixing a sample with itself gives the sample, whatever the mix. |
| Audio.MixDry | effects/delay/delay_effect.py:80 | Helper for the `DryMixIsIdentity` lemmas (algebra): with mix 0 the mix is the dry sample. |
| Modular.ModDistinct | effects/chorus/chorus_effect.py:36 | Cursor positions fewer than one buffer length apart are different cells. This is why a write does not disturb the cells written in the last `len` steps. |
| Modular.WindowInverse | effects/reverb/reverb_effect.py:47 | Going from window slot k to the cell `(k + idx) mod n` and back by `-idx` returns to k, for every slot in [0, n). |
| Modular.CountStep | effects/chorus/chorus_effect.py:36-37 | A counter kept modulo n, one step past `start + k`, is at `start + k + 1` modulo n. |
| Modular.ReadCell | effects/chorus/chorus_effect.py:29 | The cell `d` behind a cursor at `start + t` is the cell of step `t - (d mod n)`. |
| Chorus.Lfo | effects/chorus/chorus_effect.py:25 | `sin(2 pi rate phase / sample_rate)`: when `sin` ranges over [-1, 1], so does the LFO. |
| Chorus.DelaySamples | effects/chorus/chorus_effect.py:26 | Definition: `int(depth * sample_rate * (lfo + 1) / 2)`, truncated toward zero. Its range is `Chorus.OffsetBounds`. |
| Chorus.Step | effects/chorus/chorus_effect.py:22-37 | One iteration leaves the input in the cell under the old cursor. It keeps the buffer length, and the cursor and the phase stay in range. |
| Chorus.Processed | effects/chorus/chorus_effect.py:14-39 | It raises exactly when the block is non-empty and the line cannot run (an empty buffer); then it raises `IndexError` and keeps the state. Otherwise it returns a mono block of the input's length. The buffer length is always kept. |
| Chorus.OffsetAt | effects/chorus/chorus_effect.py:25-26 | Definition: the read offset at step t of a block, at the phase `(phase + t) mod sample_rate` that step sees. |
| Chorus.Past | effects/chorus/chorus_effect.py:22 | Definition: the sample written at step u. It comes from the block for u >= 0, and for u < 0 from the starting buffer, -u cells behind the starting cursor. |
| Chorus.Run | effects/chorus/chorus_effect.py:20-37 | The loop keeps the buffer length, keeps the cursor in [0, len) and the phase in [0, sample_rate), and gives one output per input. |
| Chorus.RunSnoc | effects/chorus/chorus_effect.py:20-37 | Helper for `Chorus.ChorusEffect.RunBlock` (unfolds `Run` by one step): one more input sample is one more loop iteration. |
| Chorus.StepCursor | effects/chorus/chorus_effect.py:36-37 | One iteration moves the cursor on by one modulo the buffer length and the phase by one modulo the sample rate. |
| Chorus.RunCursor | effects/chorus/chorus_effect.py:36-37 | After n samples the cursor is `(old + n) mod len` and the phase `(old + n) mod sample_rate`. |
| Chorus.RunContents | effects/chorus/chorus_effect.py:22-36 | After a block, each of the cells the cursor passed over in the last `len` steps holds the sample written there. The other cells keep the old contents. |
| Chorus.StepRead | effects/chorus/chorus_effect.py:22-33 | The output of one iteration mixes the input with the buffer read after the write. |
| Chorus.RunLast | effects/chorus/chorus_effect.py:20-37 | The last output of a block is the output of its last iteration. |
| Chorus.BufferRead | effects/chorus/chorus_effect.py:22-30 | Reading step `u` right after the last write gives that step's sample. For `u` the last step, that is the sample just written. |
| Chorus.LastOutput | effects/chorus/chorus_effect.py:22-33 | The last output mixes the last input with the sample written `offset mod len` steps earlier. |
| Chorus.RunOutput | effects/chorus/chorus_effect.py:20-33 | The whole block: output t mixes input t with the sample written `OffsetAt(t) mod len` steps earlier. Before the block, the read comes from the starting buffer. |
| Chorus.PastPrefix | effects/chorus/chorus_effect.py:20-30 | An earlier step's sample does not depend on later inputs. |
| Chorus.ZeroOffsetPassesThrough | effects/chorus/chorus_effect.py:22-33 | Because the write precedes the read, an offset of 0 (mod len) returns the current input unchanged. |
| Chorus.DryMixIsIdentity | effects/chorus/chorus_effect.py:33 | With mix 0 the output equals the input. |
| Chorus.OffsetBounds | effects/chorus/chorus_effect.py:25-30 | With the LFO in [-1, 1] and depth >= 0, the offset lies in [0, depth * sample_rate] and the read cell lies in [0, len). |
| Chorus.SilenceStaysSilent | effects/chorus/chorus_effect.py:20-37 | Silence into a silent buffer gives silence out, and the buffer stays silent. |
| Chorus.ChorusEffect.constructor | effects/chorus/chorus_effect.py:5-12 | The parameters as given. The buffer is `int(sample_rate * 0.1)` zeros, and cursor and phase are 0. |
| Chorus.ChorusEffect.ProcessImpl | effects/chorus/chorus_effect.py:14-39 | The result and the new state are those of `Processed`. An empty block gives an empty block. An empty buffer raises `IndexError`. Otherwise `Processed` runs the loop. |
| Chorus.ChorusEffect.RunBlock | effects/chorus/chorus_effect.py:19-37 | The in-place loop leaves the state and the output array that `Run` gives. |
| Chorus.ChorusEffect.Tick | effects/chorus/chorus_effect.py:22-37 | One in-place iteration leaves the state and the output that `Step` gives. |
| Chorus.ChorusEffect.Process | effects/base_effect.py:17-19 | Disabled: the input and an unchanged state. Enabled: `ProcessImpl`. |
| Chorus.ChorusEffect.Reset | effects/chorus/chorus_effect.py:41-44 | The buffer is zeroed in place at its length, and phase and cursor are 0. |
| Delay.Size | effects/delay/delay_effect.py:11 | Definition: `int(sample_rate * delay_time)`. Its bounds are `Delay.SizeBounds`. |
| Delay.NewSample | effects/delay/delay_effect.py:74 | Definition: the input plus feedback times the sample read. |
| Delay.Step | effects/delay/delay_effect.py:71-83 | One iteration keeps the buffer length and leaves a cursor in [0, size). |
| Delay.Run | effects/delay/delay_effect.py:69-83 | The loop keeps the buffer length and gives one output per input. |
| Delay.RunSnoc | effects/delay/delay_effect.py:69-83 | Helper for `Delay.DelayEffect.RunBlock` (unfolds `Run` by one step): one more input sample is one more loop iteration. |
| Delay.Processed | effects/delay/delay_effect.py:63-85 | It raises exactly when a non-empty block meets an empty buffer; then it raises `IndexError` and keeps the state. Otherwise it returns a mono block of the input's length. The buffer length is always kept. |
| Delay.Written | effects/delay/delay_effect.py:71-77 | Definition: what step u writes, which is input u plus feedback times what step `u - size` wrote. For u < 0 it is the starting cell -u behind the cursor. |
| Delay.WrittenPrefix | effects/delay/delay_effect.py:74-77 | What a step writes depends only on the inputs up to it. |
| Delay.RunCursor | effects/delay/delay_effect.py:83 | After n samples the cursor addresses cell `(old + n) mod size`, and after at least one sample it equals `(old + n) mod size`. A cursor of -1 counts as the last cell. |
| Delay.RunContents | effects/delay/delay_effect.py:71-83 | After a block, the cell u steps past the starting cursor holds what step u wrote (input plus feedback times what step `u - size` wrote), for the last `size` steps. |
| Delay.OldestAtCursor | effects/delay/delay_effect.py:71-83 | The cell under the cursor after a block holds the value written `size` steps earlier. Proved from `Delay.RunContents`. |
| Delay.RunOutput | effects/delay/delay_effect.py:71-80 | Output t mixes input t with what was written `size` steps earlier. |
| Delay.NoFeedbackIsPureDelay | effects/delay/delay_effect.py:71-83 | With feedback 0, the wet signal at t is input `t - size`, or the starting buffer's cell when t < size. |
| Delay.WetEchoShifts | effects/delay/delay_effect.py:71-83 | The N-sample round trip: fully wet, with no feedback, `output[t + size] == input[t]`. |
| Delay.DryMixIsIdentity | effects/delay/delay_effect.py:80 | With mix 0 the output equals the input. |
| Delay.SilenceStaysSilent | effects/delay/delay_effect.py:69-83 | Silence into a silent buffer gives silence out, and the buffer stays silent. |
| Delay.Resized | effects/delay/delay_effect.py:54-57 | New length n. The first `min(old, n)` samples are copied and the rest are zero. |
| Delay.ResizeRoundTrip | effects/delay/delay_effect.py:54-57 | Growing a buffer and then shrinking it back restores it. |
| Delay.Retime | effects/delay/delay_effect.py:50-61 | A negative size raises `ValueError`. An unchanged size changes nothing. Otherwise the buffer is resized to `n` with a valid cursor. |
| Delay.RetimeIdempotent | effects/delay/delay_effect.py:52-61 | Setting the same delay time twice is the same as setting it once. |
| Delay.TapDelay | effects/delay/delay_effect.py:40-42 | Definition: `sum(intervals) / len(intervals)`. `Delay.TapDelayIsSpan` gives its closed form. |
| Delay.Intervals | effects/delay/delay_effect.py:40-41 | `k` taps give `k - 1` intervals, and no taps give none. |
| Delay.NextTaps | effects/delay/delay_effect.py:26-35 | The history is non-empty, holds at most 4 taps and ends with `now`. After the 2-second timeout it is just `[now]`. Otherwise, below 4 taps, `now` is appended; with 4 or more taps the history is the last 3 old taps followed by `now`, so the last 4 taps are kept. |
| Delay.IntervalsTelescope | effects/delay/delay_effect.py:40-42 | The intervals sum to the span from the first tap to the last. |
| Delay.TapDelayIsSpan | effects/delay/delay_effect.py:40-42 | The mean interval is `(last - first) / (k - 1)`. |
| Delay.TapHistoryPreserved | effects/delay/delay_effect.py:26-35 | A tap no earlier than the last one keeps the history ending at the last tap, with every interval in [0, 2 seconds]. |
| Delay.SumBounds | effects/delay/delay_effect.py:42 | Helper for `Delay.TapDelayBounds` (algebra): a sum of k terms in [lo, hi] lies in [k lo, k hi]. |
| Delay.TapDelayBounds | effects/delay/delay_effect.py:38-45 | For such a history the tap delay lies in [0, 2 s], so the size it asks for lies in [0, 2 * sample_rate]. |
| Delay.SizeBounds | effects/delay/delay_effect.py:50 | A delay time in [0, 2 s] asks for between 0 and `2 * sample_rate` samples. |
| Delay.SteadyTapsNeverRaise | effects/delay/delay_effect.py:38-54 | Taps from a clock that never runs backwards never make `set_delay_time` raise. |
| Delay.DelayEffect.constructor | effects/delay/delay_effect.py:6-19 | The parameters as given, `int(sample_rate * delay_time)` zeros, cursor 0, no taps, and last tap 0. |
| Delay.DelayEffect.TapTempo | effects/delay/delay_effect.py:21-45 | The taps become `NextTaps` and the last tap time becomes `now`. With fewer than 2 taps nothing else changes. Otherwise the delay time is the mean interval and the line is retimed as `set_delay_time` does, raising and keeping the state when that raises. |
| Delay.DelayEffect.SetDelayTime | effects/delay/delay_effect.py:47-61 | Always stores the delay time. The line becomes `Retime` of the old line, or stays as it was when `np.zeros` raises. |
| Delay.DelayEffect.ProcessImpl | effects/delay/delay_effect.py:63-85 | The result and the new state are those of `Processed`. An empty block gives an empty block, and an empty buffer raises `IndexError`. |
| Delay.DelayEffect.RunBlock | effects/delay/delay_effect.py:68-83 | The in-place loop leaves the line and the output array that `Run` gives. |
| Delay.DelayEffect.Tick | effects/delay/delay_effect.py:71-83 | One in-place iteration leaves the line and the output that `Step` gives. |
| Delay.DelayEffect.Process | effects/base_effect.py:17-19 | Disabled: the input and an unchanged state. Enabled: `ProcessImpl`. |
| Delay.DelayEffect.Reset | effects/delay/delay_effect.py:87-91 | Buffer zeroed at its length, cursor 0, taps cleared, last tap 0. |
| Drive.Driven | effects/drive/drive_effect.py:17 | `tanh(x * drive)` sample by sample, at the input length. |
| Drive.FilterStep | effects/drive/drive_effect.py:24 | Definition: one filter update, `last_sample * tone + driven[i] * (1 - tone)`. |
| Drive.Filter | effects/drive/drive_effect.py:20-26 | One filtered value per input. |
| Drive.Scale | effects/drive/drive_effect.py:29 | Each sample times the level, at the same length. |
| Drive.Shaped | effects/drive/drive_effect.py:11-32 | The output has the input's length and every sample lies in [-1, 1]. |
| Drive.FilterPrefix | effects/drive/drive_effect.py:22-26 | The filter is causal: filtering a prefix gives a prefix of the output. |
| Drive.FilterRecurrence | effects/drive/drive_effect.py:21-26 | `f[i] = tone * f[i-1] + (1 - tone) * d[i]`, with `f[-1] = 0` on every call. |
| Drive.FilterBounded | effects/drive/drive_effect.py:24-26 | With tone in [0, 1] and the input in [-1, 1], every filtered value is in [-1, 1]. |
| Drive.ConvexBounded | effects/drive/drive_effect.py:24 | One filter update is a convex combination and stays in [-1, 1]. |
| Drive.ToneZeroFilter | effects/drive/drive_effect.py:24 | With tone 0 the filter passes its input through. |
| Drive.ToneZeroOutput | effects/drive/drive_effect.py:17-32 | With tone 0, `output[i] = clip(level * tanh(drive * x[i]))`. |
| Drive.ToneOneFilter | effects/drive/drive_effect.py:21-26 | With tone 1 the filter stays at its initial 0. |
| Drive.ClipIsInactive | effects/drive/drive_effect.py:24-32 | With `tanh` in [-1, 1] and tone and level in [0, 1], the clip never engages. |
| Drive.UnitScale | effects/drive/drive_effect.py:29 | Helper for `Drive.ClipIsInactive` (algebra): a factor in [-1, 1] scales `y >= 0` into [-y, y]. |
| Drive.DriveEffect.constructor | effects/drive/drive_effect.py:5-9 | The parameters as given, enabled. |
| Drive.DriveEffect.ProcessImpl | effects/drive/drive_effect.py:11-32 | Returns the mono block `Shaped` of the down-mixed input, and writes no field. |
| Drive.DriveEffect.LowPass | effects/drive/drive_effect.py:20-26 | The loop with `last_sample` fills a fresh array with exactly `Filter(driven, tone)`. |
| Drive.DriveEffect.Process | effects/base_effect.py:17-19 | Disabled: the input. Enabled: the transform. |
| Drive.DriveEffect.Reset | effects/drive/drive_effect.py:34-35 | Changes nothing. |
| Reverb.LineLength | effects/reverb/reverb_effect.py:12-13 | `int(sample_rate * t)` is non-negative for non-negative arguments. |
| Reverb.Delays | effects/reverb/reverb_effect.py:12-13 | One `int(sample_rate * t)` per delay time. |
| Reverb.Grow | effects/reverb/reverb_effect.py:40-44 | A line shorter than the block grows to the block length, with the old samples in front and zeros after. A long enough line is unchanged. |
| Reverb.Window | effects/reverb/reverb_effect.py:47-48 | The read `buffer[(arange(n) + index) % n]` has n samples, and sample k is cell `(k + index) mod n`. |
| Reverb.Overwrite | effects/reverb/reverb_effect.py:51 | The write keeps the length, and cells from n on are untouched. |
| Reverb.OverwriteAt | effects/reverb/reverb_effect.py:51 | Value k lands in cell `(k + index) mod n`. |
| Reverb.WindowOfOverwrite | effects/reverb/reverb_effect.py:47-51 | Reading the window just written gives back what was written. |
| Reverb.WindowModIndex | effects/reverb/reverb_effect.py:47-52 | A window depends only on the cursor modulo the block length. |
| Reverb.CursorMod | effects/reverb/reverb_effect.py:52 | The cursor update `(index + n) % n` does not move the window. |
| Reverb.Tap | effects/reverb/reverb_effect.py:48 | Definition: one reflected sample, `sample * gain * room_size`. |
| Reverb.Damp | effects/reverb/reverb_effect.py:65 | Definition: one damped sample, `sample * (1 - damping)`. |
| Reverb.Feedback | effects/reverb/reverb_effect.py:69 | Definition: what a late line is fed at one sample, `x + early * 0.5`. |
| Reverb.Taps | effects/reverb/reverb_effect.py:48 | `window * gain * room_size`, sample by sample. |
| Reverb.Damped | effects/reverb/reverb_effect.py:65 | `window * (1 - damping)`, sample by sample. |
| Reverb.LateInput | effects/reverb/reverb_effect.py:69 | `audio_data + early_reflections * 0.5`, sample by sample. |
| Reverb.Add | effects/reverb/reverb_effect.py:48-66 | Numpy's `+=`, sample by sample. |
| Reverb.EarlyTaps | effects/reverb/reverb_effect.py:40-48 | Definition: one early line's contribution, its grown line's window tapped by `gain * room_size`, at the block length. |
| Reverb.LateTaps | effects/reverb/reverb_effect.py:57-66 | Definition: one late line's contribution, its grown line's window damped and tapped by `gain * room_size`, at the block length. |
| Reverb.EarlySum | effects/reverb/reverb_effect.py:38-48 | The early reflections summed over the first i early lines, `window * gain * room_size` each. The result has the block length. |
| Reverb.LateSum | effects/reverb/reverb_effect.py:55-66 | The late reverberation summed over the first i late lines, `window * (1 - damping) * gain * room_size` each. The result has the block length. |
| Reverb.Rewritten | effects/reverb/reverb_effect.py:40-51 | The first i lines grown and their windows overwritten with the values. The bank keeps four lines. |
| Reverb.Advanced | effects/reverb/reverb_effect.py:52 | The first i cursors become `(index + n) % n`. There are still four cursors. |
| Reverb.RewrittenStep | effects/reverb/reverb_effect.py:43-51 | Helper for `Reverb.EarlyStepClosedForm` and `Reverb.LateStepClosedForm` (unfolds `Rewritten` by one line): writing line i changes only line i. |
| Reverb.AdvancedStep | effects/reverb/reverb_effect.py:52 | Helper for `Reverb.EarlyStepClosedForm` and `Reverb.LateStepClosedForm` (unfolds `Advanced` by one cursor): moving cursor i changes only cursor i. |
| Reverb.Output | effects/reverb/reverb_effect.py:73-76 | Sample k is `clip((1 - mix) * x[k] + mix * (early[k] + late[k]))`. |
| Reverb.EarlyStep | effects/reverb/reverb_effect.py:38-52 | One early iteration keeps the shape: the block length, and four lines and cursors. |
| Reverb.EarlyLoop | effects/reverb/reverb_effect.py:38-52 | The first i early iterations from zero reflections. They keep the block length and four lines and cursors. The closed form is `Reverb.EarlyLoopClosedForm`. |
| Reverb.LateStep | effects/reverb/reverb_effect.py:55-70 | One late iteration keeps the shape. |
| Reverb.LateLoop | effects/reverb/reverb_effect.py:55-70 | The first i late iterations from zero reverberation. They keep the shape. The closed form is `Reverb.LateLoopClosedForm`. |
| Reverb.EarlyLoopClosedForm | effects/reverb/reverb_effect.py:38-52 | After i early iterations: the reflections are summed over the lines as the block found them, the first i lines are rewritten with the block, and their cursors have moved on. |
| Reverb.EarlyStepClosedForm | effects/reverb/reverb_effect.py:38-52 | One early iteration takes that closed form from i lines to i + 1. |
| Reverb.LateLoopClosedForm | effects/reverb/reverb_effect.py:55-70 | The same for the late loop, fed the block plus half its early reflections. |
| Reverb.LateStepClosedForm | effects/reverb/reverb_effect.py:55-70 | One late iteration takes that closed form from i lines to i + 1. |
| Reverb.EarlyReflections | effects/reverb/reverb_effect.py:34-52 | `early_reflections` once all four early lines are read. It has the block length. |
| Reverb.LateReverb | effects/reverb/reverb_effect.py:35-70 | `late_reverb` once all four late lines are read. It has the block length. |
| Reverb.NextState | effects/reverb/reverb_effect.py:38-70 | The lines after a non-empty block keep four lines and four cursors. |
| Reverb.Processed | effects/reverb/reverb_effect.py:27-79 | Definition: an empty block raises `ZeroDivisionError` and keeps the state. Any other block returns `Output` and leaves `NextState`. |
| Reverb.ProcessedOutcome | effects/reverb/reverb_effect.py:27-79 | It raises exactly for the empty block, with `ZeroDivisionError`, and then the lines are untouched. Any other block returns a mono block of its own length and leaves a well-formed state. |
| Reverb.CursorsKeepRemainder | effects/reverb/reverb_effect.py:52-70 | Each cursor becomes `index mod n`, so cursors that start at 0 stay 0. |
| Reverb.AdvancedIsRemainder | effects/reverb/reverb_effect.py:52 | Helper for `Reverb.CursorsKeepRemainder` (modular arithmetic): `(index + n) % n == index % n`. |
| Reverb.LinesOnlyGrow | effects/reverb/reverb_effect.py:40-61 | A line shorter than the block grows to the block length, and otherwise keeps its length. Cells from the block length on keep their samples. |
| Reverb.GrowLong | effects/reverb/reverb_effect.py:40 | Helper for `Reverb.RewrittenHolds` (unfolds `Grow`): a line at least as long as the block is not grown. |
| Reverb.LineHoldsWritten | effects/reverb/reverb_effect.py:47-52 | After the write and the cursor update, the next window of that length reads back what was written. |
| Reverb.LinesHoldBlock | effects/reverb/reverb_effect.py:51-69 | After a block, each early line's window holds the block, and each late line's window holds the block plus half its early reflections. |
| Reverb.RewrittenHolds | effects/reverb/reverb_effect.py:51-52 | The same for one line of a rewritten bank. |
| Reverb.TapsAdd | effects/reverb/reverb_effect.py:48 | Helper for `Reverb.NextBlockEchoes` (algebra): two taps of one sample add up to a tap with the summed gain. |
| Reverb.EarlyOfEqualWindows | effects/reverb/reverb_effect.py:38-48 | Early lines whose windows all hold w reflect w times the sum of their gains. |
| Reverb.LateOfEqualWindows | effects/reverb/reverb_effect.py:55-66 | Late lines whose windows all hold w give w damped, times the sum of their gains. |
| Reverb.NextBlockEchoes | effects/reverb/reverb_effect.py:38-70 | The next block of the same length hears this one: early reflections `2.2 * room_size * x`, and late reverberation `0.9 * room_size` times what the late lines were fed, damped. |
| Reverb.GainSums | effects/reverb/reverb_effect.py:24-25 | The early gains sum to 2.2 and the late gains to 0.9. |
| Reverb.EarlySilentRoom | effects/reverb/reverb_effect.py:48 | With room size 0 there are no early reflections. |
| Reverb.LateSilentRoom | effects/reverb/reverb_effect.py:66 | With room size 0 there is no late reverberation. |
| Reverb.NoRoomIsDry | effects/reverb/reverb_effect.py:48-76 | With room size 0 the output is `clip((1 - mix) * x)`. |
| Reverb.DryOutput | effects/reverb/reverb_effect.py:73-76 | With nothing reflected, the output is the clipped dry part. |
| Reverb.ProcessedOutput | effects/reverb/reverb_effect.py:73-79 | Helper for `Reverb.ReverbEffect.ProcessImpl` and the output lemmas (unfolds `Processed`): a non-empty block returns the mono mix of the input with both sums. |
| Reverb.DryMixIsClippedInput | effects/reverb/reverb_effect.py:73-76 | With mix 0 the output is `clip(x)`, whatever the lines hold. |
| Reverb.EarlySilentLines | effects/reverb/reverb_effect.py:47-48 | Silent early lines reflect nothing. |
| Reverb.LateSilentLines | effects/reverb/reverb_effect.py:64-66 | Silent late lines give no reverberation. |
| Reverb.SilenceStaysSilent | effects/reverb/reverb_effect.py:38-76 | Silence into silent lines gives silence out and leaves the lines silent. |
| Reverb.SilentOutput | effects/reverb/reverb_effect.py:73-76 | A silent input with nothing reflected gives silence. |
| Reverb.RewrittenSilent | effects/reverb/reverb_effect.py:51-69 | Writing silence into silent lines leaves them silent. |
| Reverb.SilentLinesGiveDryOutput | effects/reverb/reverb_effect.py:38-76 | Silent lines give the clipped dry part, as after `reset` or construction. |
| Reverb.ClearedLines | effects/reverb/reverb_effect.py:83-86 | Filling lines with zeros keeps four lines, each at its length. |
| Reverb.Cleared | effects/reverb/reverb_effect.py:81-90 | What `reset` leaves is well formed. |
| Reverb.ClearedIsSilent | effects/reverb/reverb_effect.py:81-90 | After `reset` every line is silent and keeps its length. |
| Reverb.ZeroedLines | effects/reverb/reverb_effect.py:16-17 | One zeroed line per delay, of that delay's length. |
| Reverb.Constructible | effects/reverb/reverb_effect.py:12-17 | Definition: no `int(sample_rate * t)` is negative, which is what `np.zeros` accepts. |
| Reverb.ConstructibleRates | effects/reverb/reverb_effect.py:12-17 | Every rate from -22 up can be constructed, and from -22 to 0 every line has length 0. At -23 and below the last late line's length is negative. |
| Reverb.Initial | effects/reverb/reverb_effect.py:12-21 | The state of a new reverb has four lines and four cursors of each kind. |
| Reverb.InitialIsSilent | effects/reverb/reverb_effect.py:12-21 | A new reverb is silent, with line lengths `int(sample_rate * t)`. |
| Reverb.Contents | effects/reverb/reverb_effect.py:16-17 | The samples of each array, in order. |
| Reverb.Line | effects/reverb/reverb_effect.py:40-51 | For one line: grow the array if it is short, read the window, and write the values into the window in place. The result is `Window` and `Overwrite` of the grown contents. |
| Reverb.ReverbEffect.constructor | effects/reverb/reverb_effect.py:5-25 | The parameters as given, the delays `int(sample_rate * t)`, fresh zeroed arrays and all cursors 0, which is the state `Initial`. |
| Reverb.ReverbEffect.ZeroLines | effects/reverb/reverb_effect.py:16-17 | One fresh zeroed array per delay, none shared. |
| Reverb.ReverbEffect.EarlyLine | effects/reverb/reverb_effect.py:39-52 | One in-place early iteration is `EarlyStep`, and the late lines are untouched. |
| Reverb.ReverbEffect.LateLine | effects/reverb/reverb_effect.py:56-70 | One in-place late iteration is `LateStep`, and the early lines are untouched. |
| Reverb.ReverbEffect.EarlyPass | effects/reverb/reverb_effect.py:38-52 | The early loop gives the early reflections, rewrites the early lines with the block and advances their cursors. |
| Reverb.ReverbEffect.LatePass | effects/reverb/reverb_effect.py:55-70 | The late loop gives the late reverberation, rewrites the late lines with what they are fed and advances their cursors. |
| Reverb.ReverbEffect.ProcessImpl | effects/reverb/reverb_effect.py:27-79 | The result and the new state are those of `Processed`. An empty block raises `ZeroDivisionError`. |
| Reverb.ReverbEffect.Process | effects/base_effect.py:17-19 | Disabled: the input and an unchanged state. Enabled: `ProcessImpl`. |
| Reverb.ReverbEffect.Fill | effects/reverb/reverb_effect.py:84 | `buffer.fill(0)` in place. |
| Reverb.ReverbEffect.FillAll | effects/reverb/reverb_effect.py:83-86 | Every line of a list is zeroed in place at its length. |
| Reverb.ReverbEffect.Reset | effects/reverb/reverb_effect.py:81-90 | The new state is `Cleared` of the old one: every line zeroed at its length and every cursor 0. |

## Left out

- Floating point: samples, gains and times are `real`. Rounding, NaN and infinities are not modelled.
- `np.sin`, `np.tanh` and `time()` are parameters of the methods that use them. Properties that need the range of `tanh` state it as a precondition (`Drive.ClipIsInactive`).
- The delay's `tap_tempo` reads the clock itself. Here the time is the argument `now`, and "non-decreasing clock" is the precondition of `Delay.TapHistoryPreserved` and `Delay.SteadyTapsNeverRaise`.
- Numpy shapes: a block is mono or a list of frames. Broadcasting and dtypes are not modelled. `Audio.Downmixable` excludes frames with no channel, whose mean would be NaN.
- Constructors require of the sample rate only what `np.zeros` accepts, a non-negative length: `int(sample_rate * 0.1) >= 0` for the chorus, `int(sample_rate * delay_time) >= 0` for the delay, and `Reverb.Constructible` for the reverb. On the other rates Python raises `ValueError` in the constructor, which is not modelled. A chorus at a sample rate below 10 has an empty buffer: a non-empty block raises `IndexError` at the first write (effects/chorus/chorus_effect.py:22), before the LFO divides by the rate, and the model does the same.
- Reverb.ReverbEffect.ProcessImpl: an empty block raises `ZeroDivisionError` at the first cursor update `(index + 0) % 0` (effects/reverb/reverb_effect.py:52). The model checks for it before the early loop. The steps before that update work on empty windows and change nothing observable, so the outcome and the state are the same.
- The reverb's `np.column_stack` re-expansion (effects/reverb/reverb_effect.py:77-78) is unreachable, because `audio_data` is mono after the down-mix at line 30. The model always returns a mono block.
- Reverb.Line: the scatter `buffer[indices] = vals` is written as "cell j receives `vals[(j - index) mod n]`". The window positions are a permutation of [0, n), so this is the same assignment (`Reverb.OverwriteAt`).
- The reverb's gains and delay times, and the delay's `max_tap_memory` (4) and `tap_timeout` (2.0 s), are module constants, not attributes, because the source never changes them after construction.
- The chorus's and the delay's local `output = np.zeros_like(...)` arrays are never shared or aliased, so they are modelled as `seq<real>` values updated at each index. The drive's output array is an `array<real>` scaled in place.
- The Delay module's cursor can be -1 after `set_delay_time` shrinks the buffer to size 0 (`min(index, -1)`). Python then reads `buffer[-1]`, the last cell, and `Audio.PyIndex` models that.
- audio_player.py (audio streams and UI), nam_binding.cpp (a foreign wrapper), nam_reader.py (a JSON load) and setup.py (build configuration) are not part of this model.
- The attributes the source sets directly (`rate`, `depth`, `mix`, `feedback`, `tone`, `level`, `room_size`, `damping`) are plain fields. There are no setters to model.
