/** Shared vocabulary of the effects: sample blocks, the numpy operations the
    effects use (zeros, clip, int(), the channel average), the exceptions a
    block can raise. The modular arithmetic the circular buffers need is in
    the `Modular` module. Samples are modelled as `real`. */
module Audio {

  /** A block of audio as numpy hands it to an effect: a one-dimensional
      array of samples, or a two-dimensional array with one row (frame) per
      sample and one column per channel. */
  datatype Block = Mono(samples: seq<real>) | Multi(frames: seq<seq<real>>)

  /** The Python exceptions an effect's processing can raise. */
  datatype Error = IndexError | ZeroDivisionError | ValueError

  /** The outcome of an operation that may raise. */
  datatype Outcome<T> = Ok(value: T) | Raised(error: Error)

  /** Number of samples (frames) in a block. */
  function Length(b: Block): nat
  {
    match b
    case Mono(s) => |s|
    case Multi(f) => |f|
  }

  /** `np.zeros(n)`. */
  function Zeros(n: nat): (r: seq<real>)
    ensures |r| == n
    ensures forall k :: 0 <= k < n ==> r[k] == 0.0
  {
    seq(n, _ => 0.0)
  }

  predicate AllZero(s: seq<real>)
  {
    forall k :: 0 <= k < |s| ==> s[k] == 0.0
  }

  /** Left-to-right sum, as Python's `sum` and numpy's `+=` accumulate. */
  function Sum(s: seq<real>): real
  {
    if |s| == 0 then 0.0 else Sum(s[..|s| - 1]) + s[|s| - 1]
  }

  /** The mean of one frame, `np.mean` over a row. */
  function Mean(frame: seq<real>): real
    requires |frame| > 0
  {
    Sum(frame) / (|frame| as real)
  }

  /** A block the down-mix can average: every frame has at least one channel
      (a frame with no channel would average to NaN). */
  predicate Downmixable(b: Block)
  {
    b.Multi? ==> forall k :: 0 <= k < |b.frames| ==> |b.frames[k]| > 0
  }

  /** `if len(audio_data.shape) > 1: audio_data = np.mean(audio_data, axis=1)`:
      every effect first turns its input into one mono channel. */
  function Downmix(b: Block): (m: seq<real>)
    requires Downmixable(b)
    ensures |m| == Length(b)
    ensures b.Mono? ==> m == b.samples
    ensures b.Multi? ==> forall k {:trigger Mean(b.frames[k])} :: 0 <= k < |m| ==> m[k] == Mean(b.frames[k])
  {
    match b
    case Mono(s) => s
    case Multi(f) => seq(|f|, k requires 0 <= k < |f| => Mean(f[k]))
  }

  /** The wet/dry mix `(1 - mix) * dry + mix * wet` every effect ends with. */
  function Mix(mix: real, dry: real, wet: real): real
  {
    (1.0 - mix) * dry + mix * wet
  }

  /** Mixing a sample with itself gives the sample, whatever the mix. */
  lemma MixOfEqual(mix: real, x: real)
    ensures Mix(mix, x, x) == x
  {
  }

  /** A fully dry mix is the dry sample. */
  lemma MixDry(dry: real, wet: real)
    ensures Mix(0.0, dry, wet) == dry
  {
  }

  /** `np.clip(x, -1, 1)` on one sample. */
  function Clip(x: real): (r: real)
    ensures -1.0 <= r <= 1.0
    ensures -1.0 <= x <= 1.0 ==> r == x
    ensures x > 1.0 ==> r == 1.0
    ensures x < -1.0 ==> r == -1.0
  {
    if x < -1.0 then -1.0 else if x > 1.0 then 1.0 else x
  }

  /** `np.clip(s, -1, 1)` on a whole array. */
  function ClipAll(s: seq<real>): (r: seq<real>)
    ensures |r| == |s|
    ensures forall k :: 0 <= k < |s| ==> r[k] == Clip(s[k])
  {
    seq(|s|, k requires 0 <= k < |s| => Clip(s[k]))
  }

  /** Python's `int(x)` on a float: truncation toward zero (not rounding,
      and not the floor for negative values). */
  function Trunc(x: real): (i: int)
    ensures 0.0 <= x ==> 0 <= i && i as real <= x < i as real + 1.0
    ensures x < 0.0 ==> i <= 0 && i as real - 1.0 < x <= i as real
  {
    if x >= 0.0 then x.Floor else -((-x).Floor)
  }

  /** A Python sequence index in `[-n, n)`: negative indices count from the
      end, which is the Euclidean remainder modulo `n`. */
  function PyIndex(i: int, n: int): (c: int)
    requires -n <= i < n
    ensures 0 <= c < n && c == i % n
  {
    if i < 0 then i + n else i
  }

  function Min(a: int, b: int): (m: int)
    ensures m <= a && m <= b && (m == a || m == b)
  {
    if a <= b then a else b
  }

  /** Scaling by a non-negative factor keeps an interval `[0, c]` ordered. */
  lemma ScaleBounds(x: real, y: real, c: real)
    requires x >= 0.0 && 0.0 <= y <= c
    ensures 0.0 <= x * y <= x * c
  {
  }

  /** Dividing a value in `[0, k c]` by `k > 0` lands in `[0, c]`. */
  lemma DivBounds(x: real, k: real, c: real)
    requires k > 0.0 && 0.0 <= x <= k * c
    ensures 0.0 <= x / k <= c
  {
    assert x / k * k == x;
  }

  /** `np.pi` written in decimal. */
  const PI: real := 3.141592653589793
}
