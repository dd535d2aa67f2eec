/**
 * Frame sampling and the progress values of the video loop: which frame
 * indices are annotated for a given stride, and what the progress bar shows
 * after each frame.
 */
module Sampling {

  /** A stride after the `or 1` fallback: never zero. */
  type Stride = k: int | k != 0 witness 1

  /** `skip or 1`: an entered stride of 0 becomes 1; any other value is kept, negative ones included. */
  function EffectiveStride(skip: int): (k: Stride)
    ensures skip != 0 ==> k == skip
    ensures skip == 0 ==> k == 1
  {
    if skip == 0 then 1 else skip
  }

  function AbsInt(x: int): nat { if x < 0 then -x else x }

  /** Python's `a // b`: division rounding toward minus infinity. */
  function PyDiv(a: int, b: Stride): int {
    if b > 0 then a / b
    else if a % AbsInt(b) == 0 then -(a / AbsInt(b))
    else -(a / AbsInt(b)) - 1
  }

  /**
   * Python's `a % b`: the remainder takes the sign of the divisor and completes
   * the floor division, `a == (a // b) * b + a % b`.
   */
  function PyMod(a: int, b: Stride): (r: int)
    ensures b > 0 ==> 0 <= r < b
    ensures b < 0 ==> b < r <= 0
    ensures a == PyDiv(a, b) * b + r
  {
    if b > 0 then a % b
    else if a % AbsInt(b) == 0 then 0
    else a % AbsInt(b) + b
  }

  /** A frame is annotated iff its index is a multiple of the stride, whatever the stride's sign. */
  lemma PyModZero(a: int, b: Stride)
    ensures PyMod(a, b) == 0 <==> a % AbsInt(b) == 0
  {
    if b < 0 && PyMod(a, b) == 0 {
      assert (a - 0) % AbsInt(b) == 0;
    }
  }

  /** `frame_num % skip == 0`. */
  predicate Sampled(i: nat, k: Stride) {
    PyMod(i, k) == 0
  }

  /** The indices annotated among the first `n` frames. */
  ghost function SampledIndices(n: nat, k: Stride): set<nat> {
    set i: nat | i < n && Sampled(i, k)
  }

  /** Ten frames at stride 3 annotate frames 0, 3, 6 and 9; stride 0 annotates every frame. */
  lemma SamplingExamples()
    ensures SampledIndices(10, EffectiveStride(3)) == {0, 3, 6, 9}
    ensures SampledIndices(4, EffectiveStride(0)) == {0, 1, 2, 3}
    ensures forall i: nat :: Sampled(i, EffectiveStride(0))
  {
    var s := SampledIndices(10, 3);
    forall i: nat | i < 10 ensures i in s <==> i in {0, 3, 6, 9} {
      PyModZero(i, 3);
    }
    assert s == {0, 3, 6, 9};
  }

  /** A negative stride samples the same frames as its absolute value. */
  lemma NegativeStride(i: nat, k: Stride)
    requires k < 0
    ensures Sampled(i, k) <==> Sampled(i, AbsInt(k))
  {
    PyModZero(i, k);
    PyModZero(i, AbsInt(k));
  }

  /** Frame 0 is always annotated. */
  lemma FirstFrameSampled(k: Stride)
    ensures Sampled(0, k)
  {
    PyModZero(0, k);
  }

  // ---------------------------------------------------------------------
  // Progress
  // ---------------------------------------------------------------------

  type Pos = n: int | n > 0 witness 1

  /** The reported frame count, replaced by 1 when it is zero or negative. */
  function TotalFrames(reported: int): (t: Pos)
    ensures reported > 0 ==> t == reported
    ensures reported <= 0 ==> t == 1
  {
    if reported <= 0 then 1 else reported
  }

  /** `(frame_num / total_frames) * 100`, with true division. */
  function ProgressAt(j: nat, total: Pos): real {
    (j as real / total as real) * 100.0
  }

  /** The values shown after frames 0 .. n - 1. */
  function ProgressTrace(n: nat, total: Pos): (r: seq<real>)
    ensures |r| == n
  {
    if n == 0 then [] else ProgressTrace(n - 1, total) + [ProgressAt(n - 1, total)]
  }

  /** The values the bar takes over one video: 0 first, then one per frame read, then 100 when the loop ends normally. */
  function VideoLog(read: nat, total: Pos, finished: bool): (r: seq<real>)
    ensures |r| == read + 1 + (if finished then 1 else 0)
  {
    [0.0] + ProgressTrace(read, total) + (if finished then [100.0] else [])
  }

  /** Showing one more frame's progress extends the log by that value; finishing appends 100. */
  lemma VideoLogStep(read: nat, total: Pos, prefix: seq<real>)
    ensures prefix + VideoLog(read, total, false) + [ProgressAt(read, total)] == prefix + VideoLog(read + 1, total, false)
    ensures prefix + VideoLog(read, total, false) + [100.0] == prefix + VideoLog(read, total, true)
  {
  }

  predicate NonDecreasing(s: seq<real>) {
    forall i, j :: 0 <= i <= j < |s| ==> s[i] <= s[j]
  }

  lemma QuotientMonotone(a: real, b: real, t: real)
    requires 0.0 <= a <= b && t > 0.0
    ensures 0.0 <= a / t <= b / t
  {
    assert b / t - a / t == (b - a) / t;
  }

  lemma DivSelf(t: real)
    requires t > 0.0
    ensures t / t == 1.0
  {
  }

  lemma DivShift(a: real, t: real)
    requires t > 0.0
    ensures a / t - 1.0 == (a - t) / t
  {
    assert (a - t) / t == a / t - t / t;
    DivSelf(t);
  }

  lemma ProgressMonotone(i: nat, j: nat, total: Pos)
    requires i <= j
    ensures 0.0 <= ProgressAt(i, total) <= ProgressAt(j, total)
  {
    QuotientMonotone(i as real, j as real, total as real);
  }

  /** While the frame index stays below the frame count, the bar stays below 100. */
  lemma ProgressBelowHundred(j: nat, total: Pos)
    requires j < total
    ensures 0.0 <= ProgressAt(j, total) < 100.0
  {
    QuotientMonotone(j as real, total as real, total as real);
    assert j as real / total as real < 1.0;
  }

  /** The per-frame value reaches 100 exactly at the frame whose index equals the frame count. */
  lemma ProgressAtLeastHundred(j: nat, total: Pos)
    requires j >= total
    ensures ProgressAt(j, total) >= 100.0
  {
    assert total as real / total as real == 1.0;
    QuotientMonotone(total as real, j as real, total as real);
  }

  lemma {:induction false} TraceNonDecreasing(n: nat, total: Pos)
    ensures NonDecreasing(ProgressTrace(n, total))
    ensures forall i :: 0 <= i < n ==> ProgressTrace(n, total)[i] == ProgressAt(i, total)
  {
    if n > 0 {
      TraceNonDecreasing(n - 1, total);
      var t := ProgressTrace(n, total);
      forall i, j | 0 <= i <= j < n ensures t[i] <= t[j] {
        ProgressMonotone(i, j, total);
      }
    }
  }

  lemma CompletedLogRises(read: nat, total: Pos)
    requires read <= total + 1
    ensures NonDecreasing(VideoLog(read, total, true))
  {
    var log := VideoLog(read, total, true);
    TraceNonDecreasing(read, total);
    forall i, j | 0 <= i <= j < |log| ensures log[i] <= log[j] {
      if 1 <= i && j <= read {
        ProgressMonotone(i - 1, j - 1, total);
      } else if i == 0 && 1 <= j <= read {
        ProgressMonotone(0, j - 1, total);
      } else if 1 <= i <= read && j == read + 1 {
        if i - 1 < total {
          ProgressBelowHundred(i - 1, total);
        } else {
          DivSelf(total as real);
        }
      }
    }
  }

  lemma ProgressAboveHundred(j: nat, total: Pos)
    requires j > total
    ensures ProgressAt(j, total) > 100.0
  {
    DivShift(j as real, total as real);
    QuotientMonotone(0.0, (j - total) as real, total as real);
    assert (j - total) as real / total as real > 0.0;
  }

  /**
   * The bar over a completed video rises monotonically iff the video yields at
   * most one frame more than its reported count: each further frame shows
   * more than 100 before the final reset to 100.
   */
  lemma CompletedLogMonotone(read: nat, total: Pos)
    ensures NonDecreasing(VideoLog(read, total, true)) <==> read <= total + 1
  {
    if read <= total + 1 {
      CompletedLogRises(read, total);
    } else {
      var log := VideoLog(read, total, true);
      TraceNonDecreasing(read, total);
      ProgressAboveHundred(read - 1, total);
      assert log[read] > log[read + 1];
    }
  }

  /**
   * When the container reports no frame count, the count becomes 1 and the
   * third frame already shows 200.
   */
  lemma ProgressOvershoot()
    ensures ProgressTrace(3, TotalFrames(0)) == [0.0, 100.0, 200.0]
    ensures !NonDecreasing(VideoLog(3, TotalFrames(0), true))
  {
    CompletedLogMonotone(3, 1);
  }
}
