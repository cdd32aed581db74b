/**
  The energy classifier of the browser client: `isSpeech` sums the squares of a
  frame's samples, takes the square root of their mean and calls the frame speech
  exactly when that root-mean-square exceeds the threshold.  The model compares the
  mean square with the squared threshold instead of taking a square root; the
  lemma `IsSpeechMatchesRms` shows the two comparisons agree.
 */
module Classifier {

  /** `VAD_THRESHOLD` */
  const VadThreshold: real := 0.015

  /** The running sum of the loop in `isSpeech`, accumulated first sample first. */
  function SumSquares(frame: seq<real>): (sum: real)
    ensures 0.0 <= sum
  {
    if |frame| == 0 then 0.0
    else
      var x := frame[|frame| - 1];
      SumSquares(frame[..|frame| - 1]) + x * x
  }

  function MeanSquare(frame: seq<real>): (m: real)
    requires |frame| > 0
    ensures 0.0 <= m
  {
    SumSquares(frame) / |frame| as real
  }

  /** `isSpeech` with the threshold as a parameter.  An empty frame is silence:
      the client divides 0 by 0 and the resulting NaN compares false.  A negative
      threshold makes every non-empty frame speech, since an RMS is never negative. */
  predicate IsSpeech(frame: seq<real>, threshold: real)
  {
    |frame| > 0 && (threshold < 0.0 || MeanSquare(frame) > threshold * threshold)
  }

  /** For any value `rms` that is the square root of the frame's mean square,
      the frame is speech exactly when `rms > threshold`; in particular a frame
      whose RMS equals the threshold is silence. */
  lemma IsSpeechMatchesRms(frame: seq<real>, threshold: real, rms: real)
    requires |frame| > 0
    requires 0.0 <= rms && rms * rms == MeanSquare(frame)
    ensures IsSpeech(frame, threshold) <==> rms > threshold
  {
    var square, cross, limit := rms * rms, threshold * rms, threshold * threshold;
    if 0.0 <= threshold {
      if rms > threshold {
        assert square > cross >= limit;
      } else {
        assert square <= cross <= limit;
      }
    }
  }

  /** The sum of squares of a frame none of whose samples squares to more than
      `limit` is at most the frame length times `limit`. */
  lemma {:induction false} SumSquaresBounded(frame: seq<real>, limit: real)
    requires forall i :: 0 <= i < |frame| ==> frame[i] * frame[i] <= limit
    ensures SumSquares(frame) <= |frame| as real * limit
  {
    if |frame| > 0 {
      var init := frame[..|frame| - 1];
      assert forall i :: 0 <= i < |init| ==> init[i] == frame[i];
      SumSquaresBounded(init, limit);
      var n := |init| as real;
      assert (n + 1.0) * limit == n * limit + limit;
    }
  }

  lemma SquareWithin(x: real, bound: real)
    requires -bound <= x <= bound
    ensures x * x <= bound * bound
  {
    var m := if 0.0 <= x then x else -x;
    var square, cross, limit := m * m, bound * m, bound * bound;
    assert 0.0 <= m <= bound;
    assert x * x == square;
    assert square <= cross;
    assert cross <= limit;
  }

  /** A frame whose every sample lies within +-threshold is classified as silence. */
  lemma QuietFrameIsSilence(frame: seq<real>, threshold: real)
    requires 0.0 <= threshold
    requires forall i :: 0 <= i < |frame| ==> -threshold <= frame[i] <= threshold
    ensures !IsSpeech(frame, threshold)
  {
    var limit := threshold * threshold;
    forall i | 0 <= i < |frame| ensures frame[i] * frame[i] <= limit {
      SquareWithin(frame[i], threshold);
    }
    if |frame| > 0 {
      SumSquaresBounded(frame, limit);
      var n := |frame| as real;
      var sum := SumSquares(frame);
      assert sum / n <= limit by {
        assert sum <= n * limit;
        assert sum / n <= (n * limit) / n;
      }
    }
  }
}
