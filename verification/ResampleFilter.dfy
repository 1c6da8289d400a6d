/**
  The seven-tap binomial filter with 3:1 decimation, once as a definition over a whole stream
  and once as the sample-by-sample form that keeps six samples of history and a phase.
 */
module ResampleFilter {
  import opened Pcm16

  const TAPS: seq<int> := [1, 6, 15, 20, 15, 6, 1]
  const TAP_SUM: int := 64
  const HISTORY: nat := 6

  function Round(sum: int): int {
    if 0 <= sum then TruncatedDiv(sum + TAP_SUM / 2, TAP_SUM) else TruncatedDiv(sum - TAP_SUM / 2, TAP_SUM)
  }

  function Abs(x: int): nat {
    if x < 0 then -x else x
  }

  /** `r` is `sum / TAP_SUM` rounded to nearest, with ties going away from zero. */
  predicate RoundsHalfAway(sum: int, r: int) {
    && 2 * Abs(TAP_SUM * r - sum) <= TAP_SUM
    && (2 * Abs(TAP_SUM * r - sum) == TAP_SUM ==> Abs(sum) < Abs(TAP_SUM * r))
  }

  lemma RoundIsHalfAway(sum: int, r: int)
    ensures RoundsHalfAway(sum, r) <==> r == Round(sum)
  {
  }

  // ---- the definition

  /** The stream `x`, preceded by as many copies of `first` as anyone asks for. */
  function At(first: Sample, x: seq<Sample>, k: int): Sample
    requires k < |x|
  {
    if k < 0 then first else x[k]
  }

  function FirSum(first: Sample, x: seq<Sample>, k: nat): int
    requires k < |x|
  {
    At(first, x, k) + 6 * At(first, x, k - 1) + 15 * At(first, x, k - 2) + 20 * At(first, x, k - 3)
    + 15 * At(first, x, k - 4) + 6 * At(first, x, k - 5) + At(first, x, k - 6)
  }

  function Decimated(first: Sample, x: seq<Sample>, j: nat): Sample
    requires 3 * j + 2 < |x|
  {
    Saturate(Round(FirSum(first, x, 3 * j + 2)))
  }

  /** The decimated stream: one output for every three inputs. */
  function Batch(first: Sample, x: seq<Sample>): seq<Sample> {
    seq(|x| / 3, j requires 0 <= j < |x| / 3 => Decimated(first, x, j))
  }

  // ---- the streaming form

  function Dot(h: seq<Sample>, n: nat): int
    requires n <= |h| == HISTORY
  {
    if n == 0 then 0 else Dot(h, n - 1) + h[n - 1] * TAPS[n]
  }

  datatype Filter = Filter(history: seq<Sample>, phase: nat, out: seq<Sample>)

  predicate WellFormed(f: Filter) {
    |f.history| == HISTORY && f.phase < 3
  }

  function Push(f: Filter, sample: Sample): Filter
    requires WellFormed(f)
  {
    Filter([sample] + f.history[..HISTORY - 1],
           (f.phase + 1) % 3,
           if f.phase == 2 then f.out + [Saturate(Round(sample * TAPS[0] + Dot(f.history, HISTORY)))] else f.out)
  }

  /** Feeds the first `n` samples, one at a time. */
  function PushFirst(f: Filter, samples: seq<Sample>, n: nat): (r: Filter)
    requires WellFormed(f) && n <= |samples|
    ensures WellFormed(r)
  {
    if n == 0 then f else Push(PushFirst(f, samples, n - 1), samples[n - 1])
  }

  // ---- the streaming form computes the definition

  /** The filter is where it would be after the stream `x`. */
  ghost predicate HasConsumed(f: Filter, first: Sample, x: seq<Sample>) {
    && WellFormed(f)
    && (forall i :: 0 <= i < HISTORY ==> f.history[i] == At(first, x, |x| - 1 - i))
    && f.phase == |x| % 3
    && f.out == Batch(first, x)
  }

  lemma {:induction false} DotUnrolled(h: seq<Sample>)
    requires |h| == HISTORY
    ensures Dot(h, HISTORY) == 6 * h[0] + 15 * h[1] + 20 * h[2] + 15 * h[3] + 6 * h[4] + h[5]
  {
    assert Dot(h, 1) == Dot(h, 0) + h[0] * TAPS[1];
    assert Dot(h, 2) == h[0] * TAPS[1] + h[1] * TAPS[2];
    assert Dot(h, 3) == Dot(h, 2) + h[2] * TAPS[3];
    assert Dot(h, 4) == Dot(h, 2) + h[2] * TAPS[3] + h[3] * TAPS[4];
    assert Dot(h, 5) == Dot(h, 4) + h[4] * TAPS[5];
    assert Dot(h, 6) == Dot(h, 4) + h[4] * TAPS[5] + h[5] * TAPS[6];
  }

  lemma FirSumOfExtension(first: Sample, x: seq<Sample>, y: seq<Sample>, k: nat)
    requires k < |x|
    ensures FirSum(first, x + y, k) == FirSum(first, x, k)
  {
  }

  lemma PushedHistory(f: Filter, first: Sample, x: seq<Sample>, sample: Sample, i: nat)
    requires HasConsumed(f, first, x) && i < HISTORY
    ensures Push(f, sample).history[i] == At(first, x + [sample], |x| - i)
  {
    if 0 < i { assert Push(f, sample).history[i] == f.history[i - 1]; }
  }

  /** The running sum over the history is the filter sum of the definition. */
  lemma PushedSum(f: Filter, first: Sample, x: seq<Sample>, sample: Sample)
    requires HasConsumed(f, first, x)
    ensures sample * TAPS[0] + Dot(f.history, HISTORY) == FirSum(first, x + [sample], |x|)
  {
    DotUnrolled(f.history);
  }

  lemma BatchOfExtension(first: Sample, x: seq<Sample>, sample: Sample)
    ensures Batch(first, x + [sample]) ==
            if |x| % 3 == 2 then Batch(first, x) + [Saturate(Round(FirSum(first, x + [sample], |x|)))] else Batch(first, x)
  {
    var y := x + [sample];
    forall j: nat | j < |x| / 3 ensures Decimated(first, y, j) == Decimated(first, x, j) {
      FirSumOfExtension(first, x, [sample], 3 * j + 2);
    }
  }

  lemma NextPhase(n: nat)
    ensures (n + 1) % 3 == (n % 3 + 1) % 3
  {
  }

  lemma PushStep(f: Filter, first: Sample, x: seq<Sample>, sample: Sample)
    requires HasConsumed(f, first, x)
    ensures HasConsumed(Push(f, sample), first, x + [sample])
  {
    hide Batch, Dot, FirSum, Decimated, Round, Saturate;
    var y, g := x + [sample], Push(f, sample);
    assert g.phase == |y| % 3 by { NextPhase(|x|); }
    assert g.out == Batch(first, y) by {
      PushedSum(f, first, x, sample);
      BatchOfExtension(first, x, sample);
    }
    assert forall i :: 0 <= i < HISTORY ==> g.history[i] == At(first, y, |y| - 1 - i) by {
      forall i | 0 <= i < HISTORY ensures g.history[i] == At(first, y, |y| - 1 - i) {
        PushedHistory(f, first, x, sample, i);
      }
    }
  }

  /** Feeding samples one at a time leaves the filter where the whole stream would, with the batch output. */
  lemma {:induction false} StreamingIsBatch(f: Filter, first: Sample, x: seq<Sample>, samples: seq<Sample>, n: nat)
    requires HasConsumed(f, first, x) && n <= |samples|
    ensures HasConsumed(PushFirst(f, samples, n), first, x + samples[..n])
  {
    if n == 0 {
      assert x + samples[..0] == x;
    } else {
      StreamingIsBatch(f, first, x, samples, n - 1);
      PushStep(PushFirst(f, samples, n - 1), first, x + samples[..n - 1], samples[n - 1]);
      assert (x + samples[..n - 1]) + [samples[n - 1]] == x + samples[..n];
    }
  }

  // ---- what the filter does to a stream

  predicate WindowWithin(first: Sample, x: seq<Sample>, k: nat, lo: Sample, hi: Sample)
    requires k < |x|
  {
    forall i :: k - HISTORY <= i <= k ==> lo <= At(first, x, i) <= hi
  }

  /** An output lies between the least and the greatest sample of its window, so it is never clipped. */
  lemma OutputWithinWindow(first: Sample, x: seq<Sample>, j: nat, lo: Sample, hi: Sample)
    requires 3 * j + 2 < |x|
    requires WindowWithin(first, x, 3 * j + 2, lo, hi) && InRange(lo) && InRange(hi)
    ensures lo <= Decimated(first, x, j) <= hi
    ensures Decimated(first, x, j) == Round(FirSum(first, x, 3 * j + 2))
  {
    var k := 3 * j + 2;
    assert forall i :: k - HISTORY <= i <= k ==> lo <= At(first, x, i) <= hi;
    assert TAP_SUM * lo <= FirSum(first, x, k) <= TAP_SUM * hi;
  }

  /** A constant stream passes unchanged. */
  lemma ConstantPasses(c: Sample, x: seq<Sample>, j: nat)
    requires InRange(c) && (forall i :: 0 <= i < |x| ==> x[i] == c) && 3 * j + 2 < |x|
    ensures Decimated(c, x, j) == c
  {
    OutputWithinWindow(c, x, j, c, c);
  }

  /** A stream alternating at the Nyquist rate is reduced to its mean once the window holds only real samples. */
  lemma NyquistVanishes(first: Sample, a: Sample, b: Sample, x: seq<Sample>, j: nat)
    requires forall i :: 0 <= i < |x| ==> x[i] == if i % 2 == 0 then a else b
    requires HISTORY <= 3 * j + 2 < |x|
    ensures Decimated(first, x, j) == Saturate(Round(TAP_SUM / 2 * (a + b)))
    ensures a + b == 0 ==> Decimated(first, x, j) == 0
  {
    var k := 3 * j + 2;
    var s, t := if k % 2 == 0 then a else b, if k % 2 == 0 then b else a;
    assert (k - 1) % 2 != k % 2 && (k - 2) % 2 == k % 2;
    assert (k - 3) % 2 != k % 2 && (k - 4) % 2 == k % 2;
    assert (k - 5) % 2 != k % 2 && (k - 6) % 2 == k % 2;
    AlternatingSum(first, x, k, s, t);
  }

  lemma AlternatingSum(first: Sample, x: seq<Sample>, k: nat, a: Sample, b: Sample)
    requires HISTORY <= k < |x|
    requires x[k] == x[k - 2] == x[k - 4] == x[k - 6] == a
    requires x[k - 1] == x[k - 3] == x[k - 5] == b
    ensures FirSum(first, x, k) == TAP_SUM / 2 * (a + b)
  {
  }
}
