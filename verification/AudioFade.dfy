/**
  Gain and fade-out of playback: what one callback does to a frame, and what a fade of N samples
  does to the stream of frames that follows the request.
 */
module AudioFade {
  import opened Pcm16

  const FRAME_SAMPLES: nat := 480
  const UNITY_GAIN: nat := 32768
  const MAXIMUM_GAIN: nat := 4 * UNITY_GAIN
  const UINT32_MAX: nat := 0xFFFF_FFFF
  const INT64_MAX: int := 0x7FFF_FFFF_FFFF_FFFF

  /** A gain that need not be a finite number. */
  datatype Gain = NotFinite | Finite(value: real)

  /** The stored gain: refused values mute, and everything is clamped to four. */
  function StoredGain(g: Gain): (q15: nat)
    ensures q15 <= MAXIMUM_GAIN
    ensures g.Finite? && 0.0 <= g.value <= 4.0 ==> -0.5 <= q15 as real - g.value * 32768.0 <= 0.5
    ensures g.NotFinite? || g.value < 0.0 ==> q15 == 0
    ensures g.Finite? && 4.0 <= g.value ==> q15 == MAXIMUM_GAIN
  {
    var v := if g.NotFinite? || g.value < 0.0 then 0.0 else if 4.0 < g.value then 4.0 else g.value;
    (v * 32768.0 + 0.5).Floor
  }

  function RequestedFade(sampleCount: nat): (n: nat)
    ensures n <= UINT32_MAX && (sampleCount <= UINT32_MAX ==> n == sampleCount)
  {
    if sampleCount < UINT32_MAX then sampleCount else UINT32_MAX
  }

  datatype Fade = Fade(remaining: nat, total: nat)

  const NO_FADE := Fade(0, 0)

  function Gained(input: Sample, gain: nat): int {
    TruncatedDiv(input * gain, UNITY_GAIN)
  }

  /** One sample: the fade takes its share of the gained value and counts down. */
  function FadeSample(f: Fade, gain: nat, input: Sample): (Fade, Sample) {
    var value := Gained(input, gain);
    if 0 < f.remaining && 0 < f.total then
      (Fade(f.remaining - 1, f.total), Saturate(TruncatedDiv(value * f.remaining, f.total)))
    else if 0 < f.total then (f, 0)
    else (f, Saturate(value))
  }

  /** The first `n` samples of a frame: the fade afterwards and the samples rendered. */
  function Render(f: Fade, gain: nat, input: seq<Sample>, n: nat): (r: (Fade, seq<Sample>))
    requires n <= |input|
    ensures |r.1| == n
  {
    if n == 0 then (f, [])
    else
      var (f', out) := Render(f, gain, input, n - 1);
      var (f'', sample) := FadeSample(f', gain, input[n - 1]);
      (f'', out + [sample])
  }

  /** The end of a frame: a finished fade is forgotten. */
  function EndFrame(f: Fade): Fade {
    if f.remaining == 0 then f.(total := 0) else f
  }

  function RenderFrame(f: Fade, gain: nat, input: seq<Sample>): (r: (Fade, seq<Sample>))
    ensures |r.1| == |input|
  {
    var (f', out) := Render(f, gain, input, |input|);
    (EndFrame(f'), out)
  }

  /** A frame as a callback meets it: its samples and the gain it reads. */
  datatype Block = Block(gain: nat, input: seq<Sample>)

  /** The fade that meets the `n`-th frame, when nothing else is requested. */
  function FadeBefore(f: Fade, frames: seq<Block>, n: nat): Fade
    requires n <= |frames|
  {
    if n == 0 then f else RenderFrame(FadeBefore(f, frames, n - 1), frames[n - 1].gain, frames[n - 1].input).0
  }

  function Rendered(f: Fade, frames: seq<Block>, n: nat): seq<Sample>
    requires n < |frames|
  {
    RenderFrame(FadeBefore(f, frames, n), frames[n].gain, frames[n].input).1
  }

  // ---- what a fade of `total` samples means for sample number `k` after the request

  /** Frames the fade touches: it is forgotten at the end of the frame in which it runs out. */
  function FadeFrames(total: nat): nat {
    (total + FRAME_SAMPLES - 1) / FRAME_SAMPLES
  }

  function Faded(value: int, k: nat, total: nat): Sample
    requires 0 < total
  {
    if k < total then Saturate(TruncatedDiv(value * (total - k), total)) else 0
  }

  /** Sample `k` after a request for `total` samples. */
  function Expected(total: nat, k: nat, gain: nat, input: Sample): Sample {
    if k < FadeFrames(total) * FRAME_SAMPLES && 0 < total then Faded(Gained(input, gain), k, total)
    else Saturate(Gained(input, gain))
  }

  /** The fade after `k` samples since the request, at any point of a frame the fade touches. */
  function FadeAt(total: nat, k: nat): Fade {
    Fade(if k < total then total - k else 0, total)
  }

  /** Inside a frame every sample is scaled by what is left of the fade. */
  lemma {:induction false} RenderScales(total: nat, start: nat, gain: nat, input: seq<Sample>, n: nat, i: nat)
    requires 0 < total && n <= |input|
    ensures Render(FadeAt(total, start), gain, input, n).0 == FadeAt(total, start + n)
    ensures i < n ==> Render(FadeAt(total, start), gain, input, n).1[i] == Faded(Gained(input[i], gain), start + i, total)
  {
    if 0 < n {
      RenderScales(total, start, gain, input, n - 1, if i < n - 1 then i else 0);
    }
  }

  lemma {:induction false} RenderWithoutFade(gain: nat, input: seq<Sample>, n: nat, i: nat)
    requires n <= |input|
    ensures Render(NO_FADE, gain, input, n).0 == NO_FADE
    ensures i < n ==> Render(NO_FADE, gain, input, n).1[i] == Saturate(Gained(input[i], gain))
  {
    if 0 < n {
      RenderWithoutFade(gain, input, n - 1, if i < n - 1 then i else 0);
    }
  }

  predicate FullFrames(frames: seq<Block>) {
    forall m :: 0 <= m < |frames| ==> |frames[m].input| == FRAME_SAMPLES
  }

  /** The fade carries over from frame to frame and ends with the frame it runs out in. */
  lemma {:induction false} FadeCarriesOver(total: nat, frames: seq<Block>, n: nat)
    requires 0 < total && n <= |frames| && FullFrames(frames)
    ensures FadeBefore(FadeAt(total, 0), frames, n)
         == if n < FadeFrames(total) then FadeAt(total, n * FRAME_SAMPLES) else NO_FADE
  {
    if 0 < n {
      FadeCarriesOver(total, frames, n - 1);
      var f := frames[n - 1];
      assert |f.input| == FRAME_SAMPLES;
      if n - 1 < FadeFrames(total) {
        RenderScales(total, (n - 1) * FRAME_SAMPLES, f.gain, f.input, |f.input|, 0);
        FrameBoundary(total, n);
      } else {
        RenderWithoutFade(f.gain, f.input, |f.input|, 0);
      }
    }
  }

  lemma FrameBoundary(total: nat, n: nat)
    ensures n < FadeFrames(total) <==> n * FRAME_SAMPLES < total
  {
  }

  /**
    Between fade requests, sample `k` after a request for `total` samples is scaled by
    (total - k) / total across frame boundaries, is silent for the rest of the frame in which the
    fade runs out, and after that frame is back at full volume.
   */
  lemma FadeScalesEachSample(total: nat, frames: seq<Block>, n: nat, i: nat)
    requires 0 < total && n < |frames| && FullFrames(frames) && i < FRAME_SAMPLES
    ensures Rendered(FadeAt(total, 0), frames, n)[i]
         == Expected(total, n * FRAME_SAMPLES + i, frames[n].gain, frames[n].input[i])
  {
    assert |frames[n].input| == FRAME_SAMPLES;
    FadeCarriesOver(total, frames, n);
    if n < FadeFrames(total) {
      RenderScales(total, n * FRAME_SAMPLES, frames[n].gain, frames[n].input, FRAME_SAMPLES, i);
      assert n * FRAME_SAMPLES + i < FadeFrames(total) * FRAME_SAMPLES;
    } else {
      RenderWithoutFade(frames[n].gain, frames[n].input, FRAME_SAMPLES, i);
    }
  }

  // ---- a fade never rises

  lemma DivMonotone(a: int, b: int, d: int)
    requires 0 <= a <= b && 0 < d
    ensures TruncatedDiv(a, d) <= TruncatedDiv(b, d)
  {
    if b / d < a / d {
      assert b / d + 1 <= a / d;
      assert (b / d + 1) * d <= a / d * d by { ProductMonotone(b / d + 1, a / d, d); }
    }
  }

  lemma ProductMonotone(a: int, b: int, d: int)
    requires a <= b && 0 <= d
    ensures a * d <= b * d
  {
  }

  lemma NonNegativeProduct(a: int, b: int)
    requires 0 <= a && 0 <= b
    ensures 0 <= a * b
  {
  }

  /** Under a fade a constant non-negative input gives a non-increasing output, down to silence. */
  lemma FadeNeverRises(total: nat, gain: nat, input: Sample, k: nat)
    requires 0 < total && 0 <= input && k + 1 < FadeFrames(total) * FRAME_SAMPLES
    ensures 0 <= Expected(total, k + 1, gain, input) <= Expected(total, k, gain, input)
    ensures total <= k ==> Expected(total, k, gain, input) == 0
  {
    NonNegativeProduct(input, gain);
    FadedNeverRises(Gained(input, gain), k, total);
  }

  lemma FadedNeverRises(value: nat, k: nat, total: nat)
    requires 0 < total
    ensures 0 <= Faded(value, k + 1, total) <= Faded(value, k, total)
  {
    if k < total {
      ScaledDown(value, total - k - 1, total);
      ScaledDown(value, total - k, total);
      ProductMonotone(total - k - 1, total - k, value);
      DivMonotone(value * (total - k - 1), value * (total - k), total);
    }
  }

  lemma ScaledDown(value: nat, share: nat, total: nat)
    requires 0 < total
    ensures 0 <= TruncatedDiv(value * share, total)
  {
    NonNegativeProduct(value, share);
  }

  // ---- no intermediate overflows

  predicate FitsInt64(v: int) {
    -INT64_MAX - 1 <= v <= INT64_MAX
  }

  lemma Magnitude(a: int, b: int, ma: int, mb: int)
    requires -ma <= a <= ma && 0 <= b <= mb
    ensures -(ma * mb) <= a * b <= ma * mb
  {
    ProductMonotone(a, ma, b);
    ProductMonotone(-ma, a, b);
    ProductMonotone(b, mb, ma);
  }

  /** Every product and quotient of a faded sample fits a signed 64-bit integer. */
  lemma IntermediatesFit(input: Sample, gain: nat, remaining: nat, total: nat)
    requires InRange(input) && gain <= MAXIMUM_GAIN && 0 < remaining <= total <= UINT32_MAX
    ensures FitsInt64(input * gain) && FitsInt64(Gained(input, gain)) && FitsInt64(Gained(input, gain) * remaining)
    ensures FitsInt64(TruncatedDiv(Gained(input, gain) * remaining, total))
  {
    Magnitude(input, gain, 32768, MAXIMUM_GAIN);
    var value := Gained(input, gain);
    assert -131072 <= value <= 131072;
    Magnitude(value, remaining, 131072, UINT32_MAX);
    QuotientShrinks(value * remaining, total);
  }

  lemma QuotientShrinks(a: int, d: nat)
    requires 0 < d
    ensures 0 <= a ==> 0 <= TruncatedDiv(a, d) <= a
    ensures a <= 0 ==> a <= TruncatedDiv(a, d) <= 0
  {
    Quotient(if 0 <= a then a else -a, d);
  }

  lemma Quotient(a: nat, d: nat)
    requires 0 < d
    ensures 0 <= a / d <= a
  {
    if a < a / d {
      ProductMonotone(1, d, a / d);
    }
  }

  // ---- the loop

  class Fader {
    var fade: Fade

    constructor ()
      ensures fade == NO_FADE
    {
      fade := NO_FADE;
    }

    method Request(total: nat)
      modifies this
      ensures fade == FadeAt(total, 0)
    {
      fade := Fade(total, total);
    }

    /** The sample loop of a callback; a missing packet or the tail of a short one renders as silence. */
    method RenderInto(out: array<Sample>, gain: nat, packet: seq<Sample>)
      requires |packet| <= FRAME_SAMPLES == out.Length
      modifies this, out
      ensures (fade, out[..]) == RenderFrame(old(fade), gain, Padded(packet))
    {
      ghost var input := Padded(packet);
      for i := 0 to FRAME_SAMPLES
        invariant (fade, out[..i]) == Render(old(fade), gain, input, i)
      {
        var sample := if i < |packet| then packet[i] else 0;
        var value := TruncatedDiv(sample * gain, UNITY_GAIN);
        if 0 < fade.remaining && 0 < fade.total {
          value := TruncatedDiv(value * fade.remaining, fade.total);
          fade := fade.(remaining := fade.remaining - 1);
        } else if 0 < fade.total {
          value := 0;
        }
        out[i] := Saturate(value);
        assert out[..i + 1] == out[..i] + [out[i]];
      }
      assert out[..FRAME_SAMPLES] == out[..];
      if fade.remaining == 0 {
        fade := fade.(total := 0);
      }
    }
  }

  function Padded(packet: seq<Sample>): (p: seq<Sample>)
    requires |packet| <= FRAME_SAMPLES
    ensures |p| == FRAME_SAMPLES
  {
    seq(FRAME_SAMPLES, i requires 0 <= i => if i < |packet| then packet[i] else 0)
  }
}
