/** Sixteen-bit samples and the integer arithmetic the audio code does on them. */
module Pcm16 {

  type Sample = int

  const SAMPLE_MIN: int := -32768
  const SAMPLE_MAX: int := 32767

  predicate InRange(v: int) {
    SAMPLE_MIN <= v <= SAMPLE_MAX
  }

  /** C++ integer division: towards zero. */
  function TruncatedDiv(a: int, b: int): int
    requires 0 < b
  {
    if 0 <= a then a / b else -((-a) / b)
  }

  function Saturate(v: int): Sample {
    if v < SAMPLE_MIN then SAMPLE_MIN else if SAMPLE_MAX < v then SAMPLE_MAX else v
  }
}
