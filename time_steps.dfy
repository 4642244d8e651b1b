/** Conversion from seconds to quantized steps. */
module TimeSteps {

  /** The step resolution the generator quantizes at. */
  const STEPS_PER_QUARTER: int := 4

  /** Python's `int()` on a number: truncation toward zero. */
  function Truncate(x: real): (r: int)
    ensures 0.0 <= x ==> 0 <= r && r as real <= x < r as real + 1.0
    ensures x < 0.0 ==> r <= 0 && x <= r as real < x + 1.0
  {
    if x >= 0.0 then x.Floor else -((-x).Floor)
  }

  /** The exact (unrounded) number of steps that `seconds` spans at tempo `qpm`:
      qpm / 60 quarter notes per second, STEPS_PER_QUARTER steps per quarter note. */
  function ExactSteps(seconds: real, qpm: real): real
  {
    seconds * qpm / 15.0
  }

  /** The number of steps that `seconds` spans at tempo `qpm`: the exact step
      count truncated toward zero. */
  function SecondsToSteps(seconds: real, qpm: real): (r: int)
    ensures 0.0 <= ExactSteps(seconds, qpm) ==> 0 <= r && r as real <= ExactSteps(seconds, qpm) < r as real + 1.0
    ensures ExactSteps(seconds, qpm) < 0.0 ==> r <= 0 && ExactSteps(seconds, qpm) <= r as real < ExactSteps(seconds, qpm) + 1.0
  {
    assert seconds * (qpm / 60.0) * STEPS_PER_QUARTER as real == ExactSteps(seconds, qpm);
    Truncate(seconds * (qpm / 60.0) * STEPS_PER_QUARTER as real)
  }

  /** Truncation toward zero never decreases as its argument grows. */
  lemma TruncateMonotone(x: real, y: real)
    requires x <= y
    ensures Truncate(x) <= Truncate(y)
  {
  }

  /** A non-negative time at a non-negative tempo is a non-negative step count. */
  lemma StepsNonNegative(seconds: real, qpm: real)
    requires 0.0 <= seconds && 0.0 <= qpm
    ensures 0 <= SecondsToSteps(seconds, qpm)
  {
  }

  /** Later times never convert to earlier steps. */
  lemma StepsMonotone(earlier: real, later: real, qpm: real)
    requires earlier <= later && 0.0 <= qpm
    ensures SecondsToSteps(earlier, qpm) <= SecondsToSteps(later, qpm)
  {
    var c := (qpm / 60.0) * STEPS_PER_QUARTER as real;
    assert 0.0 <= c;
    assert earlier * c <= later * c by {
      assert (later - earlier) * c >= 0.0;
    }
    TruncateMonotone(earlier * c, later * c);
  }

  /** One quarter note, 60 / qpm seconds, is exactly STEPS_PER_QUARTER steps. */
  lemma OneQuarterNote(qpm: real)
    requires 0.0 < qpm
    ensures SecondsToSteps(60.0 / qpm, qpm) == STEPS_PER_QUARTER
  {
  }

  /** Partial steps are dropped: 0.9 seconds at 60 qpm is 3.6 steps, so 3. */
  lemma TruncatesPartialSteps()
    ensures SecondsToSteps(0.9, 60.0) == 3
  {
  }
}
