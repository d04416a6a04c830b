/**
 * The note type shared by the score followers (src/score.rs and the note
 * struct of src/lib.rs), the symbolic stretch factor, and the time constants.
 */
module Score {

  /** A MIDI note number or velocity: the source's `u7`. */
  type U7 = n: nat | n < 128

  type Pitch = U7

  type Velocity = U7

  /** A `Duration`, counted in nanoseconds. */
  type Time = nat

  const NanosPerMilli: nat := 1_000_000
  const NanosPerSec: nat := 1_000_000_000

  /** A note with a given pitch at a given time, in a score or in a live performance. */
  datatype ScoreNote = ScoreNote(time: Time, pitch: Pitch, velocity: Velocity)

  /**
   * A time stretch factor, kept symbolic: `Unit` is the literal 1.0 given to a
   * first match, and `Ratio(s, l)` is the factor the source computes from an
   * elapsed score time `s` and an elapsed live time `l` (live over score).
   * The floating-point division itself is not part of this model.
   */
  datatype Stretch = Unit | Ratio(elapsedScore: int, elapsedLive: int)

  /** A note of a test score built in milliseconds, with the default velocity 100. */
  function Note(millis: nat, pitch: Pitch): (n: ScoreNote)
    ensures n.time == millis * NanosPerMilli && n.pitch == pitch && n.velocity == 100
  {
    ScoreNote(millis * NanosPerMilli, pitch, 100)
  }

  /** The velocity rule of the score simplifiers: 0 stays 0, every other velocity becomes 100. */
  function SimplifiedVelocity(v: Velocity): (r: Velocity)
    ensures v == 0 ==> r == 0
    ensures v != 0 ==> r == 100
  {
    if v == 0 then 0 else 100
  }
}
