/**
 * The test helper of src/test_helpers.rs that makes scores comparable
 * whatever their velocities: every note keeps its time and pitch, silent
 * notes stay silent and every sounding note gets velocity 100.
 */
module TestHelpers {
  import opened Score

  /** `ignore_vel`: the score with each velocity simplified. */
  function IgnoreVel(score: seq<ScoreNote>): (r: seq<ScoreNote>)
    ensures |r| == |score|
    ensures forall i :: 0 <= i < |r| ==> r[i].time == score[i].time && r[i].pitch == score[i].pitch
    ensures forall i :: 0 <= i < |r| ==> (r[i].velocity == 0 <==> score[i].velocity == 0)
    ensures forall i :: 0 <= i < |r| && score[i].velocity != 0 ==> r[i].velocity == 100
  {
    seq(|score|, i requires 0 <= i < |score| =>
      ScoreNote(score[i].time, score[i].pitch, SimplifiedVelocity(score[i].velocity)))
  }

  /** Ignoring the velocities a second time changes nothing. */
  lemma IgnoreVelIdempotent(score: seq<ScoreNote>)
    ensures IgnoreVel(IgnoreVel(score)) == IgnoreVel(score)
  {
    var once := IgnoreVel(score);
    assert forall i :: 0 <= i < |once| ==> IgnoreVel(once)[i] == once[i];
  }

  /** Two scores look the same to the tests exactly when their times, pitches and silences agree note by note. */
  lemma IgnoreVelEqual(a: seq<ScoreNote>, b: seq<ScoreNote>)
    ensures IgnoreVel(a) == IgnoreVel(b) <==>
      && |a| == |b|
      && forall i :: 0 <= i < |a| ==>
           a[i].time == b[i].time && a[i].pitch == b[i].pitch && (a[i].velocity == 0 <==> b[i].velocity == 0)
  {
    if IgnoreVel(a) == IgnoreVel(b) {
      assert forall i :: 0 <= i < |a| ==> IgnoreVel(a)[i] == IgnoreVel(b)[i];
    }
  }

  /** Ignoring velocities distributes over concatenation. */
  lemma IgnoreVelAppend(a: seq<ScoreNote>, b: seq<ScoreNote>)
    ensures IgnoreVel(a + b) == IgnoreVel(a) + IgnoreVel(b)
  {
    assert forall i :: 0 <= i < |a + b| ==> IgnoreVel(a + b)[i] == (IgnoreVel(a) + IgnoreVel(b))[i];
  }
}
