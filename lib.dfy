/**
 * The free-function score follower of src/lib.rs: a greedy forward search
 * that pairs each new live note with the next score note of the same pitch.
 */
module Lib {
  import opened Results
  import opened Score

  /**
   * The first score index at or after `scoreIndex` whose pitch is `pitch`,
   * or `None` when the rest of the score has no such note.
   */
  function FindNextMatchAfter(score: seq<ScoreNote>, scoreIndex: nat, pitch: Pitch): (r: Option<nat>)
    requires scoreIndex <= |score|
    ensures r.Some? ==> scoreIndex <= r.value < |score| && score[r.value].pitch == pitch
    ensures forall k :: scoreIndex <= k < (if r.Some? then r.value else |score|) ==> score[k].pitch != pitch
    decreases |score| - scoreIndex
  {
    if scoreIndex == |score| then None
    else if score[scoreIndex].pitch == pitch then Some(scoreIndex)
    else FindNextMatchAfter(score, scoreIndex + 1, pitch)
  }

  /** A matched pair of indices: a score note and the live note played for it. */
  datatype Pair = Pair(scoreIndex: nat, liveIndex: nat)

  /** The outcome of matching a run of live notes: the matched pairs and the ignored live indices. */
  datatype Batch = Batch(pairs: seq<Pair>, ignored: seq<nat>)

  /** Where the search for the next live note starts: just after the last pair, or at `start`. */
  function Pointer(pairs: seq<Pair>, start: nat): nat
  {
    if pairs == [] then start else pairs[|pairs| - 1].scoreIndex + 1
  }

  /** The score index where a follower resumes after its previous match. */
  function ResumeIndex(prevMatchScoreIndex: Option<nat>): nat
  {
    match prevMatchScoreIndex
    case None => 0
    case Some(i) => i + 1
  }

  function LiveIndices(pairs: seq<Pair>): (r: seq<nat>)
    ensures |r| == |pairs| && forall j :: 0 <= j < |pairs| ==> r[j] == pairs[j].liveIndex
  {
    seq(|pairs|, j requires 0 <= j < |pairs| => pairs[j].liveIndex)
  }

  ghost predicate StrictlyAscending(s: seq<nat>)
  {
    forall i, j :: 0 <= i < j < |s| ==> s[i] < s[j]
  }

  /** Every pair's score index lies in `start .. scoreLength - 1` and its live index below `upTo`. */
  predicate PairsInRange(scoreLength: nat, upTo: nat, start: nat, pairs: seq<Pair>)
  {
    forall j :: 0 <= j < |pairs| ==> start <= pairs[j].scoreIndex < scoreLength && pairs[j].liveIndex < upTo
  }

  /**
   * The greedy matching of the live notes `from .. upTo - 1` against the score,
   * searching from score index `start`: each live note is paired with the next
   * score note of its pitch at or after the score position, which then moves just past
   * it; a live note with no such note is ignored and the score position stays put.
   */
  function Greedy(score: seq<ScoreNote>, live: seq<ScoreNote>, start: nat, from: nat, upTo: nat): (b: Batch)
    requires start <= |score| && upTo <= |live|
    ensures PairsInRange(|score|, upTo, start, b.pairs)
    decreases upTo
  {
    if upTo <= from then Batch([], [])
    else
      var b := Greedy(score, live, start, from, upTo - 1);
      match FindNextMatchAfter(score, Pointer(b.pairs, start), live[upTo - 1].pitch)
      case Some(k) => Batch(b.pairs + [Pair(k, upTo - 1)], b.ignored)
      case None => Batch(b.pairs, b.ignored + [upTo - 1])
  }

  /** One more live note extends the greedy matching by one decision. */
  lemma GreedyStep(score: seq<ScoreNote>, live: seq<ScoreNote>, start: nat, from: nat, upTo: nat)
    requires start <= |score| && from <= upTo < |live|
    ensures var b := Greedy(score, live, start, from, upTo);
      var m := FindNextMatchAfter(score, Pointer(b.pairs, start), live[upTo].pitch);
      Greedy(score, live, start, from, upTo + 1) ==
        if m.Some? then Batch(b.pairs + [Pair(m.value, upTo)], b.ignored) else Batch(b.pairs, b.ignored + [upTo])
  {
  }

  /** Every pair lies in range, pairs notes of equal pitch, and takes its live note from `from .. upTo - 1`. */
  ghost predicate PairsMatchPitch(score: seq<ScoreNote>, live: seq<ScoreNote>, from: nat, upTo: nat, pairs: seq<Pair>)
  {
    forall j :: 0 <= j < |pairs| ==>
      && pairs[j].scoreIndex < |score|
      && from <= pairs[j].liveIndex < upTo <= |live|
      && score[pairs[j].scoreIndex].pitch == live[pairs[j].liveIndex].pitch
  }

  /** Both the score and the live indices of the pairs strictly increase. */
  ghost predicate PairsAscending(pairs: seq<Pair>)
  {
    forall i, j :: 0 <= i < j < |pairs| ==>
      pairs[i].scoreIndex < pairs[j].scoreIndex && pairs[i].liveIndex < pairs[j].liveIndex
  }

  /** Every pair matches a live note from `from .. upTo - 1` with a score note of the same pitch. */
  lemma {:induction false} GreedyPairsMatch(score: seq<ScoreNote>, live: seq<ScoreNote>, start: nat, from: nat, upTo: nat)
    requires start <= |score| && upTo <= |live|
    ensures PairsMatchPitch(score, live, from, upTo, Greedy(score, live, start, from, upTo).pairs)
    decreases upTo
  {
    if upTo > from {
      GreedyPairsMatch(score, live, start, from, upTo - 1);
    }
  }

  /** Both the score and the live indices of the pairs strictly increase. */
  lemma {:induction false} GreedyPairsAscend(score: seq<ScoreNote>, live: seq<ScoreNote>, start: nat, from: nat, upTo: nat)
    requires start <= |score| && upTo <= |live|
    ensures PairsAscending(Greedy(score, live, start, from, upTo).pairs)
    decreases upTo
  {
    if upTo > from {
      var b := Greedy(score, live, start, from, upTo - 1);
      GreedyPairsAscend(score, live, start, from, upTo - 1);
      var m := FindNextMatchAfter(score, Pointer(b.pairs, start), live[upTo - 1].pitch);
      if m.Some? {
        var pairs := b.pairs + [Pair(m.value, upTo - 1)];
        assert Greedy(score, live, start, from, upTo).pairs == pairs;
        forall i, j | 0 <= i < j < |pairs|
          ensures pairs[i].scoreIndex < pairs[j].scoreIndex && pairs[i].liveIndex < pairs[j].liveIndex
        {
          if j == |b.pairs| {
            assert pairs[i] == b.pairs[i];
            assert b.pairs[i].scoreIndex <= b.pairs[|b.pairs| - 1].scoreIndex;
          }
        }
      }
    }
  }

  /** The ignored indices lie in `from .. upTo - 1` and strictly ascend. */
  ghost predicate IgnoredInOrder(from: nat, upTo: nat, ignored: seq<nat>)
  {
    && (forall j :: 0 <= j < |ignored| ==> from <= ignored[j] < upTo)
    && StrictlyAscending(ignored)
  }

  /**
   * The live indices `from .. upTo - 1` are split between the pairs and the
   * ignored list: each is in exactly one of them.
   */
  ghost predicate SplitsLive(from: nat, upTo: nat, b: Batch)
  {
    && |b.pairs| + |b.ignored| == (if from <= upTo then upTo - from else 0)
    && (forall l :: from <= l < upTo ==> (l in b.ignored <==> l !in LiveIndices(b.pairs)))
  }

  lemma {:induction false} GreedyIgnoredInOrder(score: seq<ScoreNote>, live: seq<ScoreNote>, start: nat, from: nat, upTo: nat)
    requires start <= |score| && upTo <= |live|
    ensures IgnoredInOrder(from, upTo, Greedy(score, live, start, from, upTo).ignored)
    decreases upTo
  {
    if upTo > from {
      GreedyIgnoredInOrder(score, live, start, from, upTo - 1);
    }
  }

  /**
   * Each live index in `from .. upTo - 1` is either matched or ignored, never
   * both, and the ignored indices are listed in ascending order.
   */
  lemma {:induction false} GreedyPartition(score: seq<ScoreNote>, live: seq<ScoreNote>, start: nat, from: nat, upTo: nat)
    requires start <= |score| && upTo <= |live|
    ensures IgnoredInOrder(from, upTo, Greedy(score, live, start, from, upTo).ignored)
    ensures SplitsLive(from, upTo, Greedy(score, live, start, from, upTo))
    decreases upTo
  {
    GreedyIgnoredInOrder(score, live, start, from, upTo);
    if upTo > from {
      var b := Greedy(score, live, start, from, upTo - 1);
      GreedyPartition(score, live, start, from, upTo - 1);
      GreedyPairsMatch(score, live, start, from, upTo - 1);
      SplitsLiveStep(from, upTo - 1, b, Greedy(score, live, start, from, upTo));
    }
  }

  /** Deciding the next live note, by pairing or ignoring it, keeps the live indices split. */
  lemma SplitsLiveStep(from: nat, last: nat, b: Batch, b': Batch)
    requires from <= last && SplitsLive(from, last, b)
    requires IgnoredInOrder(from, last, b.ignored)
    requires forall j :: 0 <= j < |b.pairs| ==> b.pairs[j].liveIndex < last
    requires (exists k :: b' == Batch(b.pairs + [Pair(k, last)], b.ignored)) || b' == Batch(b.pairs, b.ignored + [last])
    ensures SplitsLive(from, last + 1, b')
  {
    assert last !in b.ignored;
    LiveIndicesBelow(b.pairs, last);
    if b' != Batch(b.pairs, b.ignored + [last]) {
      var k :| b' == Batch(b.pairs + [Pair(k, last)], b.ignored);
      assert LiveIndices(b'.pairs) == LiveIndices(b.pairs) + [last];
    }
    forall l | from <= l < last + 1
      ensures l in b'.ignored <==> l !in LiveIndices(b'.pairs)
    {
      if l < last {
        assert l in b.ignored <==> l !in LiveIndices(b.pairs);
        assert l in b'.ignored <==> l in b.ignored;
        assert l in LiveIndices(b'.pairs) <==> l in LiveIndices(b.pairs);
      }
    }
  }

  lemma LiveIndicesBelow(pairs: seq<Pair>, l: nat)
    requires forall j :: 0 <= j < |pairs| ==> pairs[j].liveIndex < l
    ensures l !in LiveIndices(pairs)
  {
  }

  /** No score note at or after `pointer` has the given pitch. */
  ghost predicate NoneAhead(score: seq<ScoreNote>, pointer: nat, pitch: Pitch)
  {
    forall k :: pointer <= k < |score| ==> score[k].pitch != pitch
  }

  /**
   * A live note is ignored only when no score note of its pitch remains at or
   * after the position the search had reached when that note was considered.
   */
  lemma {:induction false} IgnoredHasNoMatchAhead(score: seq<ScoreNote>, live: seq<ScoreNote>, start: nat, from: nat, upTo: nat, l: nat)
    requires start <= |score| && upTo <= |live|
    requires l in Greedy(score, live, start, from, upTo).ignored
    ensures l < |live|
    ensures NoneAhead(score, Pointer(PairsBefore(Greedy(score, live, start, from, upTo).pairs, l), start), live[l].pitch)
    decreases upTo
  {
    GreedyIgnoredInOrder(score, live, start, from, upTo);
    var b := Greedy(score, live, start, from, upTo - 1);
    GreedyPairsMatch(score, live, start, from, upTo - 1);
    var m := FindNextMatchAfter(score, Pointer(b.pairs, start), live[upTo - 1].pitch);
    var b' := Greedy(score, live, start, from, upTo);
    if l in b.ignored {
      IgnoredHasNoMatchAhead(score, live, start, from, upTo - 1, l);
      if m.Some? {
        assert b'.pairs == b.pairs + [Pair(m.value, upTo - 1)];
        PairsBeforeAppend(b.pairs, Pair(m.value, upTo - 1), l);
      }
    } else {
      assert m.None? && l == upTo - 1 && b'.pairs == b.pairs;
      PairsBeforeAll(b.pairs, upTo - 1);
    }
  }

  /** The pairs whose live note comes before live index `l`, when the pairs ascend by live index. */
  function PairsBefore(pairs: seq<Pair>, l: nat): (r: seq<Pair>)
    ensures |r| <= |pairs|
  {
    if pairs == [] || pairs[|pairs| - 1].liveIndex < l then pairs
    else PairsBefore(pairs[..|pairs| - 1], l)
  }

  lemma PairsBeforeAll(pairs: seq<Pair>, l: nat)
    requires forall j :: 0 <= j < |pairs| ==> pairs[j].liveIndex < l
    ensures PairsBefore(pairs, l) == pairs
  {
  }

  lemma PairsBeforeAppend(pairs: seq<Pair>, p: Pair, l: nat)
    requires l <= p.liveIndex
    ensures PairsBefore(pairs + [p], l) == PairsBefore(pairs, l)
  {
    assert (pairs + [p])[..|pairs|] == pairs;
  }

  /**
   * What `follow_score` returns for the live notes from `newLiveIndex` on,
   * read off their greedy matching: the stretch factor, the score and live
   * indices of the last pair, and the ignored live indices. The stretch factor
   * is recomputed only when both a previous and a new match exist.
   */
  function Followed(score: seq<ScoreNote>, live: seq<ScoreNote>, prevMatchScoreIndex: Option<nat>,
                    prevMatchLiveIndex: Option<nat>, newLiveIndex: nat, lastStretchFactor: Stretch): (r: Outcome)
    requires prevMatchScoreIndex.Some? ==> prevMatchScoreIndex.value < |score|
    requires prevMatchLiveIndex.Some? ==> prevMatchLiveIndex.value < |live|
    ensures r.matchScoreIndex.Some? <==> r.matchLiveIndex.Some?
    ensures r.matchScoreIndex.Some? ==>
      r.matchScoreIndex.value < |score| && newLiveIndex <= r.matchLiveIndex.value < |live|
  {
    GreedyPairsMatch(score, live, ResumeIndex(prevMatchScoreIndex), newLiveIndex, |live|);
    var b := Greedy(score, live, ResumeIndex(prevMatchScoreIndex), newLiveIndex, |live|);
    var (scoreNew, liveNew) := LastIndices(b.pairs);
    var stretch :=
      if prevMatchScoreIndex.Some? && prevMatchLiveIndex.Some? && scoreNew.Some? && liveNew.Some? then
        Ratio(score[scoreNew.value].time - score[prevMatchScoreIndex.value].time,
              live[liveNew.value].time - live[prevMatchLiveIndex.value].time)
      else lastStretchFactor;
    Outcome(stretch, scoreNew, liveNew, b.ignored)
  }

  /** The results of `follow_score`: the stretch factor and the last new match, and the ignored live indices. */
  datatype Outcome = Outcome(stretchFactor: Stretch, matchScoreIndex: Option<nat>, matchLiveIndex: Option<nat>, ignored: seq<nat>)

  /**
   * A new last match pairs a live note from `newLiveIndex` on with a later
   * score note of the same pitch; the stretch factor is the ratio of the
   * elapsed score and live times between the previous and the new match when
   * both exist, and the previous factor otherwise.
   */
  lemma FollowedLastMatch(score: seq<ScoreNote>, live: seq<ScoreNote>, prevMatchScoreIndex: Option<nat>,
                          prevMatchLiveIndex: Option<nat>, newLiveIndex: nat, lastStretchFactor: Stretch)
    requires prevMatchScoreIndex.Some? ==> prevMatchScoreIndex.value < |score|
    requires prevMatchLiveIndex.Some? ==> prevMatchLiveIndex.value < |live|
    ensures var r := Followed(score, live, prevMatchScoreIndex, prevMatchLiveIndex, newLiveIndex, lastStretchFactor);
      && (r.matchScoreIndex.Some? <==> r.matchLiveIndex.Some?)
      && (r.matchScoreIndex.Some? ==>
           && r.matchScoreIndex.value < |score|
           && newLiveIndex <= r.matchLiveIndex.value < |live|
           && score[r.matchScoreIndex.value].pitch == live[r.matchLiveIndex.value].pitch
           && (prevMatchScoreIndex.Some? ==> r.matchScoreIndex.value > prevMatchScoreIndex.value))
      && r.stretchFactor ==
           if prevMatchScoreIndex.Some? && prevMatchLiveIndex.Some? && r.matchScoreIndex.Some? then
             Ratio(score[r.matchScoreIndex.value].time - score[prevMatchScoreIndex.value].time,
                   live[r.matchLiveIndex.value].time - live[prevMatchLiveIndex.value].time)
           else lastStretchFactor
  {
    GreedyPairsMatch(score, live, ResumeIndex(prevMatchScoreIndex), newLiveIndex, |live|);
  }

  /**
   * The matching loop of `follow_score`: each live note from `newLiveIndex`
   * on is paired with the next score note of its pitch at or after the
   * pointer, or ignored; the result is the greedy matching's last pair and
   * ignored list.
   */
  method MatchNewNotes(score: seq<ScoreNote>, live: seq<ScoreNote>, start: nat, newLiveIndex: nat)
    returns (nextMatchScoreIndex: Option<nat>, nextMatchLiveIndex: Option<nat>, ignored: seq<nat>)
    requires start <= |score|
    ensures var b := Greedy(score, live, start, newLiveIndex, |live|);
      && ignored == b.ignored
      && (nextMatchScoreIndex, nextMatchLiveIndex) == LastIndices(b.pairs)
  {
    var scoreIndex := start;
    nextMatchScoreIndex, nextMatchLiveIndex := None, None;
    ignored := [];
    ghost var pairs: seq<Pair> := [];
    if newLiveIndex < |live| {
      for liveIndex := newLiveIndex to |live|
        invariant Greedy(score, live, start, newLiveIndex, liveIndex) == Batch(pairs, ignored)
        invariant scoreIndex == Pointer(pairs, start)
        invariant (nextMatchScoreIndex, nextMatchLiveIndex) == LastIndices(pairs)
      {
        var liveNote := live[liveIndex];
        var matchingIndex := FindNextMatchAfter(score, scoreIndex, liveNote.pitch);
        match matchingIndex {
          case Some(i) =>
            nextMatchLiveIndex := Some(liveIndex);
            nextMatchScoreIndex := Some(i);
            scoreIndex := i + 1;
            pairs := pairs + [Pair(i, liveIndex)];
          case None =>
            ignored := ignored + [liveIndex];
        }
      }
    }
    assert Greedy(score, live, start, newLiveIndex, |live|) == Batch(pairs, ignored);
  }

  /**
   * `follow_score`: matches the live notes from `newLiveIndex` on, one after
   * the other, each with the next score note of its pitch after the last
   * match, and recomputes the stretch factor from the previous and the new
   * last match. The score time estimate is not modelled.
   */
  method FollowScore(score: seq<ScoreNote>, live: seq<ScoreNote>, prevMatchScoreIndex: Option<nat>,
                     prevMatchLiveIndex: Option<nat>, newLiveIndex: nat, lastStretchFactor: Stretch)
    returns (nextStretchFactor: Stretch, nextMatchScoreIndex: Option<nat>, nextMatchLiveIndex: Option<nat>, ignored: seq<nat>)
    requires |score| > 0 && |live| > 0
    requires prevMatchScoreIndex.Some? ==> prevMatchScoreIndex.value < |score|
    requires prevMatchLiveIndex.Some? ==> prevMatchLiveIndex.value < |live|
    ensures Outcome(nextStretchFactor, nextMatchScoreIndex, nextMatchLiveIndex, ignored)
      == Followed(score, live, prevMatchScoreIndex, prevMatchLiveIndex, newLiveIndex, lastStretchFactor)
  {
    nextMatchScoreIndex, nextMatchLiveIndex, ignored := MatchNewNotes(score, live, ResumeIndex(prevMatchScoreIndex), newLiveIndex);
    if prevMatchScoreIndex.Some? && prevMatchLiveIndex.Some? && nextMatchScoreIndex.Some? && nextMatchLiveIndex.Some? {
      var scoreOld, liveOld := prevMatchScoreIndex.value, prevMatchLiveIndex.value;
      var scoreNew, liveNew := nextMatchScoreIndex.value, nextMatchLiveIndex.value;
      nextStretchFactor := Ratio(score[scoreNew].time - score[scoreOld].time, live[liveNew].time - live[liveOld].time);
    } else {
      nextStretchFactor := lastStretchFactor;
    }
  }

  /** The score and live indices of the last pair, if any. */
  function LastIndices(pairs: seq<Pair>): (Option<nat>, Option<nat>)
  {
    if |pairs| == 0 then (None, None) else (Some(pairs[|pairs| - 1].scoreIndex), Some(pairs[|pairs| - 1].liveIndex))
  }

  const TestScore := [Note(1000, 60), Note(1100, 62), Note(1200, 64)]

  /** With no previous match, the first live note matches the first score note and the factor is kept. */
  method MatchFirst() returns (stretch: Stretch, lastScore: Option<nat>, lastLive: Option<nat>, ignored: seq<nat>)
    ensures lastScore == Some(0) && lastLive == Some(0) && ignored == [] && stretch == Unit
  {
    assert Greedy(TestScore, [Note(5, 60)], 0, 0, 0) == Batch([], []);
    stretch, lastScore, lastLive, ignored := FollowScore(TestScore, [Note(5, 60)], None, None, 0, Unit);
  }

  /** The second live note matches score index 1; 50 ms of playing over 100 ms of score gives the factor 0.5. */
  method MatchSecond() returns (stretch: Stretch, lastScore: Option<nat>, lastLive: Option<nat>, ignored: seq<nat>)
    ensures lastScore == Some(1) && lastLive == Some(1) && ignored == []
    ensures stretch == Ratio(100 * NanosPerMilli, 50 * NanosPerMilli)
  {
    var live := [Note(5, 60), Note(55, 62)];
    assert FindNextMatchAfter(TestScore, 1, 62) == Some(1);
    assert Greedy(TestScore, live, 1, 1, 1) == Batch([], []);
    assert Greedy(TestScore, live, 1, 1, 2) == Batch([Pair(1, 1)], []);
    stretch, lastScore, lastLive, ignored := FollowScore(TestScore, live, Some(0), Some(0), 1, Unit);
  }

  /** The extra note 61 is ignored and 62 is matched at the next score index. */
  method SkipExtraNote() returns (stretch: Stretch, lastScore: Option<nat>, lastLive: Option<nat>, ignored: seq<nat>)
    ensures lastScore == Some(1) && lastLive == Some(2) && ignored == [1]
    ensures stretch == Ratio(100 * NanosPerMilli, 50 * NanosPerMilli)
  {
    var live := [Note(5, 60), Note(25, 61), Note(55, 62)];
    assert FindNextMatchAfter(TestScore, 1, 61) == None;
    assert Greedy(TestScore, live, 1, 1, 1) == Batch([], []);
    assert Greedy(TestScore, live, 1, 1, 2) == Batch([], [1]);
    assert Greedy(TestScore, live, 1, 1, 3) == Batch([Pair(1, 2)], [1]);
    stretch, lastScore, lastLive, ignored := FollowScore(TestScore, live, Some(0), Some(0), 1, Unit);
  }

  /** A missing score note (62) is skipped: 64 matches at score index 2 and nothing is ignored. */
  method SkipMissingNote() returns (stretch: Stretch, lastScore: Option<nat>, lastLive: Option<nat>, ignored: seq<nat>)
    ensures lastScore == Some(2) && lastLive == Some(1) && ignored == []
    ensures stretch == Ratio(200 * NanosPerMilli, 50 * NanosPerMilli)
  {
    var live := [Note(5, 60), Note(55, 64)];
    assert FindNextMatchAfter(TestScore, 1, 64) == Some(2);
    assert Greedy(TestScore, live, 1, 1, 1) == Batch([], []);
    assert Greedy(TestScore, live, 1, 1, 2) == Batch([Pair(2, 1)], []);
    stretch, lastScore, lastLive, ignored := FollowScore(TestScore, live, Some(0), Some(0), 1, Unit);
  }

  /** With no previous match the search starts at score index 0 and the stretch factor is kept. */
  method MatchTheOnlyNote() returns (stretch: Stretch, lastScore: Option<nat>, lastLive: Option<nat>, ignored: seq<nat>)
    ensures lastScore == Some(0) && lastLive == Some(0) && ignored == [] && stretch == Unit
  {
    assert Greedy([Note(1000, 60)], [Note(5, 60)], 0, 0, 0) == Batch([], []);
    stretch, lastScore, lastLive, ignored := FollowScore([Note(1000, 60)], [Note(5, 60)], None, None, 0, Unit);
  }
}
