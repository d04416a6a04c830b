/**
 * The polyphonic score follower of src/algo02_polyphonoflex.rs. The score is
 * split into one bucket of score indices per pitch; every live note is matched
 * with the score note of its pitch, at or after the pitch's next unmatched
 * offset, whose time lies nearest to the live time mapped onto the score.
 */
module Algo02 {
  import opened Results
  import opened Score
  import Algo01

  /** The number of MIDI pitches, and so of buckets. */
  const PitchCount: nat := 128

  /** The initial smallest time distance of the nearest-note scan: 9999 seconds. */
  const MaxTimeDiff: Time := 9999 * NanosPerSec

  /** The indices below `n` of the score notes of pitch `p`, ascending. */
  function IndicesOfPitch(score: seq<ScoreNote>, p: nat, n: nat): (r: seq<nat>)
    requires n <= |score|
    ensures |r| <= n
    ensures forall j :: 0 <= j < |r| ==> r[j] < n && score[r[j]].pitch == p
  {
    if n == 0 then []
    else IndicesOfPitch(score, p, n - 1) + (if score[n - 1].pitch == p then [n - 1] else [])
  }

  /** The 128 buckets of the first `n` score notes. */
  function PrefixBuckets(score: seq<ScoreNote>, n: nat): (r: seq<seq<nat>>)
    requires n <= |score|
    ensures |r| == PitchCount
  {
    seq(PitchCount, p requires 0 <= p < PitchCount => IndicesOfPitch(score, p, n))
  }

  /** The 128 buckets of a score: bucket `p` holds the indices of the notes of pitch `p`. */
  function Buckets(score: seq<ScoreNote>): (r: seq<seq<nat>>)
    ensures |r| == PitchCount
  {
    PrefixBuckets(score, |score|)
  }

  /** One more score note is pushed onto the bucket of its pitch and changes no other bucket. */
  lemma PrefixBucketsStep(score: seq<ScoreNote>, n: nat)
    requires n < |score|
    ensures var q := score[n].pitch;
      PrefixBuckets(score, n + 1) == PrefixBuckets(score, n)[q := PrefixBuckets(score, n)[q] + [n]]
  {
    var q := score[n].pitch;
    var next := PrefixBuckets(score, n)[q := PrefixBuckets(score, n)[q] + [n]];
    forall p | 0 <= p < PitchCount
      ensures PrefixBuckets(score, n + 1)[p] == next[p]
    {
      assert PrefixBuckets(score, n + 1)[p] == IndicesOfPitch(score, p, n + 1);
    }
  }

  /**
   * `score_by_pitch`: fills 128 empty buckets by pushing every score index
   * onto the bucket of its note's pitch.
   */
  method ScoreByPitch(score: seq<ScoreNote>) returns (vecs: seq<seq<nat>>)
    ensures vecs == Buckets(score)
  {
    vecs := seq(PitchCount, p => []);
    assert vecs == PrefixBuckets(score, 0);
    var i := 0;
    while i < |score|
      invariant i <= |score|
      invariant vecs == PrefixBuckets(score, i)
    {
      var note := score[i];
      PrefixBucketsStep(score, i);
      vecs := vecs[note.pitch := vecs[note.pitch] + [i]];
      i := i + 1;
    }
  }

  /** Bucket `p` holds exactly the indices of the score notes of pitch `p`. */
  lemma {:induction false} IndicesOfPitchMembership(score: seq<ScoreNote>, p: nat, n: nat, k: nat)
    requires n <= |score|
    ensures k in IndicesOfPitch(score, p, n) <==> k < n && score[k].pitch == p
  {
    if n > 0 {
      IndicesOfPitchMembership(score, p, n - 1, k);
    }
  }

  /** The indices in a bucket strictly ascend. */
  lemma {:induction false} IndicesOfPitchAscending(score: seq<ScoreNote>, p: nat, n: nat)
    requires n <= |score|
    ensures forall i, j :: 0 <= i < j < |IndicesOfPitch(score, p, n)| ==>
      IndicesOfPitch(score, p, n)[i] < IndicesOfPitch(score, p, n)[j]
  {
    if n > 0 {
      IndicesOfPitchAscending(score, p, n - 1);
    }
  }

  /** A score index lies in the bucket of its own pitch, and in no other. */
  lemma BucketsMembership(score: seq<ScoreNote>, p: nat, k: nat)
    requires p < PitchCount
    ensures k in Buckets(score)[p] <==> k < |score| && score[k].pitch == p
  {
    IndicesOfPitchMembership(score, p, |score|, k);
  }

  /** Every bucket entry is a score index whose note has the bucket's pitch. */
  ghost predicate BucketsFit(score: seq<ScoreNote>, buckets: seq<seq<nat>>)
  {
    && |buckets| == PitchCount
    && forall p, j :: 0 <= p < |buckets| && 0 <= j < |buckets[p]| ==> buckets[p][j] < |score| && score[buckets[p][j]].pitch == p
  }

  lemma BucketsFitScore(score: seq<ScoreNote>)
    ensures BucketsFit(score, Buckets(score))
  {
  }

  /** The sum of the lengths of some buckets. */
  function TotalSize(buckets: seq<seq<nat>>): nat
  {
    if buckets == [] then 0 else TotalSize(buckets[..|buckets| - 1]) + |buckets[|buckets| - 1]|
  }

  /** Pushing one index onto one bucket grows the total size by one. */
  lemma {:induction false} TotalSizePush(buckets: seq<seq<nat>>, q: nat, x: nat)
    requires q < |buckets|
    ensures TotalSize(buckets[q := buckets[q] + [x]]) == TotalSize(buckets) + 1
    decreases |buckets|
  {
    var pushed := buckets[q := buckets[q] + [x]];
    if q < |buckets| - 1 {
      assert pushed[..|pushed| - 1] == buckets[..|buckets| - 1][q := buckets[q] + [x]];
      TotalSizePush(buckets[..|buckets| - 1], q, x);
    } else {
      assert pushed[..|pushed| - 1] == buckets[..|buckets| - 1];
    }
  }

  /** The buckets of the first `n` score notes hold `n` indices in all. */
  lemma {:induction false} PrefixBucketsTotal(score: seq<ScoreNote>, n: nat)
    requires n <= |score|
    ensures TotalSize(PrefixBuckets(score, n)) == n
  {
    if n == 0 {
      EmptyBucketsTotal(PitchCount);
      assert PrefixBuckets(score, 0) == seq<seq<nat>>(PitchCount, p => []);
    } else {
      PrefixBucketsTotal(score, n - 1);
      PrefixBucketsStep(score, n - 1);
      var q := score[n - 1].pitch;
      TotalSizePush(PrefixBuckets(score, n - 1), q, n - 1);
    }
  }

  lemma {:induction false} EmptyBucketsTotal(count: nat)
    ensures TotalSize(seq<seq<nat>>(count, p => [])) == 0
  {
    if count > 0 {
      assert seq<seq<nat>>(count, p => [])[..count - 1] == seq<seq<nat>>(count - 1, p => []);
      EmptyBucketsTotal(count - 1);
    }
  }

  /** The bucket sizes add up to the length of the score: every note is in exactly one bucket. */
  lemma BucketsTotal(score: seq<ScoreNote>)
    ensures TotalSize(Buckets(score)) == |score|
  {
    PrefixBucketsTotal(score, |score|);
  }

  /** `absolute_time_difference`: the distance between two times. */
  function AbsoluteTimeDifference(t1: Time, t2: Time): (d: Time)
    ensures d == t1 - t2 || d == t2 - t1
    ensures d as int >= t1 - t2 && d as int >= t2 - t1
  {
    if t2 < t1 then t1 - t2 else t2 - t1
  }

  /** The distance does not depend on the order of the two times. */
  lemma AbsoluteTimeDifferenceSymmetric(t1: Time, t2: Time)
    ensures AbsoluteTimeDifference(t1, t2) == AbsoluteTimeDifference(t2, t1)
  {
  }

  /** The distance is zero exactly when the two times are equal. */
  lemma AbsoluteTimeDifferenceZero(t1: Time, t2: Time)
    ensures AbsoluteTimeDifference(t1, t2) == 0 <==> t1 == t2
  {
  }

  /**
   * The nearest-note scan over time distances `diffs`, from position `k` on,
   * with the smallest distance so far `minDiff` and its position `best`: it
   * takes each next candidate while that strictly reduces the distance and
   * stops at the first one that does not.
   */
  function ScanFrom(diffs: seq<Time>, k: nat, minDiff: Time, best: Option<nat>): (r: Option<nat>)
    requires k <= |diffs|
    ensures r == best || (r.Some? && k <= r.value < |diffs|)
    decreases |diffs| - k
  {
    if k == |diffs| || diffs[k] >= minDiff then best
    else ScanFrom(diffs, k + 1, diffs[k], Some(k))
  }

  /** The candidate the scan picks when it starts at position `from` with the 9999 s bound. */
  function Closest(diffs: seq<Time>, from: nat): (r: Option<nat>)
    requires from <= |diffs|
    ensures r.Some? ==> from <= r.value < |diffs|
  {
    ScanFrom(diffs, from, MaxTimeDiff, None)
  }

  /**
   * The position `r` where a scan from `from` stops: none when the first
   * candidate is missing or not within 9999 s; otherwise the distances strictly
   * decrease from `from` up to `r`, and the candidate after `r`, if any, is no
   * closer than `r`.
   */
  ghost predicate IsStop(diffs: seq<Time>, from: nat, r: Option<nat>)
  {
    if from < |diffs| && diffs[from] < MaxTimeDiff then
      && r.Some? && from <= r.value < |diffs|
      && (forall j :: from <= j < r.value ==> diffs[j + 1] < diffs[j])
      && (r.value + 1 < |diffs| ==> diffs[r.value + 1] >= diffs[r.value])
    else r == None
  }

  /** A scan that has already descended from `from` to `best` ends at a stop position. */
  lemma {:induction false} ScanFromStops(diffs: seq<Time>, from: nat, k: nat, minDiff: Time, best: nat)
    requires from <= best < k <= |diffs| && best == k - 1 && minDiff == diffs[best]
    requires diffs[from] < MaxTimeDiff
    requires forall j :: from <= j < best ==> diffs[j + 1] < diffs[j]
    ensures IsStop(diffs, from, ScanFrom(diffs, k, minDiff, Some(best)))
    decreases |diffs| - k
  {
    if k < |diffs| && diffs[k] < minDiff {
      ScanFromStops(diffs, from, k + 1, diffs[k], k);
    }
  }

  /** The scan stops exactly at the stop position. */
  lemma ClosestIsStop(diffs: seq<Time>, from: nat)
    requires from <= |diffs|
    ensures IsStop(diffs, from, Closest(diffs, from))
  {
    if from < |diffs| && diffs[from] < MaxTimeDiff {
      ScanFromStops(diffs, from, from + 1, diffs[from], from);
    }
  }

  /** There is only one stop position, so the characterisation pins down the scan's choice. */
  lemma StopIsUnique(diffs: seq<Time>, from: nat, r1: Option<nat>, r2: Option<nat>)
    requires IsStop(diffs, from, r1) && IsStop(diffs, from, r2)
    ensures r1 == r2
  {
  }

  /** The chosen candidate is strictly closer than every earlier candidate of the scan. */
  lemma {:induction false} StopIsStrictlyClosest(diffs: seq<Time>, from: nat, r: Option<nat>, j: nat)
    requires IsStop(diffs, from, r) && r.Some? && from <= j < r.value
    ensures diffs[r.value] < diffs[j]
    decreases r.value - j
  {
    if j + 1 < r.value {
      StopIsStrictlyClosest(diffs, from, r, j + 1);
    }
  }

  /** The time distances between the score notes of a bucket and a mapped live time. */
  function Distances(score: seq<ScoreNote>, bucket: seq<nat>, mapped: Time): (d: seq<Time>)
    requires forall j :: 0 <= j < |bucket| ==> bucket[j] < |score|
    ensures |d| == |bucket|
    ensures forall j :: 0 <= j < |bucket| ==> d[j] == AbsoluteTimeDifference(score[bucket[j]].time, mapped)
  {
    seq(|bucket|, j requires 0 <= j < |bucket| => AbsoluteTimeDifference(score[bucket[j]].time, mapped))
  }

  /**
   * A match of a live note with a score note, where the score note is given by
   * its offset in the bucket of the live note's pitch.
   */
  datatype MatchPerPitch = MatchPerPitch(scorePerPitchIndex: nat, liveIndex: nat, stretchFactor: Stretch,
                                         scoreVelocity: Velocity, liveVelocity: Velocity)
  {
    /** The matched live note, or an error when the live index is out of range. */
    function LiveNote(live: seq<ScoreNote>): (r: Result<ScoreNote, string>)
      ensures r.Ok? <==> liveIndex < |live|
      ensures r.Ok? ==> r.value == live[liveIndex]
      ensures r.Err? ==> r.error == "Match points beyond list of live events"
    {
      if liveIndex < |live| then Ok(live[liveIndex]) else Err("Match points beyond list of live events")
    }

    function LiveTime(live: seq<ScoreNote>): (r: Result<Time, string>)
      ensures r.Ok? <==> liveIndex < |live|
      ensures r.Ok? ==> r.value == live[liveIndex].time
    {
      match LiveNote(live)
      case Ok(note) => Ok(note.time)
      case Err(e) => Err(e)
    }

    /**
     * `to_match_per_score`: the same match with the score note given by its
     * score index, looked up in the bucket of the live note's pitch.
     */
    function ToMatchPerScore(buckets: seq<seq<nat>>, live: seq<ScoreNote>): (m: Algo01.MatchPerScore)
      requires liveIndex < |live| && |buckets| == PitchCount
      requires scorePerPitchIndex < |buckets[live[liveIndex].pitch]|
      ensures m.scoreIndex == buckets[live[liveIndex].pitch][scorePerPitchIndex]
      ensures m.liveIndex == liveIndex && m.stretchFactor == stretchFactor
      ensures m.scoreVelocity == scoreVelocity && m.liveVelocity == liveVelocity
    {
      var pitch := live[liveIndex].pitch;
      Algo01.NewMatchPerScore(buckets[pitch][scorePerPitchIndex], liveIndex, stretchFactor, scoreVelocity, liveVelocity)
    }
  }

  /** Over the buckets of the score, a match per pitch names a score note of the live note's pitch. */
  lemma ToMatchPerScorePitch(m: MatchPerPitch, score: seq<ScoreNote>, buckets: seq<seq<nat>>, live: seq<ScoreNote>)
    requires BucketsFit(score, buckets)
    requires m.liveIndex < |live| && m.scorePerPitchIndex < |buckets[live[m.liveIndex].pitch]|
    ensures var s := m.ToMatchPerScore(buckets, live);
      s.scoreIndex < |score| && score[s.scoreIndex].pitch == live[m.liveIndex].pitch
  {
  }

  /** Each match of `ms` has its live note and lies inside the bucket of that note's pitch. */
  ghost predicate AllInRange(ms: seq<MatchPerPitch>, buckets: seq<seq<nat>>, live: seq<ScoreNote>)
  {
    forall j :: 0 <= j < |ms| ==> MatchFits(ms[j], buckets, live)
  }

  /** The match has its live note and lies inside the bucket of that note's pitch. */
  ghost predicate MatchFits(m: MatchPerPitch, buckets: seq<seq<nat>>, live: seq<ScoreNote>)
  {
    && |buckets| == PitchCount && m.liveIndex < |live|
    && m.scorePerPitchIndex < |buckets[live[m.liveIndex].pitch]|
  }

  lemma AllInRangeAppend(ms: seq<MatchPerPitch>, more: seq<MatchPerPitch>, buckets: seq<seq<nat>>, live: seq<ScoreNote>)
    requires AllInRange(ms, buckets, live) && AllInRange(more, buckets, live)
    ensures AllInRange(ms + more, buckets, live)
  {
    var all := ms + more;
    forall j | 0 <= j < |all|
      ensures MatchFits(all[j], buckets, live)
    {
      if j < |ms| {
        assert all[j] == ms[j];
      } else {
        assert all[j] == more[j - |ms|];
      }
    }
  }

  lemma AllInRangeSlice(ms: seq<MatchPerPitch>, lo: nat, hi: nat, buckets: seq<seq<nat>>, live: seq<ScoreNote>)
    requires lo <= hi <= |ms| && AllInRange(ms, buckets, live)
    ensures AllInRange(ms[lo..hi], buckets, live)
  {
    var part := ms[lo..hi];
    forall j | 0 <= j < |part|
      ensures MatchFits(part[j], buckets, live)
    {
      assert part[j] == ms[lo + j];
    }
  }

  /** The matches selected by a range are the clamped slice, and stay in range. */
  lemma SelectedInRange(ms: seq<MatchPerPitch>, range: Algo01.IndexRange, buckets: seq<seq<nat>>, live: seq<ScoreNote>)
    requires AllInRange(ms, buckets, live)
    ensures var (lo, hi) := Algo01.Clamp(range, |ms|);
      && Algo01.SelectInRange(ms, range, 0) == ms[lo..hi]
      && AllInRange(ms[lo..hi], buckets, live)
  {
    Algo01.SelectInRangeIsSlice(ms, range, 0);
    var (lo, hi) := Algo01.Clamp(range, |ms|);
    AllInRangeSlice(ms, lo, hi, buckets, live);
  }

  /** The matches of `ms`, each by its score index. */
  function ToMatchesPerScore(ms: seq<MatchPerPitch>, buckets: seq<seq<nat>>, live: seq<ScoreNote>): (r: seq<Algo01.MatchPerScore>)
    requires AllInRange(ms, buckets, live)
    ensures |r| == |ms| && forall j :: 0 <= j < |ms| ==> r[j] == ms[j].ToMatchPerScore(buckets, live)
  {
    if ms == [] then []
    else
      var init := ms[..|ms| - 1];
      assert forall j :: 0 <= j < |init| ==> init[j] == ms[j];
      ToMatchesPerScore(init, buckets, live) + [ms[|ms| - 1].ToMatchPerScore(buckets, live)]
  }

  /** Where a match's live note is recorded, by the live note's pitch and the match's offset in a batch. */
  datatype PitchOffset = PitchOffset(pitch: Pitch, matchOffset: nat)

  /** The outcome of `find_new_matches`: new matches, ignored live indices and where to record each match. */
  datatype NewBatch = NewBatch(matches: seq<MatchPerPitch>, ignored: seq<nat>, offsets: seq<PitchOffset>)

  /** Every recorded match offset of bucket `p` names a match whose live note has pitch `p`. */
  ghost predicate OffsetsPointAtPitch(matchOffsetsByPitch: seq<seq<nat>>, matches: seq<MatchPerPitch>, live: seq<ScoreNote>)
  {
    forall p, j :: 0 <= p < |matchOffsetsByPitch| && 0 <= j < |matchOffsetsByPitch[p]| ==>
      && matchOffsetsByPitch[p][j] < |matches|
      && matches[matchOffsetsByPitch[p][j]].liveIndex < |live|
      && live[matches[matchOffsetsByPitch[p][j]].liveIndex].pitch == p
  }

  /** Records each match of a batch, shifted by `base`, in the bucket of its pitch. */
  function AddOffsets(matchOffsetsByPitch: seq<seq<nat>>, offsets: seq<PitchOffset>, base: nat): (r: seq<seq<nat>>)
    requires |matchOffsetsByPitch| == PitchCount
    ensures |r| == PitchCount
  {
    if offsets == [] then matchOffsetsByPitch
    else
      var r := AddOffsets(matchOffsetsByPitch, offsets[..|offsets| - 1], base);
      var o := offsets[|offsets| - 1];
      r[o.pitch := r[o.pitch] + [base + o.matchOffset]]
  }

  /** The shifted offsets of the batch entries of pitch `p`, in order. */
  function OffsetsOfPitch(offsets: seq<PitchOffset>, p: nat, base: nat): (r: seq<nat>)
    ensures |r| <= |offsets|
  {
    if offsets == [] then []
    else
      var o := offsets[|offsets| - 1];
      OffsetsOfPitch(offsets[..|offsets| - 1], p, base) + (if o.pitch == p then [base + o.matchOffset] else [])
  }

  /** Recording a batch only appends to each bucket, exactly the batch's entries of that pitch. */
  lemma {:induction false} AddOffsetsAppends(matchOffsetsByPitch: seq<seq<nat>>, offsets: seq<PitchOffset>, base: nat, p: nat)
    requires |matchOffsetsByPitch| == PitchCount && p < PitchCount
    ensures AddOffsets(matchOffsetsByPitch, offsets, base)[p] == matchOffsetsByPitch[p] + OffsetsOfPitch(offsets, p, base)
  {
    if offsets != [] {
      AddOffsetsAppends(matchOffsetsByPitch, offsets[..|offsets| - 1], base, p);
    }
  }

  /**
   * Recording a batch whose entries each name a new match of their pitch keeps
   * every recorded offset pointing at a match of its bucket's pitch.
   */
  lemma {:induction false} AddOffsetsPointAtPitch(matchOffsetsByPitch: seq<seq<nat>>, matches: seq<MatchPerPitch>,
                                                  newMatches: seq<MatchPerPitch>, offsets: seq<PitchOffset>, live: seq<ScoreNote>)
    requires |matchOffsetsByPitch| == PitchCount && OffsetsPointAtPitch(matchOffsetsByPitch, matches, live)
    requires forall j :: 0 <= j < |offsets| ==>
      && offsets[j].matchOffset < |newMatches|
      && newMatches[offsets[j].matchOffset].liveIndex < |live|
      && live[newMatches[offsets[j].matchOffset].liveIndex].pitch == offsets[j].pitch
    ensures OffsetsPointAtPitch(AddOffsets(matchOffsetsByPitch, offsets, |matches|), matches + newMatches, live)
  {
    var all := matches + newMatches;
    if offsets == [] {
      forall p, j | 0 <= p < PitchCount && 0 <= j < |matchOffsetsByPitch[p]|
        ensures all[matchOffsetsByPitch[p][j]] == matches[matchOffsetsByPitch[p][j]]
      {
      }
    } else {
      var before := AddOffsets(matchOffsetsByPitch, offsets[..|offsets| - 1], |matches|);
      AddOffsetsPointAtPitch(matchOffsetsByPitch, matches, newMatches, offsets[..|offsets| - 1], live);
      var o := offsets[|offsets| - 1];
      assert all[|matches| + o.matchOffset] == newMatches[o.matchOffset];
    }
  }

  /** Each decision that makes a match makes it for its own live index. */
  ghost predicate DecidedAtOwnIndex(decisions: seq<Option<MatchPerPitch>>)
  {
    forall l :: 0 <= l < |decisions| && decisions[l].Some? ==> decisions[l].value.liveIndex == l
  }

  /**
   * The batch built from the decisions for the live notes `from .. upTo - 1`:
   * a match is appended together with its live pitch and batch position, and
   * a note without one is ignored.
   */
  function Assemble(decisions: seq<Option<MatchPerPitch>>, pitches: seq<Pitch>, from: nat, upTo: nat): (b: NewBatch)
    requires upTo <= |decisions| == |pitches|
    decreases upTo
  {
    if upTo <= from then NewBatch([], [], [])
    else AddDecision(Assemble(decisions, pitches, from, upTo - 1), decisions[upTo - 1], pitches[upTo - 1], upTo - 1)
  }

  /**
   * A batch after deciding live note `i` of pitch `pitch`: a match is appended
   * together with the pitch and its batch position, and no match ignores `i`.
   */
  function AddDecision(b: NewBatch, decision: Option<MatchPerPitch>, pitch: Pitch, i: nat): NewBatch
  {
    match decision
    case Some(m) => NewBatch(b.matches + [m], b.ignored, b.offsets + [PitchOffset(pitch, |b.matches|)])
    case None => NewBatch(b.matches, b.ignored + [i], b.offsets)
  }

  /**
   * Each match of the batch is the decision for its own live note in
   * `from .. upTo - 1` and is recorded under that note's pitch at its own batch
   * position; the live indices of the matches strictly ascend.
   */
  ghost predicate MatchesDecided(decisions: seq<Option<MatchPerPitch>>, pitches: seq<Pitch>, from: nat, upTo: nat, b: NewBatch)
    requires |decisions| == |pitches|
  {
    && |b.offsets| == |b.matches|
    && (forall j :: 0 <= j < |b.matches| ==>
         && from <= b.matches[j].liveIndex < upTo <= |decisions|
         && decisions[b.matches[j].liveIndex] == Some(b.matches[j])
         && b.offsets[j] == PitchOffset(pitches[b.matches[j].liveIndex], j))
    && (forall i, j :: 0 <= i < j < |b.matches| ==> b.matches[i].liveIndex < b.matches[j].liveIndex)
  }

  lemma {:induction false} AssembleMatches(decisions: seq<Option<MatchPerPitch>>, pitches: seq<Pitch>, from: nat, upTo: nat)
    requires upTo <= |decisions| == |pitches| && DecidedAtOwnIndex(decisions)
    ensures MatchesDecided(decisions, pitches, from, upTo, Assemble(decisions, pitches, from, upTo))
    decreases upTo
  {
    if upTo > from {
      AssembleMatches(decisions, pitches, from, upTo - 1);
      var b := Assemble(decisions, pitches, from, upTo - 1);
      var m := decisions[upTo - 1];
      if m.Some? {
        var b' := Assemble(decisions, pitches, from, upTo);
        assert b' == NewBatch(b.matches + [m.value], b.ignored, b.offsets + [PitchOffset(pitches[upTo - 1], |b.matches|)]);
        forall j | 0 <= j < |b'.matches|
          ensures from <= b'.matches[j].liveIndex < upTo
          ensures decisions[b'.matches[j].liveIndex] == Some(b'.matches[j])
          ensures b'.offsets[j] == PitchOffset(pitches[b'.matches[j].liveIndex], j)
        {
          if j < |b.matches| {
            assert b'.matches[j] == b.matches[j] && b'.offsets[j] == b.offsets[j];
          }
        }
      }
    }
  }

  lemma {:induction false} AssembleIgnoredInOrder(decisions: seq<Option<MatchPerPitch>>, pitches: seq<Pitch>, from: nat, upTo: nat)
    requires upTo <= |decisions| == |pitches|
    ensures var b := Assemble(decisions, pitches, from, upTo);
      && |b.matches| + |b.ignored| == (if from <= upTo then upTo - from else 0)
      && (forall j :: 0 <= j < |b.ignored| ==> from <= b.ignored[j] < upTo)
      && (forall i, j :: 0 <= i < j < |b.ignored| ==> b.ignored[i] < b.ignored[j])
    decreases upTo
  {
    if upTo > from {
      AssembleIgnoredInOrder(decisions, pitches, from, upTo - 1);
    }
  }

  lemma {:induction false} AssembleIgnored(decisions: seq<Option<MatchPerPitch>>, pitches: seq<Pitch>, from: nat, upTo: nat)
    requires upTo <= |decisions| == |pitches|
    ensures forall l :: from <= l < upTo ==> (l in Assemble(decisions, pitches, from, upTo).ignored <==> decisions[l].None?)
    decreases upTo
  {
    if upTo > from {
      AssembleIgnored(decisions, pitches, from, upTo - 1);
      AssembleIgnoredInOrder(decisions, pitches, from, upTo - 1);
      var b := Assemble(decisions, pitches, from, upTo - 1);
      var b' := Assemble(decisions, pitches, from, upTo);
      assert upTo - 1 !in b.ignored;
      forall l | from <= l < upTo
        ensures l in b'.ignored <==> decisions[l].None?
      {
        if l < upTo - 1 {
          assert l in b'.ignored <==> l in b.ignored;
        }
      }
    }
  }

  /** The live indices of a run of matches. */
  function MatchedLiveIndices(ms: seq<MatchPerPitch>): (r: seq<nat>)
    ensures |r| == |ms| && forall j :: 0 <= j < |ms| ==> r[j] == ms[j].liveIndex
  {
    seq(|ms|, j requires 0 <= j < |ms| => ms[j].liveIndex)
  }

  lemma {:induction false} AssembleMatched(decisions: seq<Option<MatchPerPitch>>, pitches: seq<Pitch>, from: nat, upTo: nat)
    requires upTo <= |decisions| == |pitches| && DecidedAtOwnIndex(decisions)
    ensures forall l :: from <= l < upTo ==>
      (l in MatchedLiveIndices(Assemble(decisions, pitches, from, upTo).matches) <==> decisions[l].Some?)
    decreases upTo
  {
    if upTo > from {
      AssembleMatched(decisions, pitches, from, upTo - 1);
      AssembleMatches(decisions, pitches, from, upTo - 1);
      var b := Assemble(decisions, pitches, from, upTo - 1);
      var b' := Assemble(decisions, pitches, from, upTo);
      var last := upTo - 1;
      assert last !in MatchedLiveIndices(b.matches);
      if decisions[last].Some? {
        assert b'.matches == b.matches + [decisions[last].value];
        assert MatchedLiveIndices(b'.matches) == MatchedLiveIndices(b.matches) + [last];
      } else {
        assert b'.matches == b.matches;
      }
      forall l | from <= l < upTo
        ensures l in MatchedLiveIndices(b'.matches) <==> decisions[l].Some?
      {
        if l < last {
          assert l in MatchedLiveIndices(b'.matches) <==> l in MatchedLiveIndices(b.matches);
        }
      }
    }
  }

  /**
   * Every live index in `from .. upTo - 1` is matched exactly when its decision
   * makes a match and ignored exactly when it does not; the ignored indices
   * ascend.
   */
  ghost predicate LiveSplit(decisions: seq<Option<MatchPerPitch>>, from: nat, upTo: nat, b: NewBatch)
    requires upTo <= |decisions|
  {
    && |b.matches| + |b.ignored| == (if from <= upTo then upTo - from else 0)
    && (forall j :: 0 <= j < |b.ignored| ==> from <= b.ignored[j] < upTo)
    && (forall i, j :: 0 <= i < j < |b.ignored| ==> b.ignored[i] < b.ignored[j])
    && (forall l :: from <= l < upTo ==>
         && (l in b.ignored <==> decisions[l].None?)
         && (l in MatchedLiveIndices(b.matches) <==> decisions[l].Some?))
  }

  lemma AssembleSplitsLive(decisions: seq<Option<MatchPerPitch>>, pitches: seq<Pitch>, from: nat, upTo: nat)
    requires upTo <= |decisions| == |pitches| && DecidedAtOwnIndex(decisions)
    ensures LiveSplit(decisions, from, upTo, Assemble(decisions, pitches, from, upTo))
  {
    AssembleIgnoredInOrder(decisions, pitches, from, upTo);
    AssembleIgnored(decisions, pitches, from, upTo);
    AssembleMatched(decisions, pitches, from, upTo);
  }

  /** The pitches of a run of notes. */
  function Pitches(notes: seq<ScoreNote>): (r: seq<Pitch>)
    ensures |r| == |notes| && forall j :: 0 <= j < |notes| ==> r[j] == notes[j].pitch
  {
    seq(|notes|, j requires 0 <= j < |notes| => notes[j].pitch)
  }

  /**
   * What the follower's queries read: the score, its buckets, the time map,
   * the live notes, the stored matches and the match offsets recorded per
   * pitch. `mapTime` stands for the source's `stretch`: it maps a live time
   * elapsed since the last match, under that match's stretch factor, onto
   * score time.
   */
  datatype Follower = Follower(score: seq<ScoreNote>, scoreOffsetsByPitch: seq<seq<nat>>, mapTime: (int, Stretch) -> Time,
                               live: seq<ScoreNote>, matches: seq<MatchPerPitch>, matchOffsetsByPitch: seq<seq<nat>>)
  {
    /** A match's live note exists and its offset lies inside the bucket of that note's pitch. */
    ghost predicate MatchInRange(m: MatchPerPitch)
    {
      && |scoreOffsetsByPitch| == PitchCount && m.liveIndex < |live|
      && m.scorePerPitchIndex < |scoreOffsetsByPitch[live[m.liveIndex].pitch]|
    }

    /**
     * The follower's invariant: the buckets are those of the score, every stored
     * match lies in range, and every recorded match offset names a stored match
     * of its bucket's pitch.
     */
    ghost predicate Valid()
    {
      && BucketsFit(score, scoreOffsetsByPitch)
      && |matchOffsetsByPitch| == PitchCount
      && AllInRange(matches, scoreOffsetsByPitch, live)
      && OffsetsPointAtPitch(matchOffsetsByPitch, matches, live)
    }

    /** The stored matches whose positions lie in `range`, in order, each by its score index. */
    function MatchesSlice(range: Algo01.IndexRange): (r: seq<Algo01.MatchPerScore>)
      requires Valid()
      ensures var (lo, hi) := Algo01.Clamp(range, |matches|);
        |r| == hi - lo && forall j :: 0 <= j < |r| ==> r[j] == matches[lo + j].ToMatchPerScore(scoreOffsetsByPitch, live)
    {
      SelectedInRange(matches, range, scoreOffsetsByPitch, live);
      ToMatchesPerScore(Algo01.SelectInRange(matches, range, 0), scoreOffsetsByPitch, live)
    }

    /**
     * `match_score_note`: the score note a match names, through the bucket of
     * its live note's pitch, which has that pitch.
     */
    function MatchScoreNote(m: MatchPerPitch): (r: Result<ScoreNote, string>)
      requires Valid() && MatchInRange(m)
      ensures r.Ok? && r.value == score[scoreOffsetsByPitch[live[m.liveIndex].pitch][m.scorePerPitchIndex]]
      ensures r.value.pitch == live[m.liveIndex].pitch
    {
      ToMatchPerScorePitch(m, score, scoreOffsetsByPitch, live);
      m.ToMatchPerScore(scoreOffsetsByPitch, live).ScoreNote(score)
    }

    function LastPerPitchMatch(): (r: Option<MatchPerPitch>)
      ensures r.None? <==> matches == []
      ensures r.Some? ==> r.value == matches[|matches| - 1]
    {
      if matches == [] then None else Some(matches[|matches| - 1])
    }

    /** The last stored match, by its score index. */
    function LastMatch(): (r: Option<Algo01.MatchPerScore>)
      requires Valid()
      ensures r.None? <==> matches == []
      ensures r.Some? ==> r.value == matches[|matches| - 1].ToMatchPerScore(scoreOffsetsByPitch, live)
    {
      match LastPerPitchMatch()
      case Some(m) => Some(m.ToMatchPerScore(scoreOffsetsByPitch, live))
      case None => None
    }

    /**
     * The first bucket offset of `pitch` not yet matched: just past the offset of
     * the last match recorded for the pitch, or 0 when it has none.
     */
    function NextUnmatchedOffset(pitch: Pitch): (n: nat)
      requires Valid()
      ensures n <= |scoreOffsetsByPitch[pitch]|
      ensures matchOffsetsByPitch[pitch] == [] ==> n == 0
      ensures matchOffsetsByPitch[pitch] != [] ==>
        n == matches[matchOffsetsByPitch[pitch][|matchOffsetsByPitch[pitch]| - 1]].scorePerPitchIndex + 1
    {
      var offsets := matchOffsetsByPitch[pitch];
      if offsets == [] then 0
      else
        assert MatchInRange(matches[offsets[|offsets| - 1]]);
        matches[offsets[|offsets| - 1]].scorePerPitchIndex + 1
    }

    /**
     * `live_time_mapped`: a live time mapped onto score time relative to the
     * last match, or zero before the first match; an error when the last match
     * points past the live notes.
     */
    function LiveTimeMapped(liveTime: Time): (r: Result<Time, string>)
      ensures r.Err? <==> matches != [] && matches[|matches| - 1].liveIndex >= |live|
      ensures matches == [] ==> r == Ok(0)
      ensures r.Ok? && matches != [] ==>
        r.value == mapTime(liveTime - live[matches[|matches| - 1].liveIndex].time, matches[|matches| - 1].stretchFactor)
    {
      match LastPerPitchMatch()
      case Some(last) =>
        (match last.LiveTime(live)
         case Ok(lastTime) => Ok(mapTime(liveTime - lastTime, last.stretchFactor))
         case Err(e) => Err(e))
      case None => Ok(0)
    }

    /**
     * The stretch factor of a new match: 1.0 for the first match ever, and
     * otherwise the elapsed score and live times since the last stored match;
     * an error when that match points past the live notes.
     */
    function GetStretchFactorAtNewMatch(newMatchInScore: ScoreNote, newMatchInLiveTime: Time): (r: Result<Stretch, string>)
      requires BucketsFit(score, scoreOffsetsByPitch)
      requires matches != [] && matches[|matches| - 1].liveIndex < |live| ==> MatchInRange(matches[|matches| - 1])
      ensures matches == [] ==> r == Ok(Unit)
      ensures r.Err? <==> matches != [] && matches[|matches| - 1].liveIndex >= |live|
      ensures r.Ok? && matches != [] ==>
        var prev := matches[|matches| - 1];
        r.value == Ratio(newMatchInScore.time - score[prev.ToMatchPerScore(scoreOffsetsByPitch, live).scoreIndex].time,
                         newMatchInLiveTime - live[prev.liveIndex].time)
    {
      match LastPerPitchMatch()
      case Some(last) =>
        (match last.LiveNote(live)
         case Ok(prevMatchInLive) =>
           var scoreForPitch := scoreOffsetsByPitch[prevMatchInLive.pitch];
           var prevMatchInScore := score[scoreForPitch[last.scorePerPitchIndex]];
           Ok(Ratio(newMatchInScore.time - prevMatchInScore.time, newMatchInLiveTime - prevMatchInLive.time))
         case Err(e) => Err(e))
      case None => Ok(Unit)
    }

    /** The distances between the score notes of a pitch's bucket and a live time mapped onto the score. */
    function CandidateDistances(pitch: Pitch, liveTime: Time): (d: seq<Time>)
      requires Valid()
      ensures |d| == |scoreOffsetsByPitch[pitch]|
    {
      Distances(score, scoreOffsetsByPitch[pitch], LiveTimeMapped(liveTime).value)
    }

    /**
     * The match `find_new_match` makes for a live note: the stop position of the
     * nearest-note scan over the note's bucket, from the pitch's next unmatched
     * offset, against the mapped live time; none when the scan finds nothing.
     */
    function NewMatchFor(pitch: Pitch, liveIndex: nat, liveTime: Time, liveVelocity: Velocity): (r: Option<MatchPerPitch>)
      requires Valid()
      ensures r.Some? ==> && r.value.liveIndex == liveIndex && r.value.liveVelocity == liveVelocity
                          && NextUnmatchedOffset(pitch) <= r.value.scorePerPitchIndex < |scoreOffsetsByPitch[pitch]|
      ensures r.Some? ==>
        var note := score[scoreOffsetsByPitch[pitch][r.value.scorePerPitchIndex]];
        && r.value.scoreVelocity == note.velocity
        && r.value.stretchFactor == GetStretchFactorAtNewMatch(note, liveTime).value
    {
      var bucket := scoreOffsetsByPitch[pitch];
      var n := NextUnmatchedOffset(pitch);
      var diffs := CandidateDistances(pitch, liveTime);
      match Closest(diffs, n)
      case Some(k) =>
        var note := score[bucket[k]];
        Some(MatchPerPitch(k, liveIndex, GetStretchFactorAtNewMatch(note, liveTime).value, note.velocity, liveVelocity))
      case None => None
    }

    /** The match made for live note `i`. */
    function NewMatchAt(i: nat): (r: Option<MatchPerPitch>)
      requires Valid() && i < |live|
      ensures r.Some? ==> r.value.liveIndex == i
    {
      NewMatchFor(live[i].pitch, i, live[i].time, live[i].velocity)
    }

    /** `get_match_pitch`: the pitch of a match's live note, or an error when that note is missing. */
    function GetMatchPitch(m: MatchPerPitch): (r: Result<Pitch, string>)
      ensures r.Ok? <==> m.liveIndex < |live|
      ensures r.Ok? ==> r.value == live[m.liveIndex].pitch
    {
      match m.LiveNote(live)
      case Ok(note) => Ok(note.pitch)
      case Err(e) => Err(e)
    }

    /** The decision for every live note. */
    function AllNewMatches(): (r: seq<Option<MatchPerPitch>>)
      requires Valid()
      ensures |r| == |live| && forall i {:trigger NewMatchAt(i)} :: 0 <= i < |live| ==> r[i] == NewMatchAt(i)
    {
      seq(|live|, i requires Valid() && 0 <= i < |live| => NewMatchAt(i))
    }

    /**
     * The batch of `find_new_matches` for the live notes `from .. upTo - 1`:
     * every note is decided on its own against this one state.
     */
    function Decisions(from: nat, upTo: nat): (b: NewBatch)
      requires Valid() && upTo <= |live|
      decreases upTo
    {
      if upTo <= from then NewBatch([], [], [])
      else AddDecision(Decisions(from, upTo - 1), NewMatchAt(upTo - 1), live[upTo - 1].pitch, upTo - 1)
    }

    /** The batch is the one assembled from the decisions for all live notes. */
    lemma {:induction false} DecisionsAssemble(from: nat, upTo: nat)
      requires Valid() && upTo <= |live|
      ensures Decisions(from, upTo) == Assemble(AllNewMatches(), Pitches(live), from, upTo)
      decreases upTo
    {
      if upTo > from {
        DecisionsAssemble(from, upTo - 1);
      }
    }

    /**
     * Each new match is the one made for its own live note, lies in range and
     * is recorded under its live pitch at its batch position; every live index
     * from `from` on is matched or ignored according to that decision, never
     * both, in ascending order.
     */
    lemma DecisionsProperties(from: nat, upTo: nat)
      requires Valid() && upTo <= |live|
      ensures MatchesDecided(AllNewMatches(), Pitches(live), from, upTo, Decisions(from, upTo))
      ensures LiveSplit(AllNewMatches(), from, upTo, Decisions(from, upTo))
      ensures AllInRange(Decisions(from, upTo).matches, scoreOffsetsByPitch, live)
    {
      DecisionsAssemble(from, upTo);
      var decisions := AllNewMatches();
      assert DecidedAtOwnIndex(decisions) by {
        forall l | 0 <= l < |decisions| && decisions[l].Some?
          ensures decisions[l].value.liveIndex == l
        {
          assert decisions[l] == NewMatchAt(l);
        }
      }
      AssembleMatches(decisions, Pitches(live), from, upTo);
      AssembleSplitsLive(decisions, Pitches(live), from, upTo);
      var b := Decisions(from, upTo);
      forall j | 0 <= j < |b.matches|
        ensures MatchInRange(b.matches[j])
      {
        assert decisions[b.matches[j].liveIndex] == NewMatchAt(b.matches[j].liveIndex);
      }
    }

    /** The follower once a batch is stored: its matches appended, and their offsets recorded under their pitches. */
    function Apply(b: NewBatch): (f: Follower)
      requires |matchOffsetsByPitch| == PitchCount
      ensures f.score == score && f.scoreOffsetsByPitch == scoreOffsetsByPitch && f.live == live
      ensures f.matches == matches + b.matches
    {
      this.(matches := matches + b.matches,
            matchOffsetsByPitch := AddOffsets(matchOffsetsByPitch, b.offsets, |matches|))
    }

    /** Every entry of the batch's offsets names a new match of the entry's pitch. */
    lemma DecisionsRecordPitches(from: nat, upTo: nat)
      requires Valid() && upTo <= |live|
      ensures var b := Decisions(from, upTo);
        && AllInRange(b.matches, scoreOffsetsByPitch, live)
        && forall j :: 0 <= j < |b.offsets| ==>
             && b.offsets[j].matchOffset < |b.matches|
             && b.matches[b.offsets[j].matchOffset].liveIndex < |live|
             && live[b.matches[b.offsets[j].matchOffset].liveIndex].pitch == b.offsets[j].pitch
    {
      hide NewMatchFor;
      DecisionsProperties(from, upTo);
    }

    /** Storing the batch of the live notes from `from` on keeps the follower's invariant. */
    lemma ApplyKeepsValid(from: nat)
      requires Valid()
      ensures Apply(Decisions(from, |live|)).Valid()
    {
      hide NewMatchFor;
      var b := Decisions(from, |live|);
      DecisionsRecordPitches(from, |live|);
      AddOffsetsPointAtPitch(matchOffsetsByPitch, matches, b.matches, b.offsets, live);
      AllInRangeAppend(matches, b.matches, scoreOffsetsByPitch, live);
    }

    /**
     * A new match names a score note of the live note's own pitch, at the stop
     * position of the nearest-note scan from the pitch's next unmatched offset;
     * there is no match exactly when the scan has no candidate within 9999 s.
     */
    lemma NewMatchIsNearest(pitch: Pitch, liveIndex: nat, liveTime: Time, liveVelocity: Velocity)
      requires Valid()
      ensures var r := NewMatchFor(pitch, liveIndex, liveTime, liveVelocity);
        && IsStop(CandidateDistances(pitch, liveTime), NextUnmatchedOffset(pitch), if r.Some? then Some(r.value.scorePerPitchIndex) else None)
        && (r.Some? ==> score[scoreOffsetsByPitch[pitch][r.value.scorePerPitchIndex]].pitch == pitch)
    {
      var r := NewMatchFor(pitch, liveIndex, liveTime, liveVelocity);
      ClosestIsStop(CandidateDistances(pitch, liveTime), NextUnmatchedOffset(pitch));
    }

    /**
     * `find_new_match`: scans the bucket of the live note's pitch from the next
     * unmatched offset, keeping the nearest candidate while each next one is
     * strictly nearer, and stops at the first that is not.
     */
    method FindNewMatch(pitch: Pitch, liveIndex: nat, liveTime: Time, liveVelocity: Velocity)
      returns (r: Result<Option<MatchPerPitch>, string>)
      requires Valid()
      ensures r == Ok(NewMatchFor(pitch, liveIndex, liveTime, liveVelocity))
    {
      var nextUnmatchedOffsetForPitch := NextUnmatchedOffset(pitch);
      var scoreForPitch := scoreOffsetsByPitch[pitch];
      assert matches != [] ==> MatchInRange(matches[|matches| - 1]);
      var liveTimeMapped := LiveTimeMapped(liveTime).value;
      var minTimeDiff := MaxTimeDiff;
      var bestMatchPitchScoreIndex: Option<nat> := None;
      ghost var diffs := CandidateDistances(pitch, liveTime);
      var i := nextUnmatchedOffsetForPitch;
      while i < |scoreForPitch|
        invariant nextUnmatchedOffsetForPitch <= i <= |scoreForPitch|
        invariant ScanFrom(diffs, i, minTimeDiff, bestMatchPitchScoreIndex) == Closest(diffs, nextUnmatchedOffsetForPitch)
        invariant bestMatchPitchScoreIndex.Some? ==> bestMatchPitchScoreIndex.value < |scoreForPitch|
      {
        var scoreNoteOffset := scoreForPitch[i];
        var timeDiff := AbsoluteTimeDifference(score[scoreNoteOffset].time, liveTimeMapped);
        if timeDiff < minTimeDiff {
          bestMatchPitchScoreIndex := Some(i);
          minTimeDiff := timeDiff;
        } else {
          assert bestMatchPitchScoreIndex == Closest(diffs, nextUnmatchedOffsetForPitch);
          break;
        }
        i := i + 1;
      }
      if bestMatchPitchScoreIndex.Some? {
        var index := bestMatchPitchScoreIndex.value;
        var bestMatchScoreNote := score[scoreForPitch[index]];
        var stretchFactor := GetStretchFactorAtNewMatch(bestMatchScoreNote, liveTime).value;
        r := Ok(Some(MatchPerPitch(index, liveIndex, stretchFactor, bestMatchScoreNote.velocity, liveVelocity)));
      } else {
        r := Ok(None);
      }
    }

    /**
     * `find_new_matches`: decides every live note from `newLiveIndex` on,
     * each against the state before the call, without changing the follower.
     */
    method FindNewMatches(newLiveIndex: nat) returns (r: Result<NewBatch, string>)
      requires Valid()
      ensures r == Ok(Decisions(newLiveIndex, |live|))
    {
      hide NewMatchFor, Valid;
      var newMatches: seq<MatchPerPitch> := [];
      var newIgnored: seq<nat> := [];
      var newOffsets: seq<PitchOffset> := [];
      if newLiveIndex >= |live| {
        return Ok(NewBatch(newMatches, newIgnored, newOffsets));
      }
      var i := newLiveIndex;
      while i < |live|
        invariant newLiveIndex <= i <= |live|
        invariant Decisions(newLiveIndex, i) == NewBatch(newMatches, newIgnored, newOffsets)
      {
        var note := live[i];
        var found := FindNewMatch(note.pitch, i, note.time, note.velocity);
        if found.value.Some? {
          var newMatch := found.value.value;
          var pitch := GetMatchPitch(newMatch).value;
          newOffsets := newOffsets + [PitchOffset(pitch, |newMatches|)];
          newMatches := newMatches + [newMatch];
        } else {
          newIgnored := newIgnored + [i];
        }
        i := i + 1;
      }
      r := Ok(NewBatch(newMatches, newIgnored, newOffsets));
    }
  }

  /** The follower `PolyphonoFlex`, whose live notes, matches and records grow in place. */
  class PolyphonoFlex {
    const score: seq<ScoreNote>
    const scoreOffsetsByPitch: seq<seq<nat>>
    const mapTime: (int, Stretch) -> Time
    var live: seq<ScoreNote>
    var matches: seq<MatchPerPitch>
    var matchOffsetsByPitch: seq<seq<nat>>
    var ignored: seq<nat>

    /** The follower's current state as a value. */
    function State(): (s: Follower)
      reads this
      ensures s.score == score && s.live == live && s.matches == matches
    {
      Follower(score, scoreOffsetsByPitch, mapTime, live, matches, matchOffsetsByPitch)
    }

    ghost predicate Valid()
      reads this
    {
      State().Valid()
    }

    constructor (score: seq<ScoreNote>, mapTime: (int, Stretch) -> Time)
      ensures Valid()
      ensures this.score == score && scoreOffsetsByPitch == Buckets(score) && this.mapTime == mapTime
      ensures live == [] && matches == [] && ignored == [] && matchOffsetsByPitch == seq(PitchCount, p => [])
    {
      var buckets := ScoreByPitch(score);
      this.score := score;
      scoreOffsetsByPitch := buckets;
      this.mapTime := mapTime;
      live, matches, ignored := [], [], [];
      matchOffsetsByPitch := seq(PitchCount, p => []);
      BucketsFitScore(score);
    }

    method PushLive(note: ScoreNote)
      modifies this
      ensures live == old(live) + [note]
      ensures matches == old(matches) && ignored == old(ignored) && matchOffsetsByPitch == old(matchOffsetsByPitch)
      ensures old(Valid()) ==> Valid()
    {
      live := live + [note];
      assert forall j :: 0 <= j < |old(live)| ==> live[j] == old(live)[j];
    }

    /**
     * `follow_score`: appends the batch to the matches and the ignored indices,
     * and records every new match, by its position among all matches, under its
     * live pitch.
     */
    method FollowScore(newLiveIndex: nat) returns (r: Result<(), string>)
      requires Valid()
      modifies this
      ensures Valid() && r == Ok(())
      ensures live == old(live)
      ensures var b := old(State().Decisions(newLiveIndex, |live|));
        && matches == old(matches) + b.matches
        && ignored == old(ignored) + b.ignored
        && matchOffsetsByPitch == AddOffsets(old(matchOffsetsByPitch), b.offsets, old(|matches|))
    {
      hide Follower.NewMatchFor, Follower.Decisions;
      var found := State().FindNewMatches(newLiveIndex);
      var b := found.value;
      State().ApplyKeepsValid(newLiveIndex);
      ghost var next := State().Apply(b);
      ghost var oldMatches, oldOffsets := matches, matchOffsetsByPitch;
      var matchesOffset := |matches|;
      matches := matches + b.matches;
      ignored := ignored + b.ignored;
      var k := 0;
      while k < |b.offsets|
        invariant k <= |b.offsets|
        invariant matchOffsetsByPitch == AddOffsets(oldOffsets, b.offsets[..k], matchesOffset)
        invariant live == old(live) && matches == oldMatches + b.matches && ignored == old(ignored) + b.ignored
      {
        var o := b.offsets[k];
        assert b.offsets[..k + 1][..k] == b.offsets[..k];
        matchOffsetsByPitch := matchOffsetsByPitch[o.pitch := matchOffsetsByPitch[o.pitch] + [matchesOffset + o.matchOffset]];
        k := k + 1;
      }
      assert b.offsets[..|b.offsets|] == b.offsets;
      assert State() == next;
      r := Ok(());
    }
  }

  /** A note of the tests' note lists, played at full velocity 127. */
  function LoudNote(millis: nat, pitch: Pitch): ScoreNote
  {
    ScoreNote(millis * NanosPerMilli, pitch, 127)
  }

  const TestScore := [LoudNote(1000, 60), LoudNote(1100, 62), LoudNote(1200, 64)]

  /** A time map that leaves a live duration unstretched, clamping a negative one to zero. */
  function Unstretched(d: int, s: Stretch): (t: Time)
    ensures d >= 0 ==> t == d
  {
    if d < 0 then 0 else d
  }

  /** The bucket of pitch `p` in the test score. */
  lemma TestScoreBucket(p: nat)
    requires p < PitchCount
    ensures Buckets(TestScore)[p] == (if p == 60 then [0] else []) + (if p == 62 then [1] else []) + (if p == 64 then [2] else [])
  {
    assert IndicesOfPitch(TestScore, p, 1) == (if p == 60 then [0] else []);
    assert IndicesOfPitch(TestScore, p, 2) == IndicesOfPitch(TestScore, p, 1) + (if p == 62 then [1] else []);
  }

  /** The buckets of the test score, for the pitches its tests play. */
  lemma TestScoreBuckets()
    ensures var b := Buckets(TestScore);
      && b[60] == [0] && b[61] == [] && b[62] == [1] && b[63] == [] && b[64] == [2] && b[66] == []
  {
    TestScoreBucket(60);
    TestScoreBucket(61);
    TestScoreBucket(62);
    TestScoreBucket(63);
    TestScoreBucket(64);
    TestScoreBucket(66);
  }

  /** The only live note matches the only score note, with the stretch factor 1.0. */
  method FollowTheOnlyNote() returns (matches: seq<MatchPerPitch>, offsets: seq<seq<nat>>, ignored: seq<nat>)
    ensures matches == [MatchPerPitch(0, 0, Unit, 127, 127)]
    ensures |offsets| == PitchCount && offsets[60] == [0]
    ensures ignored == []
  {
    hide Follower.NewMatchFor, Follower.Valid;
    FirstNoteDecisions([LoudNote(1000, 60)]);
    var follower := FollowFresh([LoudNote(1000, 60)], [LoudNote(5, 60)]);
    ghost var before := Fresh([LoudNote(1000, 60)], [LoudNote(5, 60)]).matchOffsetsByPitch;
    assert AddOffsets(before, [PitchOffset(60, 0)][..0], 0) == before && before[60] + [0] == [0];
    assert follower.matchOffsetsByPitch == AddOffsets(before, [PitchOffset(60, 0)], 0) == before[60 := [0]];
    assert follower.matchOffsetsByPitch[60] == [0];
    matches, offsets, ignored := follower.matches, follower.matchOffsetsByPitch, follower.ignored;
  }

  /** A new follower of `score` that has received the live notes `live` and matched none of them. */
  function Fresh(score: seq<ScoreNote>, live: seq<ScoreNote>): (f: Follower)
    ensures f.score == score && f.live == live && f.matches == []
  {
    Follower(score, Buckets(score), Unstretched, live, [], seq(PitchCount, p => []))
  }

  /** Pitch 60 holds score index 0 in the one-note score and in the test score. */
  lemma FirstNoteBucket(score: seq<ScoreNote>)
    requires score == [LoudNote(1000, 60)] || score == TestScore
    ensures Fresh(score, [LoudNote(5, 60)]).Valid()
    ensures Buckets(score)[60] == [0] && score[0] == LoudNote(1000, 60)
  {
    BucketsFitScore(score);
    if score == TestScore {
      TestScoreBuckets();
    } else {
      assert IndicesOfPitch(score, 60, 1) == [0];
    }
  }

  /** The one live 60 is matched to the first score note of pitch 60, whether the score has one note or three. */
  lemma FirstNoteDecisions(score: seq<ScoreNote>)
    requires score == [LoudNote(1000, 60)] || score == TestScore
    ensures Fresh(score, [LoudNote(5, 60)]).Valid()
    ensures Fresh(score, [LoudNote(5, 60)]).Decisions(0, 1)
      == NewBatch([MatchPerPitch(0, 0, Unit, 127, 127)], [], [PitchOffset(60, 0)])
  {
    var f := Fresh(score, [LoudNote(5, 60)]);
    FirstNoteBucket(score);
    hide Follower.Valid, Buckets;
    assert f.CandidateDistances(60, 5 * NanosPerMilli) == [1000 * NanosPerMilli];
    assert f.NewMatchAt(0) == Some(MatchPerPitch(0, 0, Unit, 127, 127));
  }

  /** A new follower of `score` that receives `live` and follows the score from its first note. */
  method FollowFresh(score: seq<ScoreNote>, live: seq<ScoreNote>) returns (follower: PolyphonoFlex)
    requires Fresh(score, live).Valid()
    ensures var b := Fresh(score, live).Decisions(0, |live|);
      && follower.State() == Fresh(score, live).Apply(b) && follower.ignored == b.ignored
  {
    follower := new PolyphonoFlex(score, Unstretched);
    follower.live := live;
    assert follower.State() == Fresh(score, live);
    var r := follower.FollowScore(0);
  }

  /** `find_new_matches_the_only_note`: the batch found for the only live note, before it is applied. */
  method FindNewMatchesTheOnlyNote() returns (r: Result<NewBatch, string>)
    ensures r == Ok(NewBatch([MatchPerPitch(0, 0, Unit, 127, 127)], [], [PitchOffset(60, 0)]))
  {
    var follower := new PolyphonoFlex([LoudNote(1000, 60)], Unstretched);
    follower.PushLive(LoudNote(5, 60));
    var s := follower.State();
    assert s == Fresh([LoudNote(1000, 60)], [LoudNote(5, 60)]);
    FirstNoteDecisions([LoudNote(1000, 60)]);
    hide Follower.Decisions, Follower.Valid;
    r := s.FindNewMatches(0);
  }

  /** `match_first`: the first live note matches the first score note of its pitch. */
  method MatchFirst() returns (matches: seq<MatchPerPitch>, offsets: seq<seq<nat>>, ignored: seq<nat>)
    ensures matches == [MatchPerPitch(0, 0, Unit, 127, 127)]
    ensures |offsets| == PitchCount && offsets[60] == [0]
    ensures ignored == []
  {
    hide Follower.NewMatchFor, Follower.Valid;
    FirstNoteDecisions(TestScore);
    var follower := FollowFresh(TestScore, [LoudNote(5, 60)]);
    ghost var before := Fresh(TestScore, [LoudNote(5, 60)]).matchOffsetsByPitch;
    assert AddOffsets(before, [PitchOffset(60, 0)][..0], 0) == before && before[60] + [0] == [0];
    assert follower.matchOffsetsByPitch == AddOffsets(before, [PitchOffset(60, 0)], 0) == before[60 := [0]];
    assert follower.matchOffsetsByPitch[60] == [0];
    matches, offsets, ignored := follower.matches, follower.matchOffsetsByPitch, follower.ignored;
  }

  /** The stored match of the first live note with the score's 60, as the tests set it up. */
  const FirstMatch := MatchPerPitch(0, 0, Unit, 127, 127)

  /** A follower of the test score that has matched its first live note with the score's 60. */
  function AfterFirst(live: seq<ScoreNote>): (f: Follower)
    ensures f.live == live && f.matches == [FirstMatch]
  {
    Follower(TestScore, Buckets(TestScore), Unstretched, live, [FirstMatch], seq(PitchCount, p => [])[60 := [0]])
  }

  /** The set-up state is valid whenever the first live note is a 60. */
  lemma AfterFirstValid(live: seq<ScoreNote>)
    requires |live| >= 1 && live[0].pitch == 60
    ensures AfterFirst(live).Valid()
  {
    var s := AfterFirst(live);
    TestScoreBuckets();
    BucketsFitScore(TestScore);
    assert AllInRange(s.matches, s.scoreOffsetsByPitch, live);
    forall p, j | 0 <= p < |s.matchOffsetsByPitch| && 0 <= j < |s.matchOffsetsByPitch[p]|
      ensures s.matchOffsetsByPitch[p][j] == 0 && p == 60
    {
    }
  }

  /** Sets up `AfterFirst(live)` in a new follower and follows the score from the second live note. */
  method FollowAfterFirst(live: seq<ScoreNote>) returns (follower: PolyphonoFlex)
    requires AfterFirst(live).Valid() && |live| >= 1
    ensures var b := AfterFirst(live).Decisions(1, |live|);
      && follower.State() == AfterFirst(live).Apply(b) && follower.ignored == b.ignored
  {
    follower := new PolyphonoFlex(TestScore, Unstretched);
    follower.live := live;
    follower.matches := [FirstMatch];
    follower.matchOffsetsByPitch := follower.matchOffsetsByPitch[60 := [0]];
    assert follower.State() == AfterFirst(live);
    var r := follower.FollowScore(1);
  }

  /**
   * After the first match, a pitch other than 60 starts its scan at offset 0,
   * a later live time maps to its distance from the first live note, and a new
   * match is stretched against the score's first note.
   */
  lemma AfterFirstFacts(live: seq<ScoreNote>, pitch: Pitch, note: ScoreNote, t: Time)
    requires AfterFirst(live).Valid() && live[0].pitch == 60 && pitch != 60 && t >= live[0].time
    ensures AfterFirst(live).NextUnmatchedOffset(pitch) == 0
    ensures AfterFirst(live).LiveTimeMapped(t) == Ok(t - live[0].time)
    ensures AfterFirst(live).GetStretchFactorAtNewMatch(note, t) == Ok(Ratio(note.time - 1000 * NanosPerMilli, t - live[0].time))
  {
    TestScoreBuckets();
    assert AfterFirst(live).scoreOffsetsByPitch[60][0] == 0;
  }

  /** A live note whose pitch the test score lacks is ignored. */
  lemma AbsentPitchIgnored(live: seq<ScoreNote>, i: nat)
    requires AfterFirst(live).Valid() && i < |live| && live[i].pitch in [61, 63, 66]
    ensures AfterFirst(live).NewMatchAt(i) == None
  {
    TestScoreBuckets();
    hide Follower.Valid;
    assert |AfterFirst(live).CandidateDistances(live[i].pitch, live[i].time)| == 0;
  }

  const MatchSecondLive := [LoudNote(5, 60), LoudNote(55, 62)]

  /** The second note of `match_second`: the score's 62 is the nearest unmatched 62. */
  lemma MatchSecondMatch()
    requires AfterFirst(MatchSecondLive).Valid()
    ensures AfterFirst(MatchSecondLive).NewMatchAt(1) == Some(MatchPerPitch(0, 1, Ratio(100 * NanosPerMilli, 50 * NanosPerMilli), 127, 127))
  {
    var s := AfterFirst(MatchSecondLive);
    TestScoreBuckets();
    AfterFirstFacts(MatchSecondLive, 62, TestScore[1], 55 * NanosPerMilli);
    hide Follower.Valid, Follower.NextUnmatchedOffset, Follower.LiveTimeMapped, Follower.GetStretchFactorAtNewMatch, Distances;
    assert s.CandidateDistances(62, 55 * NanosPerMilli) == [1050 * NanosPerMilli];
  }

  /** The live 62 matches the score's 62, stretched against the stored match. */
  lemma MatchSecondDecisions()
    ensures AfterFirst(MatchSecondLive).Valid()
    ensures AfterFirst(MatchSecondLive).Decisions(1, 2)
      == NewBatch([MatchPerPitch(0, 1, Ratio(100 * NanosPerMilli, 50 * NanosPerMilli), 127, 127)], [], [PitchOffset(62, 0)])
  {
    AfterFirstValid(MatchSecondLive);
    MatchSecondMatch();
    hide Follower.NewMatchFor, Follower.Valid;
  }

  /** `match_second` */
  method MatchSecond() returns (newMatches: seq<MatchPerPitch>, offsets: seq<seq<nat>>, ignored: seq<nat>)
    ensures newMatches == [MatchPerPitch(0, 1, Ratio(100 * NanosPerMilli, 50 * NanosPerMilli), 127, 127)]
    ensures |offsets| == PitchCount && offsets[62] == [1]
    ensures ignored == []
  {
    hide Follower.NewMatchFor, Follower.Valid;
    MatchSecondDecisions();
    var follower := FollowAfterFirst(MatchSecondLive);
    ghost var before := AfterFirst(MatchSecondLive).matchOffsetsByPitch;
    assert AddOffsets(before, [PitchOffset(62, 0)][..0], 1) == before && before[62] + [1] == [1];
    assert follower.matchOffsetsByPitch == AddOffsets(before, [PitchOffset(62, 0)], 1) == before[62 := [1]];
    assert follower.matchOffsetsByPitch[62] == [1];
    newMatches, offsets, ignored := follower.matches[1..], follower.matchOffsetsByPitch, follower.ignored;
  }

  const SkipExtraLive := [LoudNote(5, 60), LoudNote(25, 61), LoudNote(55, 62)]

  /** The second note of `skip_extra_note`: the score's 62 is within reach. */
  lemma SkipExtraNoteMatch()
    requires AfterFirst(SkipExtraLive).Valid()
    ensures AfterFirst(SkipExtraLive).NewMatchAt(2) == Some(MatchPerPitch(0, 2, Ratio(100 * NanosPerMilli, 50 * NanosPerMilli), 127, 127))
  {
    var s := AfterFirst(SkipExtraLive);
    TestScoreBuckets();
    AfterFirstFacts(SkipExtraLive, 62, TestScore[1], 55 * NanosPerMilli);
    hide Follower.Valid, Follower.NextUnmatchedOffset, Follower.LiveTimeMapped, Follower.GetStretchFactorAtNewMatch, Distances;
    assert s.CandidateDistances(62, 55 * NanosPerMilli) == [1050 * NanosPerMilli];
  }

  /** The extra live note 61 is ignored; 62 matches the score's 62, stretched against the stored match. */
  lemma SkipExtraNoteDecisions()
    ensures AfterFirst(SkipExtraLive).Valid()
    ensures AfterFirst(SkipExtraLive).Decisions(1, 3)
      == NewBatch([MatchPerPitch(0, 2, Ratio(100 * NanosPerMilli, 50 * NanosPerMilli), 127, 127)], [1], [PitchOffset(62, 0)])
  {
    AfterFirstValid(SkipExtraLive);
    SkipExtraNoteMatch();
    SkipExtraNoteIgnored();
    hide Follower.NewMatchFor, Follower.NewMatchAt, Follower.Valid;
  }

  /** The extra live 61 has no candidate in the score and is ignored. */
  lemma SkipExtraNoteIgnored()
    requires AfterFirst(SkipExtraLive).Valid()
    ensures AfterFirst(SkipExtraLive).Decisions(1, 2) == NewBatch([], [1], [])
  {
    AbsentPitchIgnored(SkipExtraLive, 1);
    hide Follower.NewMatchFor, Follower.NewMatchAt, Follower.Valid;
  }

  /** `skip_extra_note` */
  method SkipExtraNote() returns (newMatches: seq<MatchPerPitch>, offsets: seq<seq<nat>>, ignored: seq<nat>)
    ensures newMatches == [MatchPerPitch(0, 2, Ratio(100 * NanosPerMilli, 50 * NanosPerMilli), 127, 127)]
    ensures |offsets| == PitchCount && offsets[61] == [] && offsets[62] == [1]
    ensures ignored == [1]
  {
    hide Follower.NewMatchFor, Follower.Valid;
    SkipExtraNoteDecisions();
    var follower := FollowAfterFirst(SkipExtraLive);
    ghost var before := AfterFirst(SkipExtraLive).matchOffsetsByPitch;
    assert AddOffsets(before, [PitchOffset(62, 0)][..0], 1) == before && before[62] + [1] == [1];
    assert follower.matchOffsetsByPitch == AddOffsets(before, [PitchOffset(62, 0)], 1) == before[62 := [1]];
    assert follower.matchOffsetsByPitch[61] == [] && follower.matchOffsetsByPitch[62] == [1];
    newMatches, offsets, ignored := follower.matches[1..], follower.matchOffsetsByPitch, follower.ignored;
  }

  const SkipMissingLive := [LoudNote(5, 60), LoudNote(55, 64)]

  /** The second note of `skip_missing_note`: the score's 64 is within reach. */
  lemma SkipMissingNoteMatch()
    requires AfterFirst(SkipMissingLive).Valid()
    ensures AfterFirst(SkipMissingLive).NewMatchAt(1) == Some(MatchPerPitch(0, 1, Ratio(200 * NanosPerMilli, 50 * NanosPerMilli), 127, 127))
  {
    var s := AfterFirst(SkipMissingLive);
    TestScoreBuckets();
    AfterFirstFacts(SkipMissingLive, 64, TestScore[2], 55 * NanosPerMilli);
    hide Follower.Valid, Follower.NextUnmatchedOffset, Follower.LiveTimeMapped, Follower.GetStretchFactorAtNewMatch, Distances;
    assert s.CandidateDistances(64, 55 * NanosPerMilli) == [1150 * NanosPerMilli];
  }

  /** The score's 62 is skipped, and the live 64 matches the score's 64. */
  lemma SkipMissingNoteDecisions()
    ensures AfterFirst(SkipMissingLive).Valid()
    ensures AfterFirst(SkipMissingLive).Decisions(1, 2)
      == NewBatch([MatchPerPitch(0, 1, Ratio(200 * NanosPerMilli, 50 * NanosPerMilli), 127, 127)], [], [PitchOffset(64, 0)])
  {
    AfterFirstValid(SkipMissingLive);
    SkipMissingNoteMatch();
    hide Follower.NewMatchFor, Follower.Valid;
  }

  /** `skip_missing_note`: the score's 62 is skipped, and the live 64 matches the score's 64. */
  method SkipMissingNote() returns (newMatches: seq<MatchPerPitch>, offsets: seq<seq<nat>>, ignored: seq<nat>)
    ensures newMatches == [MatchPerPitch(0, 1, Ratio(200 * NanosPerMilli, 50 * NanosPerMilli), 127, 127)]
    ensures |offsets| == PitchCount && offsets[64] == [1]
    ensures ignored == []
  {
    hide Follower.NewMatchFor, Follower.Valid;
    SkipMissingNoteDecisions();
    var follower := FollowAfterFirst(SkipMissingLive);
    ghost var before := AfterFirst(SkipMissingLive).matchOffsetsByPitch;
    assert AddOffsets(before, [PitchOffset(64, 0)][..0], 1) == before && before[64] + [1] == [1];
    assert follower.matchOffsetsByPitch == AddOffsets(before, [PitchOffset(64, 0)], 1) == before[64 := [1]];
    assert follower.matchOffsetsByPitch[64] == [1];
    newMatches, offsets, ignored := follower.matches[1..], follower.matchOffsetsByPitch, follower.ignored;
  }

  const OnlyWrongLive := [LoudNote(5, 60), LoudNote(55, 63), LoudNote(105, 66)]

  /** `only_wrong_notes`: pitches the score lacks are all ignored and record nothing. */
  method OnlyWrongNotes() returns (newMatches: seq<MatchPerPitch>, offsets: seq<seq<nat>>, ignored: seq<nat>)
    ensures newMatches == []
    ensures |offsets| == PitchCount && offsets[63] == [] && offsets[66] == []
    ensures ignored == [1, 2]
  {
    hide Follower.NewMatchFor, Follower.Valid;
    AfterFirstValid(OnlyWrongLive);
    AbsentPitchIgnored(OnlyWrongLive, 1);
    AbsentPitchIgnored(OnlyWrongLive, 2);
    assert AfterFirst(OnlyWrongLive).Decisions(1, 2) == NewBatch([], [1], []);
    var follower := FollowAfterFirst(OnlyWrongLive);
    assert follower.matchOffsetsByPitch[63] == [] && follower.matchOffsetsByPitch[66] == [];
    newMatches, offsets, ignored := follower.matches[1..], follower.matchOffsetsByPitch, follower.ignored;
  }

  /**
   * `Duration` subtraction as the source performs it: `None` stands for the
   * panic when the result would be negative.
   */
  function DurationSub(t1: Time, t2: Time): (r: Option<Time>)
    ensures r.None? <==> t1 < t2
    ensures r.Some? ==> r.value + t2 == t1
  {
    if t1 < t2 then None else Some(t1 - t2)
  }

  /**
   * The elapsed score time from the last match to a new match, computed as the
   * source computes it in `get_stretch_factor_at_new_match`: with `Duration`
   * subtraction, which fails when the new match lies earlier in the score.
   */
  function ElapsedScoreAsWritten(f: Follower, newMatchInScore: ScoreNote): (r: Option<Time>)
    requires BucketsFit(f.score, f.scoreOffsetsByPitch) && f.matches != [] && f.MatchInRange(f.matches[|f.matches| - 1])
    ensures var prev := f.score[f.matches[|f.matches| - 1].ToMatchPerScore(f.scoreOffsetsByPitch, f.live).scoreIndex];
      r.None? <==> newMatchInScore.time < prev.time
  {
    var prev := f.matches[|f.matches| - 1].ToMatchPerScore(f.scoreOffsetsByPitch, f.live);
    ToMatchPerScorePitch(f.matches[|f.matches| - 1], f.score, f.scoreOffsetsByPitch, f.live);
    DurationSub(newMatchInScore.time, f.score[prev.scoreIndex].time)
  }

  /** Two notes played in the reverse of their score order: 62 at 5 ms, then 60 at 55 ms. */
  const ReorderedLive := [LoudNote(5, 62), LoudNote(55, 60)]

  /** The follower after the first round of `ReorderedLive`: the live 62 has matched the score's 62. */
  function AfterReorderedFirst(): (f: Follower)
    ensures f.live == ReorderedLive && f.matches == [FirstMatch]
  {
    Follower(TestScore, Buckets(TestScore), Unstretched, ReorderedLive, [FirstMatch], seq(PitchCount, p => [])[62 := [0]])
  }

  /** The state after the first round is valid, and the second round's facts for pitch 60. */
  lemma AfterReorderedFirstFacts()
    ensures AfterReorderedFirst().Valid()
    ensures AfterReorderedFirst().scoreOffsetsByPitch[60] == [0] && AfterReorderedFirst().scoreOffsetsByPitch[62] == [1]
    ensures AfterReorderedFirst().NextUnmatchedOffset(60) == 0
    ensures AfterReorderedFirst().LiveTimeMapped(55 * NanosPerMilli) == Ok(50 * NanosPerMilli)
    ensures AfterReorderedFirst().GetStretchFactorAtNewMatch(TestScore[0], 55 * NanosPerMilli)
      == Ok(Ratio(1000 * NanosPerMilli - 1100 * NanosPerMilli, 50 * NanosPerMilli))
  {
    var s := AfterReorderedFirst();
    TestScoreBuckets();
    BucketsFitScore(TestScore);
    assert AllInRange(s.matches, s.scoreOffsetsByPitch, s.live);
    forall p, j | 0 <= p < |s.matchOffsetsByPitch| && 0 <= j < |s.matchOffsetsByPitch[p]|
      ensures s.matchOffsetsByPitch[p][j] == 0 && p == 62
    {
    }
  }

  /**
   * In the second round the live 60 matches the score's 60, which lies 100 ms
   * before the score's 62 that the last match points at: the elapsed score
   * time is negative, and the source's `Duration` subtraction fails on it.
   */
  lemma ReorderedNotesUnderflows()
    ensures AfterReorderedFirst().Valid()
    ensures AfterReorderedFirst().NewMatchAt(1)
      == Some(MatchPerPitch(0, 1, Ratio(1000 * NanosPerMilli - 1100 * NanosPerMilli, 50 * NanosPerMilli), 127, 127))
    ensures ElapsedScoreAsWritten(AfterReorderedFirst(), TestScore[0]) == None
  {
    var s := AfterReorderedFirst();
    AfterReorderedFirstFacts();
    hide Follower.Valid, Follower.NextUnmatchedOffset, Follower.LiveTimeMapped, Follower.GetStretchFactorAtNewMatch, Distances;
    assert s.CandidateDistances(60, 55 * NanosPerMilli) == [950 * NanosPerMilli];
  }
}
