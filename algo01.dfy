/**
 * The stateful score follower of src/algo01_homophonopedantic.rs: it keeps
 * the live performance, the matches found so far and the ignored live notes,
 * and extends them on every call with the greedy matching of src/lib.rs.
 */
module Algo01 {
  import opened Results
  import opened Score
  import opened Lib

  /** A bound of a range of match indices, as in Rust's `RangeBounds`. */
  datatype Bound = Included(n: nat) | Excluded(n: nat) | Unbounded

  datatype IndexRange = IndexRange(start: Bound, end: Bound)
  {
    predicate Contains(i: nat)
    {
      && (match start
          case Included(n) => n <= i
          case Excluded(n) => n < i
          case Unbounded => true)
      && (match end
          case Included(n) => i <= n
          case Excluded(n) => i < n
          case Unbounded => true)
    }

    /** The first index of the range. */
    function Lo(): nat
    {
      match start
      case Included(n) => n
      case Excluded(n) => n + 1
      case Unbounded => 0
    }
  }

  /** The elements of `xs` whose positions lie in `range`, from position `from` on, in order. */
  function SelectInRange<T>(xs: seq<T>, range: IndexRange, from: nat): (r: seq<T>)
    requires from <= |xs|
    ensures |r| <= |xs| - from
    decreases |xs| - from
  {
    if from == |xs| then []
    else (if range.Contains(from) then [xs[from]] else []) + SelectInRange(xs, range, from + 1)
  }

  /** The contiguous slice that the positions of `range` pick out of a sequence of length `n`. */
  function Clamp(range: IndexRange, n: nat): (bounds: (nat, nat))
    ensures bounds.0 <= bounds.1 <= n
  {
    var hi := match range.end
      case Included(m) => if m < n then m + 1 else n
      case Excluded(m) => if m < n then m else n
      case Unbounded => n;
    var lo := if range.Lo() < hi then range.Lo() else hi;
    (lo, hi)
  }

  /** Selecting the positions of a range gives exactly the slice between its clamped bounds. */
  lemma {:induction false} SelectInRangeIsSlice<T>(xs: seq<T>, range: IndexRange, from: nat)
    requires from <= |xs|
    ensures var (lo, hi) := Clamp(range, |xs|);
      SelectInRange(xs, range, from) == if from <= lo then xs[lo..hi] else if from <= hi then xs[from..hi] else []
    decreases |xs| - from
  {
    if from < |xs| {
      SelectInRangeIsSlice(xs, range, from + 1);
      var (lo, hi) := Clamp(range, |xs|);
      assert range.Contains(from) <==> lo <= from < hi;
      if lo <= from < hi {
        assert xs[from..hi] == [xs[from]] + xs[from + 1..hi];
      }
    }
  }

  /** A match of a live note with a score note, by their indices. */
  datatype MatchPerScore = MatchPerScore(scoreIndex: nat, liveIndex: nat, stretchFactor: Stretch,
                                         scoreVelocity: Velocity, liveVelocity: Velocity)
  {
    /** The matched score note, or an error when the score index is out of range. */
    function ScoreNote(score: seq<Score.ScoreNote>): (r: Result<Score.ScoreNote, string>)
      ensures r.Ok? <==> scoreIndex < |score|
      ensures r.Ok? ==> r.value == score[scoreIndex]
      ensures r.Err? ==> r.error == "Match points beyond list of score events"
    {
      if scoreIndex < |score| then Ok(score[scoreIndex]) else Err("Match points beyond list of score events")
    }

    function ScoreTime(score: seq<Score.ScoreNote>): (r: Result<Time, string>)
      ensures r.Ok? <==> scoreIndex < |score|
      ensures r.Ok? ==> r.value == score[scoreIndex].time
    {
      match ScoreNote(score)
      case Ok(note) => Ok(note.time)
      case Err(e) => Err(e)
    }

    /** The matched live note, or an error when the live index is out of range. */
    function LiveNote(live: seq<Score.ScoreNote>): (r: Result<Score.ScoreNote, string>)
      ensures r.Ok? <==> liveIndex < |live|
      ensures r.Ok? ==> r.value == live[liveIndex]
      ensures r.Err? ==> r.error == "Match points beyond list of live events"
    {
      if liveIndex < |live| then Ok(live[liveIndex]) else Err("Match points beyond list of live events")
    }

    function LiveTime(live: seq<Score.ScoreNote>): (r: Result<Time, string>)
      ensures r.Ok? <==> liveIndex < |live|
      ensures r.Ok? ==> r.value == live[liveIndex].time
    {
      match LiveNote(live)
      case Ok(note) => Ok(note.time)
      case Err(e) => Err(e)
    }

    function LivePitch(live: seq<Score.ScoreNote>): (r: Result<Pitch, string>)
      ensures r.Ok? <==> liveIndex < |live|
      ensures r.Ok? ==> r.value == live[liveIndex].pitch
    {
      match LiveNote(live)
      case Ok(note) => Ok(note.pitch)
      case Err(e) => Err(e)
    }
  }

  /** `u7::from(u8)`: keeps the low seven bits. */
  function U7FromByte(b: nat): (r: U7)
    requires b < 256
    ensures b < 128 ==> r == b
  {
    b % 128
  }

  /** `MatchPerScore::new`, which narrows the two velocities to seven bits. */
  function NewMatchPerScore(scoreIndex: nat, liveIndex: nat, stretchFactor: Stretch, scoreVelocity: nat, liveVelocity: nat): (m: MatchPerScore)
    requires scoreVelocity < 256 && liveVelocity < 256
    ensures m.scoreIndex == scoreIndex && m.liveIndex == liveIndex && m.stretchFactor == stretchFactor
    ensures scoreVelocity < 128 ==> m.scoreVelocity == scoreVelocity
    ensures liveVelocity < 128 ==> m.liveVelocity == liveVelocity
  {
    MatchPerScore(scoreIndex, liveIndex, stretchFactor, U7FromByte(scoreVelocity), U7FromByte(liveVelocity))
  }

  class HomophonoPedantic {
    const score: seq<ScoreNote>
    var live: seq<ScoreNote>
    var matches: seq<MatchPerScore>
    var ignored: seq<nat>

    /** The last stored match lies inside the score and the live performance. */
    ghost predicate LastMatchInRange()
      reads this
    {
      matches != [] ==> matches[|matches| - 1].scoreIndex < |score| && matches[|matches| - 1].liveIndex < |live|
    }

    constructor (score: seq<ScoreNote>)
      ensures this.score == score && live == [] && matches == [] && ignored == []
    {
      this.score := score;
      live, matches, ignored := [], [], [];
    }

    method PushLive(note: ScoreNote)
      modifies this
      ensures live == old(live) + [note]
      ensures matches == old(matches) && ignored == old(ignored)
    {
      live := live + [note];
    }

    /** The stored matches whose positions lie in `range`, in order. */
    function MatchesSlice(range: IndexRange): (r: seq<MatchPerScore>)
      reads this
      ensures var (lo, hi) := Clamp(range, |matches|); r == matches[lo..hi]
    {
      SelectInRangeIsSlice(matches, range, 0);
      SelectInRange(matches, range, 0)
    }

    /** The score note a match points at, or an error when it points beyond the score. */
    function MatchScoreNote(m: MatchPerScore): (r: Result<ScoreNote, string>)
      reads this
      ensures r.Ok? <==> m.scoreIndex < |score|
      ensures r.Ok? ==> r.value == score[m.scoreIndex]
      ensures r.Err? ==> r.error == "Match points beyond list of score events"
    {
      m.ScoreNote(score)
    }

    function LastMatch(): (r: Option<MatchPerScore>)
      reads this
      ensures r.None? <==> matches == []
      ensures r.Some? ==> r.value == matches[|matches| - 1]
    {
      if matches == [] then None else Some(matches[|matches| - 1])
    }

    /** Where the search resumes: just after the last match's score index, or at 0. */
    function ScorePointer(): (p: nat)
      reads this
      ensures matches == [] ==> p == 0
      ensures matches != [] ==> p == matches[|matches| - 1].scoreIndex + 1
    {
      match LastMatch()
      case Some(m) => m.scoreIndex + 1
      case None => 0
    }

    /**
     * The stretch factor of a new match: 1.0 for the first match ever, and
     * otherwise the elapsed score and live times since the last stored match.
     */
    function GetStretchFactorAtNewMatch(newMatchScoreIndex: nat, newMatchInLiveTime: Time): (r: Stretch)
      reads this
      requires newMatchScoreIndex < |score| && LastMatchInRange()
      ensures matches == [] ==> r == Unit
      ensures matches != [] ==> r == Ratio(
        score[newMatchScoreIndex].time - score[matches[|matches| - 1].scoreIndex].time,
        newMatchInLiveTime - live[matches[|matches| - 1].liveIndex].time)
    {
      match LastMatch()
      case Some(prev) =>
        Ratio(score[newMatchScoreIndex].time - score[prev.scoreIndex].time, newMatchInLiveTime - live[prev.liveIndex].time)
      case None => Unit
    }

    /** The match recorded for a greedy pair, with its stretch factor and both velocities. */
    function MatchFor(p: Pair): (m: MatchPerScore)
      reads this
      requires p.scoreIndex < |score| && p.liveIndex < |live| && LastMatchInRange()
      ensures m.scoreIndex == p.scoreIndex && m.liveIndex == p.liveIndex
      ensures m.stretchFactor == GetStretchFactorAtNewMatch(p.scoreIndex, live[p.liveIndex].time)
      ensures m.scoreVelocity == score[p.scoreIndex].velocity && m.liveVelocity == live[p.liveIndex].velocity
    {
      NewMatchPerScore(p.scoreIndex, p.liveIndex, GetStretchFactorAtNewMatch(p.scoreIndex, live[p.liveIndex].time),
                       score[p.scoreIndex].velocity, live[p.liveIndex].velocity)
    }

    /** The matches recorded for a run of greedy pairs, in order. */
    function MatchesFor(pairs: seq<Pair>): (ms: seq<MatchPerScore>)
      reads this
      requires forall j :: 0 <= j < |pairs| ==> pairs[j].scoreIndex < |score| && pairs[j].liveIndex < |live|
      requires LastMatchInRange()
      ensures |ms| == |pairs|
      ensures forall j :: 0 <= j < |pairs| ==> ms[j] == MatchFor(pairs[j])
    {
      if pairs == [] then [] else MatchesFor(pairs[..|pairs| - 1]) + [MatchFor(pairs[|pairs| - 1])]
    }

    lemma MatchesForAppend(pairs: seq<Pair>, p: Pair)
      requires forall j :: 0 <= j < |pairs| ==> pairs[j].scoreIndex < |score| && pairs[j].liveIndex < |live|
      requires p.scoreIndex < |score| && p.liveIndex < |live| && LastMatchInRange()
      ensures MatchesFor(pairs + [p]) == MatchesFor(pairs) + [MatchFor(p)]
    {
      assert (pairs + [p])[..|pairs|] == pairs;
    }

    /**
     * The state of the search after the live notes `from .. i - 1`: the greedy
     * pairs and ignored indices so far, the matches recorded for those pairs and
     * the score pointer where the search goes on.
     */
    ghost predicate Searched(start: nat, from: nat, i: nat, pairs: seq<Pair>, newIgnored: seq<nat>,
                             newMatches: seq<MatchPerScore>, pointer: nat)
      reads this
    {
      && start <= |score| && from <= i <= |live| && LastMatchInRange()
      && Greedy(score, live, start, from, i) == Batch(pairs, newIgnored)
      && pointer == Pointer(pairs, start)
      && newMatches == MatchesFor(pairs)
    }

    /** Deciding live note `i` extends the search state by one pair or one ignored index. */
    lemma SearchStep(start: nat, from: nat, i: nat, pairs: seq<Pair>, newIgnored: seq<nat>,
                     newMatches: seq<MatchPerScore>, pointer: nat)
      requires Searched(start, from, i, pairs, newIgnored, newMatches, pointer) && i < |live|
      ensures pointer <= |score|
      ensures var m := FindNextMatchAfter(score, pointer, live[i].pitch);
        && (m.Some? ==> Searched(start, from, i + 1, pairs + [Pair(m.value, i)], newIgnored,
                                 newMatches + [MatchFor(Pair(m.value, i))], m.value + 1))
        && (m.None? ==> Searched(start, from, i + 1, pairs, newIgnored + [i], newMatches, pointer))
    {
      GreedyStep(score, live, start, from, i);
      var m := FindNextMatchAfter(score, pointer, live[i].pitch);
      if m.Some? {
        MatchesForAppend(pairs, Pair(m.value, i));
      }
    }

    /**
     * Finds matches in the score for the live notes from `newLiveIndex` on,
     * resuming just after the last stored match, without changing any state.
     */
    method FindNewMatches(newLiveIndex: nat) returns (newMatches: seq<MatchPerScore>, newIgnored: seq<nat>)
      requires LastMatchInRange()
      ensures var b := Greedy(score, live, ScorePointer(), newLiveIndex, |live|);
        && newIgnored == b.ignored
        && newMatches == MatchesFor(b.pairs)
    {
      var scorePointer := ScorePointer();
      ghost var start := scorePointer;
      newMatches, newIgnored := [], [];
      if newLiveIndex >= |live| {
        return;
      }
      ghost var pairs: seq<Pair> := [];
      var i := newLiveIndex;
      assert Searched(start, newLiveIndex, i, pairs, newIgnored, newMatches, scorePointer);
      hide Greedy, MatchesFor;
      while i < |live|
        invariant Searched(start, newLiveIndex, i, pairs, newIgnored, newMatches, scorePointer)
      {
        var liveNote := live[i];
        SearchStep(start, newLiveIndex, i, pairs, newIgnored, newMatches, scorePointer);
        var matchingIndex := FindNextMatchAfter(score, scorePointer, liveNote.pitch);
        if matchingIndex.Some? {
          var scoreIndex := matchingIndex.value;
          var stretchFactor := GetStretchFactorAtNewMatch(scoreIndex, liveNote.time);
          var newMatch := NewMatchPerScore(scoreIndex, i, stretchFactor, score[scoreIndex].velocity, liveNote.velocity);
          newMatches := newMatches + [newMatch];
          pairs := pairs + [Pair(scoreIndex, i)];
          scorePointer := scoreIndex + 1;
        } else {
          newIgnored := newIgnored + [i];
        }
        i := i + 1;
      }
    }

    /** Extends the stored matches and ignored notes with those of the new live notes. */
    method FollowScore(newLiveIndex: nat)
      requires LastMatchInRange()
      modifies this
      ensures live == old(live) && LastMatchInRange()
      ensures var b := Greedy(score, live, old(ScorePointer()), newLiveIndex, |live|);
        && ignored == old(ignored) + b.ignored
        && matches == old(matches) + old(MatchesFor(b.pairs))
    {
      var newMatches, newIgnored := FindNewMatches(newLiveIndex);
      matches := matches + newMatches;
      ignored := ignored + newIgnored;
    }
  }

  const TestScore := [Note(1000, 60), Note(1100, 62), Note(1200, 64)]

  /** The first live note matches the first score note, with the stretch factor 1.0. */
  method MatchFirst() returns (matches: seq<MatchPerScore>, ignored: seq<nat>)
    ensures matches == [MatchPerScore(0, 0, Unit, 100, 100)] && ignored == []
  {
    var follower := new HomophonoPedantic(TestScore);
    follower.live := [Note(5, 60)];
    follower.FollowScore(0);
    matches, ignored := follower.matches, follower.ignored;
  }

  /** The second live note matches score index 1, stretched against the stored first match. */
  method MatchSecond() returns (newMatches: seq<MatchPerScore>, ignored: seq<nat>)
    ensures newMatches == [MatchPerScore(1, 1, Ratio(100 * NanosPerMilli, 50 * NanosPerMilli), 100, 100)]
    ensures ignored == []
  {
    var follower := new HomophonoPedantic(TestScore);
    follower.live := [Note(5, 60), Note(55, 62)];
    follower.matches := [MatchPerScore(0, 0, Unit, 100, 100)];
    assert FindNextMatchAfter(TestScore, 1, 62) == Some(1);
    follower.FollowScore(1);
    newMatches, ignored := follower.matches[1..], follower.ignored;
  }

  /** The extra note 61 is ignored; 62 matches score index 1, measured against the stored match. */
  method SkipExtraNote() returns (newMatches: seq<MatchPerScore>, ignored: seq<nat>)
    ensures newMatches == [MatchPerScore(1, 2, Ratio(100 * NanosPerMilli, 50 * NanosPerMilli), 100, 100)]
    ensures ignored == [1]
  {
    var follower := new HomophonoPedantic(TestScore);
    follower.live := [Note(5, 60), Note(25, 61), Note(55, 62)];
    follower.matches := [MatchPerScore(0, 0, Unit, 100, 100)];
    assert FindNextMatchAfter(TestScore, 1, 61) == None;
    follower.FollowScore(1);
    newMatches, ignored := follower.matches[1..], follower.ignored;
  }

  /** A missing score note is skipped: 64 matches score index 2. */
  method SkipMissingNote() returns (newMatches: seq<MatchPerScore>, ignored: seq<nat>)
    ensures newMatches == [MatchPerScore(2, 1, Ratio(200 * NanosPerMilli, 50 * NanosPerMilli), 100, 100)]
    ensures ignored == []
  {
    var follower := new HomophonoPedantic(TestScore);
    follower.live := [Note(5, 60), Note(55, 64)];
    follower.matches := [MatchPerScore(0, 0, Unit, 100, 100)];
    assert FindNextMatchAfter(TestScore, 1, 64) == Some(2);
    follower.FollowScore(1);
    newMatches, ignored := follower.matches[1..], follower.ignored;
  }

  /** Wrong notes are ignored and do not advance the follower. */
  method OnlyWrongNotes() returns (newMatches: seq<MatchPerScore>, ignored: seq<nat>)
    ensures newMatches == [] && ignored == [1, 2]
  {
    var follower := new HomophonoPedantic(TestScore);
    follower.live := [Note(5, 60), Note(55, 63), Note(105, 66)];
    follower.matches := [MatchPerScore(0, 0, Unit, 100, 100)];
    assert FindNextMatchAfter(TestScore, 1, 63) == None;
    assert FindNextMatchAfter(TestScore, 1, 66) == None;
    follower.FollowScore(1);
    newMatches, ignored := follower.matches[1..], follower.ignored;
  }

  /** The first match ever gets the stretch factor 1.0. */
  method MatchTheOnlyNote() returns (matches: seq<MatchPerScore>, ignored: seq<nat>)
    ensures matches == [MatchPerScore(0, 0, Unit, 100, 100)] && ignored == []
  {
    var follower := new HomophonoPedantic([Note(1000, 60)]);
    follower.live := [Note(5, 60)];
    follower.FollowScore(0);
    matches, ignored := follower.matches, follower.ignored;
  }
}
