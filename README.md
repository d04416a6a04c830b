# selim score following, modelled in Dafny

selim follows a live MIDI performance against a score and plays an
accompaniment score in time with it. This project models its core:

- `lib.dfy` (module `Lib`): the original `follow_score` of `src/lib.rs`.
  Each new live note is matched greedily with the next score note of the
  same pitch after the last match, and the stretch factor is recomputed
  from the previous and the new last match.
- `algo01.dfy` (module `Algo01`): the `HomophonoPedantic` follower. It is a
  class that keeps the score, the live notes, the matches and the ignored
  live notes. It shares the greedy matching of `Lib`.
- `algo02.dfy` (module `Algo02`): the `PolyphonoFlex` follower.
  - The score is grouped into one bucket of score indices per pitch.
  - A live note is matched with the unmatched note of its pitch whose
    time is closest to the mapped live time. The scan stops at the first
    candidate that is not closer.
  - The follower also records, per pitch, which matches belong to it.
  - The class `PolyphonoFlex` holds the state. The value `Follower`
    specifies its functions.
- `playback.dfy` (module `Playback`): playing the accompaniment.
  - `play_past_moments` plays every event of the next moment once its time
    has come.
  - `encode_midi_event` gives note-ons the live velocity.
  - `play_next` estimates the score time from the last match and chooses
    how long to wait.
- `abc.dfy` (module `Abc`): the header handling of `abc_into_score`.
  - Info fields are read and the required `X`, `T` and `K` fields are
    given defaults.
  - Header fields are ordered `X` first, `T` second, `K` last and the
    others alphabetically.
  - Scores are simplified to whole milliseconds and velocity 100.
- `device.dfy` (module `Device`): choosing one MIDI port by position or by a
  part of its name, with the error messages for none and several.
- `testhelpers.dfy` (module `TestHelpers`): `ignore_vel`.
- `score.dfy` and `results.dfy`: the note type, time constants, the
  symbolic stretch factor, and `Option`/`Result`.

Times are `nat` nanoseconds, the unit of Rust's `Duration`. A stretch factor
is kept symbolic. It is either `Unit` (the literal `1.0`) or
`Ratio(elapsedScore, elapsedLive)`, which stands for the float that
`get_stretch_factor` computes from those two durations: elapsed live time
divided by elapsed score time. The function that
applies a factor to a duration is not part of this model. Where the source
calls it, the model takes it as a parameter (`stretch` in
`Playback.PlayNext`, `mapTime` in `Algo02`).

## Model

| member | source | states |
|---|---|---|
| Lib.FindNextMatchAfter | src/lib.rs:8-16 | the result is the first index at or after the start whose note has the pitch; None exactly when no later note has it |
| Lib.Greedy | src/lib.rs:79-91 | every match lies within the score, at or after the resume position, and its live note is below the end of the scan |
| Lib.GreedyPairsMatch | src/lib.rs:79-91 | every match joins a score note and a live note of equal pitch, both in range, with the live note taken from the new live notes |
| Lib.GreedyPairsAscend | src/lib.rs:79-91 | successive matches move strictly forward in both the score and the live notes |
| Lib.GreedyIgnoredInOrder | src/lib.rs:79-91 | the ignored live indices are new live notes, listed in ascending order |
| Lib.GreedyPartition | src/lib.rs:79-91 | every new live note is either matched or ignored, never both and never neither |
| Lib.IgnoredHasNoMatchAhead | src/lib.rs:79-91 | an ignored live note has no score note of its pitch anywhere at or after the score position the search had reached when it was read |
| Lib.FollowedLastMatch | src/lib.rs:92-111 | the new last match exists for both sides or neither, has equal pitches, lies after the previous match in the score; the factor is `Ratio` of the elapsed score and the elapsed live time between the previous and the new last match, that is live over score, else the old factor |
| Lib.Followed | src/lib.rs:92-111 | a new last match exists on both sides or on neither; it lies within the score and among the new live notes |
| Lib.MatchNewNotes | src/lib.rs:79-91 | the loop returns the last match and the ignored notes of the greedy matching |
| Lib.FollowScore | src/lib.rs:66-111 | the method returns exactly the specified outcome: greedy matching from after the previous match, then the stretch factor |
| Lib.MatchTheOnlyNote | src/lib.rs:141-152 | the one live note matches the one score note; nothing is ignored and the factor stays 1 |
| Lib.MatchFirst | src/lib.rs:154-164 | the first live note matches score index 0 |
| Lib.MatchSecond | src/lib.rs:166-176 | the second live note matches score index 1 with factor 50 ms live over 100 ms score (0.5) |
| Lib.SkipExtraNote | src/lib.rs:178-188 | the wrong note 61 is ignored and 62 matches score index 1 |
| Lib.SkipMissingNote | src/lib.rs:190-200 | a skipped score note is passed over: 64 matches score index 2 with factor 50 ms live over 200 ms score (0.25) |
| Algo01.SelectInRangeIsSlice | src/algo01_homophonopedantic.rs:166-183 | keeping the elements whose index is in a range gives the slice between the range's bounds clamped to the length |
| Algo01.MatchPerScore.ScoreNote | src/algo01_homophonopedantic.rs:40-46 | the score note of the match, or the "beyond list of score events" error exactly when the index is out of range |
| Algo01.MatchPerScore.ScoreTime | src/algo01_homophonopedantic.rs:48-50 | the time of that score note, failing exactly when the index is out of range |
| Algo01.MatchPerScore.LivePitch | src/algo01_homophonopedantic.rs:56-58 | the pitch of the live note, failing exactly when the index is out of range |
| Algo01.MatchPerScore.LiveNote | src/algo01_homophonopedantic.rs:66-72 | the live note of the match, or the "beyond list of live events" error exactly when the index is out of range |
| Algo01.MatchPerScore.LiveTime | src/algo01_homophonopedantic.rs:74-76 | the time of that live note, failing exactly when the index is out of range |
| Algo01.NewMatchPerScore | src/algo01_homophonopedantic.rs:20-34 | indices and factor are kept; a velocity below 128 is kept unchanged by the 7-bit conversion |
| Algo01.HomophonoPedantic.constructor | src/algo01_homophonopedantic.rs:95-102 | a follower starts with the score and no live notes, matches or ignored notes |
| Algo01.HomophonoPedantic.PushLive | src/algo01_homophonopedantic.rs:162-164 | the note is appended to the live notes; matches and ignored notes are unchanged |
| Algo01.HomophonoPedantic.MatchesSlice | src/algo01_homophonopedantic.rs:166-183 | the matches whose index lies in the range, in order |
| Algo01.HomophonoPedantic.MatchScoreNote | src/algo01_homophonopedantic.rs:185-187 | the score note a match points at, with the score error exactly when it points past the score |
| Algo01.HomophonoPedantic.LastMatch | src/algo01_homophonopedantic.rs:191-193 | the last match, None exactly when there are none |
| Algo01.HomophonoPedantic.ScorePointer | src/algo01_homophonopedantic.rs:215-218 | the search resumes just after the last match's score index, or at 0 |
| Algo01.HomophonoPedantic.GetStretchFactorAtNewMatch | src/algo01_homophonopedantic.rs:247-270 | 1 with no previous match; otherwise `Ratio` of the elapsed score and the elapsed live time since the last match, that is live over score |
| Algo01.HomophonoPedantic.MatchFor | src/algo01_homophonopedantic.rs:227-235 | a new match carries its pair's indices, the stretch factor at that pair, and both notes' velocities |
| Algo01.HomophonoPedantic.MatchesFor | src/algo01_homophonopedantic.rs:221-244 | one new match per matched pair, in the same order |
| Algo01.HomophonoPedantic.FindNewMatches | src/algo01_homophonopedantic.rs:211-245 | the new matches and ignored notes are those of the greedy matching from after the last match |
| Algo01.HomophonoPedantic.FollowScore | src/algo01_homophonopedantic.rs:155-160 | the greedy matching's matches and ignored notes are appended to the follower's; live notes are unchanged and the matches stay in range |
| Algo01.MatchTheOnlyNote | src/algo01_homophonopedantic.rs:282-293 | the only live note gives the one match (0, 0) with factor 1 |
| Algo01.MatchFirst | src/algo01_homophonopedantic.rs:295-305 | the first live note gives the match (0, 0) with factor 1 |
| Algo01.MatchSecond | src/algo01_homophonopedantic.rs:307-320 | the second live note gives the match (1, 1) with factor 50 ms live over 100 ms score (0.5) |
| Algo01.SkipExtraNote | src/algo01_homophonopedantic.rs:322-337 | live note 1 is ignored; live note 2 matches score index 1 |
| Algo01.SkipMissingNote | src/algo01_homophonopedantic.rs:339-352 | 64 matches score index 2 with factor 50 ms live over 200 ms score (0.25) |
| Algo01.OnlyWrongNotes | src/algo01_homophonopedantic.rs:354-366 | live notes absent from the score are all ignored and nothing matches |
| Algo02.ScoreByPitch | src/algo02_polyphonoflex.rs:107-116 | the loop builds exactly the per-pitch buckets of the score |
| Algo02.PrefixBucketsStep | src/algo02_polyphonoflex.rs:111-114 | each score note adds its index to the end of its pitch's bucket and nothing else |
| Algo02.IndicesOfPitchMembership | src/algo02_polyphonoflex.rs:107-116 | an index is in a bucket prefix exactly when it is below the prefix length and its note has the pitch |
| Algo02.IndicesOfPitchAscending | src/algo02_polyphonoflex.rs:107-116 | a bucket lists score indices in ascending order |
| Algo02.BucketsMembership | src/algo02_polyphonoflex.rs:107-116 | index k is in bucket p exactly when score note k has pitch p |
| Algo02.BucketsTotal | src/algo02_polyphonoflex.rs:107-116 | the buckets hold as many indices as the score has notes |
| Algo02.AbsoluteTimeDifference | src/algo02_polyphonoflex.rs:406-412 | the result is the larger of the two differences |
| Algo02.AbsoluteTimeDifferenceSymmetric | src/algo02_polyphonoflex.rs:406-412 | the difference does not depend on argument order |
| Algo02.AbsoluteTimeDifferenceZero | src/algo02_polyphonoflex.rs:406-412 | the difference is zero exactly when the times are equal |
| Algo02.ScanFrom | src/algo02_polyphonoflex.rs:294-327 | the scan keeps the best candidate so far, or picks a candidate at or after its position |
| Algo02.Closest | src/algo02_polyphonoflex.rs:294-327 | a chosen candidate lies among the candidates from the first unmatched one on |
| Algo02.ClosestIsStop | src/algo02_polyphonoflex.rs:294-327 | the scan picks the first candidate (under 9999 s) from which the next one is not strictly closer; none when there is no candidate or the first is too far |
| Algo02.StopIsUnique | src/algo02_polyphonoflex.rs:294-327 | that stopping candidate is unique, so the scan is fully determined |
| Algo02.StopIsStrictlyClosest | src/algo02_polyphonoflex.rs:294-327 | the chosen candidate is strictly closer than every candidate before it |
| Algo02.Distances | src/algo02_polyphonoflex.rs:298-304 | one distance per candidate, between its score time and the mapped live time |
| Algo02.MatchPerPitch.LiveNote | src/algo02_polyphonoflex.rs:86-92 | the live note of the match, or the live error exactly when the index is out of range |
| Algo02.MatchPerPitch.LiveTime | src/algo02_polyphonoflex.rs:94-96 | the time of that live note, failing exactly when the index is out of range |
| Algo02.MatchPerPitch.ToMatchPerScore | src/algo02_polyphonoflex.rs:67-82 | the score index is the bucket entry of the live note's pitch; live index, factor and velocities are kept |
| Algo02.ToMatchPerScorePitch | src/algo02_polyphonoflex.rs:67-82 | a converted match points at a score note of the live note's pitch |
| Algo02.ToMatchesPerScore | src/algo02_polyphonoflex.rs:175-201 | each match converted, in order |
| Algo02.AddOffsetsAppends | src/algo02_polyphonoflex.rs:165-167 | recording the new offsets appends to each pitch's list exactly the new matches of that pitch, shifted by the old match count |
| Algo02.AddOffsetsPointAtPitch | src/algo02_polyphonoflex.rs:165-167 | after recording, every offset in a pitch's list points at a match of that pitch |
| Algo02.AssembleMatches | src/algo02_polyphonoflex.rs:237-281 | the new matches are the decisions that found a match, in live order, and each offset records its match's pitch and position |
| Algo02.AssembleIgnoredInOrder | src/algo02_polyphonoflex.rs:237-281 | every new live note yields one match or one ignored entry; ignored indices ascend within the new notes |
| Algo02.AssembleIgnored | src/algo02_polyphonoflex.rs:237-281 | a new live note is ignored exactly when no match was found for it |
| Algo02.AssembleMatched | src/algo02_polyphonoflex.rs:237-281 | a new live note is matched exactly when a match was found for it |
| Algo02.AssembleSplitsLive | src/algo02_polyphonoflex.rs:237-281 | the new live notes are split between matched and ignored |
| Algo02.Follower.MatchesSlice | src/algo02_polyphonoflex.rs:175-201 | the matches in the clamped range, each converted to a per-score match |
| Algo02.Follower.MatchScoreNote | src/algo02_polyphonoflex.rs:203-206 | a valid match's score note is the note at its bucket entry for its live note's pitch, and has that pitch |
| Algo02.Follower.LastPerPitchMatch | src/algo02_polyphonoflex.rs:210-212 | the last match, None exactly when there are none |
| Algo02.Follower.LastMatch | src/algo02_polyphonoflex.rs:214-219 | the last match converted to a per-score match |
| Algo02.Follower.NextUnmatchedOffset | src/algo02_polyphonoflex.rs:356-365 | 0 when the pitch has no match yet, else one past the last match of that pitch; never past the bucket |
| Algo02.Follower.LiveTimeMapped | src/algo02_polyphonoflex.rs:345-354 | 0 with no match; the live error exactly when the last match points past the live notes; otherwise the time since the last match's live note, mapped by the inverse factor |
| Algo02.Follower.GetStretchFactorAtNewMatch | src/algo02_polyphonoflex.rs:371-403 | 1 with no match; the live error exactly when the last match points past the live notes; otherwise `Ratio` of the signed elapsed score and elapsed live time since the last match, that is live over score |
| Algo02.Follower.NewMatchFor | src/algo02_polyphonoflex.rs:283-343 | a found match carries the live index and velocity and an unmatched bucket offset of the pitch, the velocity of that score note, and the stretch factor computed at that score note and live time |
| Algo02.Follower.NewMatchIsNearest | src/algo02_polyphonoflex.rs:294-327 | the chosen offset is where the closest-candidate scan stops, and its score note has the live note's pitch |
| Algo02.Follower.FindNewMatch | src/algo02_polyphonoflex.rs:283-343 | the loop returns exactly the specified match or none, and never fails on a valid follower |
| Algo02.Follower.GetMatchPitch | src/algo02_polyphonoflex.rs:367-369 | the pitch of the match's live note, failing exactly when it is out of range |
| Algo02.Follower.DecisionsProperties | src/algo02_polyphonoflex.rs:237-281 | the batch's matches are found at their own live notes, the new notes are split between matched and ignored, and every match is in range |
| Algo02.Follower.DecisionsRecordPitches | src/algo02_polyphonoflex.rs:269-275 | every recorded offset points at a new match whose live note has that pitch |
| Algo02.Follower.Apply | src/algo02_polyphonoflex.rs:160-169 | applying a batch appends its matches and keeps the score and the live notes |
| Algo02.Follower.ApplyKeepsValid | src/algo02_polyphonoflex.rs:160-169 | following the score keeps the follower's invariant |
| Algo02.Follower.FindNewMatches | src/algo02_polyphonoflex.rs:237-281 | the loop returns exactly the specified batch of the new live notes |
| Algo02.PolyphonoFlex.constructor | src/algo02_polyphonoflex.rs:119-130 | a follower starts with the pitch buckets of the score, no live notes or matches, and empty offsets per pitch, and satisfies its invariant |
| Algo02.PolyphonoFlex.PushLive | src/algo02_polyphonoflex.rs:171-173 | the note is appended to the live notes; everything else is unchanged and the invariant is kept |
| Algo02.PolyphonoFlex.FollowScore | src/algo02_polyphonoflex.rs:160-169 | the new batch's matches and ignored notes are appended, its offsets recorded per pitch; the result is Ok and the invariant is kept |
| Algo02.FindNewMatchesTheOnlyNote | src/algo02_polyphonoflex.rs:446-461 | the only live note yields one match with factor 1 and the offset of pitch 60 |
| Algo02.FollowTheOnlyNote | src/algo02_polyphonoflex.rs:463-474 | after following, the one match is recorded under pitch 60 and nothing is ignored |
| Algo02.MatchFirst | src/algo02_polyphonoflex.rs:476-487 | the first live note matches the first score note |
| Algo02.MatchSecond | src/algo02_polyphonoflex.rs:489-500 | the second live note matches pitch 62's first note with factor 50 ms live over 100 ms score (0.5) |
| Algo02.SkipExtraNoteIgnored | src/algo02_polyphonoflex.rs:502-514 | the extra live 61 has no score candidate and is the only ignored note of the first decision |
| Algo02.SkipExtraNote | src/algo02_polyphonoflex.rs:502-514 | live note 1 (pitch 61) is ignored; live note 2 matches pitch 62's first note |
| Algo02.SkipMissingNote | src/algo02_polyphonoflex.rs:516-527 | 64 matches its first score note with factor 50 ms live over 200 ms score (0.25) |
| Algo02.OnlyWrongNotes | src/algo02_polyphonoflex.rs:529-539 | live notes of pitches absent from the score are ignored and nothing matches |
| Algo02.DurationSub | src/algo02_polyphonoflex.rs:385-388 | Duration subtraction has no result exactly when the second time is later |
| Algo02.ElapsedScoreAsWritten | src/algo02_polyphonoflex.rs:385-388 | the score subtraction as written fails exactly when the new match is earlier in the score than the last one |
| Algo02.ReorderedNotesUnderflows | src/algo02_polyphonoflex.rs:328-342 | two notes played in the reverse of their score order: the second gets a match earlier in the score than the last one, and the subtraction as written fails on it |
| Playback.EncodeMidiEvent | src/playback.rs:49-73 | only MIDI events are encoded, on their own channel and with their own kind |
| Playback.EncodedVelocity | src/playback.rs:53-66 | a sounding note-on takes the live velocity and keeps its key; a silent one stays silent; other messages are unchanged |
| Playback.EncodeIdempotent | src/playback.rs:53-66 | encoding an encoded event again changes nothing |
| Playback.MomentEnd | src/playback.rs:20-44 | the end of the moment is the first later event after the run of events not later than the moment |
| Playback.EncodeAllStep | src/playback.rs:40-42 | one more event adds its encoding, if any, to the end of the buffer |
| Playback.EncodeAllCount | src/playback.rs:40-42 | the buffer holds one message per MIDI event played |
| Playback.PastMoments | src/playback.rs:10-47 | nothing is played before the head's time; otherwise the head moves past every event of the head's moment and stops at the first later one |
| Playback.PlayPastMoments | src/playback.rs:10-47 | the loop plays exactly the specified moment |
| Playback.Inverse | src/playback.rs:111 | the inverse of a factor swaps its elapsed times, and the inverse of 1 is 1 |
| Playback.PlayNext | src/playback.rs:75-126 | at the end it waits an hour; it fails on a match past the live or the score notes and on a clock earlier than the last match; otherwise it plays the moments due at the estimated score time and waits 1 s at the end, 10 ms when behind, or the stretched gap to the next event |
| Playback.PlayChord | src/playback.rs:10-47 | a chord and its silent note-on due now are played together with the live velocity, and the head moves past both |
| Abc.SimplifiedTime | src/abc.rs:28 | the simplified time is a whole number of milliseconds |
| Abc.SimplifiedTimeBounds | src/abc.rs:28 | rounding goes down by less than a millisecond unless the millisecond count wraps at 64 bits, and rounding twice is rounding once |
| Abc.SimplifyScore | src/abc.rs:19-38 | the same notes with their pitches, each time the whole-millisecond truncation of the original, and velocities 0 or 100 with silence kept |
| Abc.SimplifyScoreIdempotent | src/abc.rs:19-38 | simplifying twice is simplifying once |
| Abc.Decorate | src/abc.rs:51-60 | X ranks first, T second, K last and every other name in the middle |
| Abc.Cmp | src/abc.rs:73-77 | names compare equal exactly when they are the same; X is less than every other name, T less than all but X, every name other than K less than K, and the remaining names compare by character |
| Abc.CmpPlacesRequiredFields | src/abc.rs:73-77 | X sorts before every other name, T before all but X, K after all |
| Abc.CmpMiddleAlphabetical | src/abc.rs:73-77 | other names sort alphabetically |
| Abc.CmpTotalOrder | src/abc.rs:73-77 | the order is total: equal only for equal names, antisymmetric and transitive |
| Abc.OrderedInfoFieldNameSorting | src/abc.rs:143-174 | the order of each listed pair of names |
| Abc.SkipSpaces | src/abc.rs:82-83 | skips exactly the spaces and tabs at the position |
| Abc.LineEnd | src/abc.rs:86-92 | the position of the first newline from the start, or the end |
| Abc.InfoField | src/abc.rs:86-96 | a field is read exactly when the text starts with a letter and a colon and a newline follows; its name is the letter, its value runs from after the blanks to the newline and does not start with a blank, and the rest starts after the newline |
| Abc.InfoFieldReadsFieldLine | src/abc.rs:86-96 | reading a written header line gives back its name and value |
| Abc.Fields | src/abc.rs:99-100 | every field read has a letter for a name |
| Abc.FromFieldsLastWins | src/abc.rs:101 | a name is in the map exactly when some field has it, and its value is that of the last such field |
| Abc.HeaderMapDefaults | src/abc.rs:99-106 | the headers read, plus X, T and K with defaults 1, "test tune" and C where missing |
| Abc.HeaderMap | src/abc.rs:99-106 | the map always holds X, T and K, and every field read from the tune keeps its value |
| Abc.Headers | src/abc.rs:99-106 | the parser returns that map, which always holds X, T and K |
| Abc.FieldLine | src/abc.rs:121 | the line is the name, ": ", the value and a newline |
| Abc.HeaderLines | src/abc.rs:120-121 | the text is empty exactly when there are no keys, holds at least four characters per key, and otherwise starts with the first key and a colon and ends with a newline |
| Abc.HeaderLinesFirst | src/abc.rs:120-122 | the header text is one "name: value" line per key, in key order |
| Abc.AbcWithRequiredHeaders | src/abc.rs:118-123 | the text is the header lines in key order followed by the music |
| Abc.KeyOrderPlacesRequiredFields | src/abc.rs:118-123 | in the map's key order X comes first and K last |
| Abc.RequiredHeadersFirstAndLast | src/abc.rs:118-123 | the text starts with the X line and its header ends with the K line |
| Abc.HeadersOfTuneWithKey | src/abc.rs:99-106 | a tune with its own key keeps it, and X and T are given defaults |
| Abc.TestTuneHeaderMap | src/abc.rs:137-141 | a tune with no header fields gets exactly X 1, T "test tune" and K C |
| Abc.TestTuneHeaderLines | src/abc.rs:137-141 | a tune with no headers gets the X, T and K lines with their defaults |
| Abc.DefaultXLine | src/abc.rs:137-141 | the default X line reads "X: 1" |
| Abc.DefaultTLine | src/abc.rs:137-141 | the default T line reads "T: test tune" |
| Abc.DefaultKLine | src/abc.rs:137-141 | the default K line reads "K: C" |
| Abc.TestTuneText | src/abc.rs:137-141 | those lines spell "X: 1", "T: test tune" and "K: C" |
| Abc.AbcIntoScoreHeaders | src/abc.rs:137-141 | "CDE" becomes "X: 1\nT: test tune\nK: C\nCDE" before it is parsed |
| Device.DirectionName | src/device.rs:20-29 | "input" for input ports and "output" for output ports |
| Device.DecimalRoundTrip | src/device.rs:14 | the printed digits of a number read back as the number |
| Device.Display | src/device.rs:11-18 | a number prints as its decimal digits, which read back as the number and have no leading zero; a name part prints between double quotes |
| Device.Matches | src/device.rs:36-46 | the picked ports, each once, with its position and name, in port order, and no others |
| Device.MatchesCount | src/device.rs:41-57 | no port is picked exactly when none matches, and several exactly when two do |
| Device.FindPort | src/device.rs:31-65 | the "No MIDI … port" error when none is picked, the "Multiple MIDI … ports" error when several are, else the one picked port |
| Device.FindPortByNumber | src/device.rs:44 | a number picks the port at that position, or none when it is past the last port |
| Device.MockContainsOne | src/device.rs:108-130 | " one " is part of the first mock port's name only |
| Device.FindPortBySubstring | src/device.rs:155-161 | " one " picks the first mock port |
| Device.NoZeroMessage | src/device.rs:163-172 | the message for a missing output port names it in quotes |
| Device.FindPortBySubstringNotExists | src/device.rs:163-172 | " zero " picks no port and gives that message |
| Device.SeveralPortMessage | src/device.rs:174-183 | the message for several output ports names the selector in quotes |
| Device.FindPortBySubstringMultipleMatches | src/device.rs:174-183 | "port " picks both mock ports and gives that message |
| Device.FindPortByNumberZero | src/device.rs:185-191 | number 0 picks the first mock port |
| Device.FormatDeviceSelector | src/device.rs:131-141 | 42 prints as "42" and " foo " as "\" foo \"" |
| TestHelpers.IgnoreVel | src/test_helpers.rs:7-25 | the same notes with their times and pitches; velocity 0 stays 0 and every other velocity becomes 100 |
| TestHelpers.IgnoreVelIdempotent | src/test_helpers.rs:7-25 | applying it twice is applying it once |
| TestHelpers.IgnoreVelEqual | src/test_helpers.rs:7-25 | two scores look the same after it exactly when they agree on times, pitches and which notes are silent |
| TestHelpers.IgnoreVelAppend | src/test_helpers.rs:7-25 | it works note by note, so it distributes over concatenation |
| Score.SimplifiedVelocity | src/test_helpers.rs:18-22 | silence stays 0 and every other velocity becomes 100 |

## Left out

- Floating point: `get_stretch_factor`, `stretch` and the `1.0 / k` division are not modelled. A factor is a symbolic `Ratio` of two signed elapsed times. Applying a factor is a function parameter, `stretch` in `Playback.PlayNext` and `mapTime` in `Algo02`. `mapTime(d, k)` stands for `stretch(d, 1.0 / k)`.
- Lib.FollowScore: the estimate of the next score time (`src/lib.rs:112-116`) is not modelled, because its result is a float. Those lines also read `score[prev_match_score_index_]`, which is `score[0]` when nothing has matched, and `live[live.len() - 1]`, which panic on an empty score or an empty live performance; the model requires a non-empty score and live performance instead of modelling that panic.
- Algo02.Follower.GetStretchFactorAtNewMatch: it returns a signed ratio where the source panics. This is the corrected behaviour of the finding below. The source as written is modelled by `Algo02.ElapsedScoreAsWritten`.
- Playback.PlayNext: neither `t - t_prev` nor `ts_next - ts` can underflow. The source returns an error before the first and waits 10 ms before the second.
- Time differences are signed in the model. Where the source subtracts unsigned times and the result would be negative, the model keeps the negative difference instead of the source's failure. The members that do this are listed below, one per line.
- Lib.Followed: `src/lib.rs:100-101` subtracts `u32` times. When the new match is earlier than the previous one, this panics in a debug build and wraps modulo 2^32 in a release build. The model uses the signed difference.
- Lib.FollowedLastMatch: states the factor with the signed differences of `Lib.Followed`, so it does not capture that failure either.
- Lib.FollowScore: returns the outcome of `Lib.Followed`, with the same signed differences.
- Algo01.HomophonoPedantic.GetStretchFactorAtNewMatch: the `Duration` subtractions at `src/algo01_homophonopedantic.rs:264-265` panic when the new score or live time is earlier than the previous match's. The model uses the signed differences.
- Algo02.Follower.LiveTimeMapped: the `Duration` subtraction at `src/algo02_polyphonoflex.rs:348` panics when the live time is earlier than the last match's live time. The model maps the signed difference, and the factor function `mapTime` decides what a negative gap maps to.
- Algo02.Follower.GetStretchFactorAtNewMatch: the live subtraction at `src/algo02_polyphonoflex.rs:387` panics in the same way when the new live time is earlier than the last match's. The model uses the signed difference.
- Playback.PlayNext: the error message for a clock earlier than the last match is checked only as an error. The message text with the times and the match is not modelled.
- Algo02.PolyphonoFlex.FollowScore: the invariant `Valid` is required. It holds from the constructor on and is kept by every operation. So the errors that the source raises only for indices out of range never happen, and the model proves the result is `Ok`.
- The `unwrap` of the result of `find_new_match` inside `find_new_matches` is not modelled, because that result is never an error on a valid follower.
- Playback.EncodeMidiEvent: the bytes that `nodi` writes for an event are not modelled. A message is kept as its channel, key and velocity. The conversion error of `Event::try_from` is not modelled because it cannot happen for a MIDI event.
- The note and port logging (`println!`, `eprintln!`, `print_ports`) is left out because it is output only.
- The `notes!` macro is not part of this model. The tests' notes are written with `Score.Note` (velocity 100, as the HomophonoPedantic tests expect) and `Algo02.LoudNote` (velocity 127, as the PolyphonoFlex tests expect).
- `make_follower` in the PolyphonoFlex tests: it records the score-per-pitch index where `follow_score` records the match offset. The two are both 0 in every test. The model builds the state through the same recording as `follow_score`.
- Abc.AbcIntoScoreHeaders: the ABC tune parser, the conversion to MIDI and `smf_to_events` are external libraries. They are not part of this model, so `test_abc_into_score` is modelled up to the text handed to the parser.
- Abc.HeaderLines: the iteration order of the `BTreeMap` is given as a key sequence. `IsKeyOrder` requires it to be sorted by the info field order.
- Device.FindPort: the MIDI library's port list and names are parameters. The `unwrap` of `port_name` is not modelled. `open_midi_input` and `open_midi_output` are left out because they open the operating system's MIDI ports.
- Device.DirectionName: the `TypeId` comparison is replaced by a direction parameter.
- Algo01.NewMatchPerScore: the 7-bit conversion of velocities is stated only below 128. Above that the model keeps the low 7 bits.
- The programs under `src/bin`, the command line, and the time source are not part of this model.
- `src/lib.rs` and `src/score.rs` are older than the follower modules: their notes have `u32` times and no velocity. The model uses one note type with nanosecond times and a velocity for all of them.

## Findings

| source | as written | input that shows it | evidently intended | confidence | as-written member | corrected member |
|---|---|---|---|---|---|---|
| src/algo02_polyphonoflex.rs:385-388 | the elapsed score time is a `Duration` subtraction of the last match's score time from the new match's, which panics when the new match lies earlier in the score | score 60@1000 ms, 62@1100 ms, 64@1200 ms; live 62@5 ms followed, then 60@55 ms followed: 60 is matched with score index 0, earlier than the last match at index 1 | two notes played in the reverse of their score order give a negative (or clamped) elapsed time and a factor, not a panic | medium, not executed | Algo02.ReorderedNotesUnderflows | Algo02.Follower.GetStretchFactorAtNewMatch |
