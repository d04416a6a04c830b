/**
 * The playback cursor of src/playback.rs: the events of a playback score are
 * sent moment by moment, a moment being the run of events that share the
 * timestamp of the event at the head, and the wait until the next moment is
 * estimated from the last match of the score follower.
 */
module Playback {
  import opened Results
  import opened Score
  import Algo01

  type Channel = c: nat | c < 16

  type U14 = n: nat | n < 16384

  /** A channel message, as midly's `MidiMessage`. */
  datatype MidiMessage =
    | NoteOff(key: U7, vel: U7)
    | NoteOn(key: U7, vel: U7)
    | Aftertouch(key: U7, vel: U7)
    | Controller(controller: U7, value: U7)
    | ProgramChange(program: U7)
    | ChannelAftertouch(vel: U7)
    | PitchBend(bend: U14)

  /** The kind of a track event, as midly's `TrackEventKind`; the payloads of the non-MIDI kinds are not modelled. */
  datatype TrackEventKind = Midi(channel: Channel, message: MidiMessage) | SysEx | Escape | Meta

  /** A channel message ready to be sent: the message that is serialised into the output bytes. */
  datatype MidiEvent = MidiEvent(channel: Channel, message: MidiMessage)

  /** An event of the playback score at a score time. */
  datatype ScoreEvent = ScoreEvent(time: Time, message: TrackEventKind)

  /**
   * `encode_midi_event`: a MIDI event is sent on its own channel, a sounding
   * note-on gets the given velocity, and a note-on of velocity 0 and every other
   * channel message are sent unchanged; a non-MIDI event sends nothing.
   */
  function EncodeMidiEvent(event: ScoreEvent, velocity: Velocity): (r: Option<MidiEvent>)
    ensures r.None? <==> !event.message.Midi?
    ensures r.Some? ==> r.value.channel == event.message.channel
    ensures r.Some? ==> r.value.message.NoteOn? == event.message.message.NoteOn?
  {
    match event.message
    case Midi(channel, message) =>
      var rewritten := match message
        case NoteOn(key, vel) => if vel == 0 then message else NoteOn(key, velocity)
        case _ => message;
      Some(MidiEvent(channel, rewritten))
    case _ => None
  }

  /**
   * The velocity rule of the encoding: a note-on keeps its key and is silent
   * exactly when it was silent or the given velocity is 0; it otherwise sounds
   * at the given velocity; every other message is kept as it is.
   */
  lemma EncodedVelocity(event: ScoreEvent, velocity: Velocity)
    requires event.message.Midi?
    ensures var m := event.message.message;
      var r := EncodeMidiEvent(event, velocity).value.message;
      && (m.NoteOn? ==> r.key == m.key && (r.vel == 0 <==> m.vel == 0 || velocity == 0))
      && (m.NoteOn? && m.vel != 0 ==> r.vel == velocity)
      && (!m.NoteOn? ==> r == m)
  {
  }

  /** Encoding an already encoded event again with the same velocity changes nothing. */
  lemma EncodeIdempotent(event: ScoreEvent, velocity: Velocity)
    requires event.message.Midi?
    ensures var e := EncodeMidiEvent(event, velocity).value;
      EncodeMidiEvent(ScoreEvent(event.time, Midi(e.channel, e.message)), velocity) == Some(e)
  {
  }

  /**
   * The end of the moment that starts at `from`: the first index at or after
   * `from` whose event is later than `moment`, or the length of the score.
   */
  function MomentEnd(score: seq<ScoreEvent>, from: nat, moment: Time): (r: nat)
    requires from <= |score|
    ensures from <= r <= |score|
    ensures forall k :: from <= k < r ==> score[k].time <= moment
    ensures r < |score| ==> score[r].time > moment
    decreases |score| - from
  {
    if from == |score| || score[from].time > moment then from else MomentEnd(score, from + 1, moment)
  }

  /** The encodings of the MIDI events among `events`, in order. */
  function EncodeAll(events: seq<ScoreEvent>, velocity: Velocity): (r: seq<MidiEvent>)
    ensures |r| <= |events|
  {
    if events == [] then []
    else
      var init := EncodeAll(events[..|events| - 1], velocity);
      match EncodeMidiEvent(events[|events| - 1], velocity)
      case Some(e) => init + [e]
      case None => init
  }

  /** Encoding one more event appends its encoding, if it has one. */
  lemma EncodeAllStep(events: seq<ScoreEvent>, event: ScoreEvent, velocity: Velocity)
    ensures EncodeAll(events + [event], velocity)
      == EncodeAll(events, velocity) + (match EncodeMidiEvent(event, velocity) case Some(e) => [e] case None => [])
  {
    assert (events + [event])[..|events|] == events;
  }

  /** The number of MIDI events among `events`. */
  function MidiCount(events: seq<ScoreEvent>): nat
  {
    if events == [] then 0 else MidiCount(events[..|events| - 1]) + (if events[|events| - 1].message.Midi? then 1 else 0)
  }

  /** Exactly one message is sent per MIDI event. */
  lemma {:induction false} EncodeAllCount(events: seq<ScoreEvent>, velocity: Velocity)
    ensures |EncodeAll(events, velocity)| == MidiCount(events)
  {
    if events != [] {
      EncodeAllCount(events[..|events| - 1], velocity);
    }
  }

  /**
   * What `play_past_moments` sends and where it leaves the head: nothing, with
   * the head in place, while the head's event lies after the calculated
   * moment; otherwise every event that shares the head's timestamp, up to the
   * first later event, with at most one message per event.
   */
  function PastMoments(score: seq<ScoreEvent>, head: nat, scoreCalculatedMoment: Time, velocity: Velocity): (r: (seq<MidiEvent>, nat))
    requires head < |score|
    ensures score[head].time > scoreCalculatedMoment ==> r == ([], head)
    ensures score[head].time <= scoreCalculatedMoment ==>
      && head < r.1 <= |score|
      && (forall k :: head <= k < r.1 ==> score[k].time <= score[head].time)
      && (r.1 < |score| ==> score[r.1].time > score[head].time)
      && |r.0| <= r.1 - head
  {
    if score[head].time <= scoreCalculatedMoment then
      var newHead := MomentEnd(score, head, score[head].time);
      (EncodeAll(score[head..newHead], velocity), newHead)
    else ([], head)
  }

  /** `play_past_moments`, which advances the head over the events of the moment at the head. */
  method PlayPastMoments(score: seq<ScoreEvent>, head: nat, scoreCalculatedMoment: Time, velocity: Velocity)
    returns (buf: seq<MidiEvent>, newHead: nat)
    requires head < |score|
    ensures (buf, newHead) == PastMoments(score, head, scoreCalculatedMoment, velocity)
  {
    var momentToPlay := score[head].time;
    newHead := head;
    buf := [];
    if momentToPlay <= scoreCalculatedMoment {
      while true
        invariant head <= newHead <= MomentEnd(score, head, momentToPlay)
        invariant buf == EncodeAll(score[head..newHead], velocity)
        decreases |score| - newHead
      {
        if newHead >= |score| {
          break;
        }
        var scoreEvent := score[newHead];
        if scoreEvent.time > momentToPlay {
          break;
        }
        assert score[head..newHead + 1] == score[head..newHead] + [scoreEvent];
        EncodeAllStep(score[head..newHead], scoreEvent, velocity);
        var encoded := EncodeMidiEvent(scoreEvent, velocity);
        if encoded.Some? {
          buf := buf + [encoded.value];
        }
        newHead := newHead + 1;
      }
    }
  }

  /** The reciprocal of a stretch factor, the source's `1.0 / k`. */
  function Inverse(k: Stretch): (r: Stretch)
    ensures k.Unit? <==> r.Unit?
    ensures r.Ratio? ==> r.elapsedScore == k.elapsedLive && r.elapsedLive == k.elapsedScore
  {
    match k
    case Unit => Unit
    case Ratio(s, l) => Ratio(l, s)
  }

  const NoMoreEventsWait: Time := 3600 * NanosPerSec
  const EndWait: Time := NanosPerSec
  const BehindWait: Time := 10 * NanosPerMilli

  /**
   * `play_next`: plays the moments of the playback score that the estimated
   * score time has reached and says how long to wait for the next one. The
   * estimate is the score time of the last match plus the live time elapsed
   * since it, with the delay, stretched by the reciprocal of its factor;
   * `stretch` is the source's duration stretching.
   */
  method PlayNext(expectScore: seq<ScoreNote>, live: seq<ScoreNote>, playbackScore: seq<ScoreEvent>, head: nat,
                  matches: seq<Algo01.MatchPerScore>, t: Time, delay: Time, stretch: (Time, Stretch) -> Time)
    returns (r: Result<(seq<MidiEvent>, nat, Time), string>)
    requires head < |playbackScore| ==> |matches| > 0
    ensures head >= |playbackScore| ==> r == Ok(([], head, NoMoreEventsWait))
    ensures head < |playbackScore| ==>
      var prev := matches[|matches| - 1];
      && (prev.liveIndex >= |live| ==> r == Err("Match points beyond list of live events"))
      && (prev.liveIndex < |live| && prev.scoreIndex >= |expectScore| ==> r == Err("Match points beyond list of score events"))
      && (prev.liveIndex < |live| && prev.scoreIndex < |expectScore| ==>
            (r.Err? <==> t < live[prev.liveIndex].time))
    ensures head < |playbackScore| && r.Ok? ==>
      var prev := matches[|matches| - 1];
      var ts := expectScore[prev.scoreIndex].time + stretch(t - live[prev.liveIndex].time + delay, Inverse(prev.stretchFactor));
      var (buf, newHead, wait) := r.value;
      && (buf, newHead) == PastMoments(playbackScore, head, ts, prev.liveVelocity)
      && (newHead >= |playbackScore| ==> wait == EndWait)
      && (newHead < |playbackScore| && playbackScore[newHead].time < ts ==> wait == BehindWait)
      && (newHead < |playbackScore| && playbackScore[newHead].time >= ts ==>
            wait == stretch(playbackScore[newHead].time - ts, prev.stretchFactor))
  {
    if head >= |playbackScore| {
      return Ok(([], head, NoMoreEventsWait));
    }
    var prevMatch := matches[|matches| - 1];
    var tPrev := prevMatch.LiveTime(live);
    if tPrev.Err? {
      return Err(prevMatch.LiveNote(live).error);
    }
    var tsPrev := prevMatch.ScoreTime(expectScore);
    if tsPrev.Err? {
      return Err(prevMatch.ScoreNote(expectScore).error);
    }
    var k := prevMatch.stretchFactor;
    if t < tPrev.value {
      return Err("Current time is earlier than the time of the previous match");
    }
    var dt := t - tPrev.value;
    var dts := stretch(dt + delay, Inverse(k));
    var ts := tsPrev.value + dts;
    var buf, newHead := PlayPastMoments(playbackScore, head, ts, prevMatch.liveVelocity);
    var dtNext: Time;
    if newHead >= |playbackScore| {
      dtNext := EndWait;
    } else {
      var tsNext := playbackScore[newHead].time;
      if tsNext < ts {
        dtNext := BehindWait;
      } else {
        var dtsNext := tsNext - ts;
        dtNext := stretch(dtsNext, k);
      }
    }
    r := Ok((buf, newHead, dtNext));
  }

  /** A chord: the two notes at 0 ms are played together and the head stops at the note at 500 ms. */
  method PlayChord() returns (buf: seq<MidiEvent>, newHead: nat)
    ensures newHead == 2
    ensures buf == [MidiEvent(0, NoteOn(60, 90)), MidiEvent(0, NoteOn(64, 0))]
  {
    var score := [ScoreEvent(0, Midi(0, NoteOn(60, 80))), ScoreEvent(0, Midi(0, NoteOn(64, 0))),
                  ScoreEvent(500 * NanosPerMilli, Midi(0, NoteOn(67, 80)))];
    buf, newHead := PlayPastMoments(score, 0, 100 * NanosPerMilli, 90);
    assert MomentEnd(score, 2, 0) == 2;
    assert newHead == 2;
    EncodeAllStep([score[0]], score[1], 90);
    assert [score[0]] + [score[1]] == score[0..2];
    assert EncodeAll([score[0]], 90) == [MidiEvent(0, NoteOn(60, 90))] by {
      EncodeAllStep([], score[0], 90);
      assert [] + [score[0]] == [score[0]];
    }
    assert buf == [MidiEvent(0, NoteOn(60, 90)), MidiEvent(0, NoteOn(64, 0))];
  }
}
