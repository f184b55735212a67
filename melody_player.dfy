/**
 * The melody player of js/audio-player.js: a fixed score (melody and bass),
 * the beat-to-seconds and velocity-to-gain arithmetic that schedules each
 * note, the four-point gain envelope of a note, and the play/stop toggle
 * with its auto-stop timer.
 *
 * The audio graph is not modelled; what `play` hands to it is: a Voice per
 * note, with its oscillator start and stop times and its envelope
 * breakpoints. `audioContext.currentTime` is a parameter of Play.
 */
module MelodyPlayback {

  /** (pitch, start in beats, duration in beats, MIDI velocity) */
  datatype Note = Note(pitch: int, time: real, duration: real, velocity: int)

  const Melody: seq<Note> := [
    Note(60, 0.0, 0.5, 90), Note(64, 0.5, 0.5, 90), Note(67, 1.0, 0.5, 95), Note(69, 1.5, 0.5, 95),
    Note(67, 2.0, 1.0, 100), Note(64, 3.0, 0.5, 90), Note(67, 3.5, 0.5, 90), Note(72, 4.0, 1.5, 100),
    Note(69, 6.0, 0.5, 85), Note(67, 6.5, 0.5, 85), Note(64, 7.0, 0.5, 90), Note(60, 7.5, 0.5, 90),
    Note(64, 8.0, 2.0, 95), Note(67, 10.0, 0.5, 85), Note(69, 10.5, 0.5, 85), Note(72, 11.0, 2.0, 90)
  ]

  const Bass: seq<Note> := [
    Note(48, 0.0, 2.0, 70), Note(48, 2.0, 2.0, 70), Note(55, 4.0, 2.0, 70), Note(52, 6.0, 2.0, 70),
    Note(48, 8.0, 2.0, 70), Note(55, 10.0, 2.0, 70), Note(48, 12.0, 1.0, 70)
  ]

  const Tempo: real := 100.0
  /** Seconds per beat: 60 / 100. */
  const BeatDuration: real := 60.0 / Tempo
  /** The auto-stop timer fires 13 beats after play, in milliseconds. */
  const AutoStopBeats: real := 13.0
  const AutoStopDelayMs: real := AutoStopBeats * BeatDuration * 1000.0
  const AttackTime: real := 0.05
  const ReleaseTime: real := 0.1
  /** The bass is scheduled at 0.6 of the melody's gain. */
  const BassScale: real := 0.6

  // ----- the score -----

  /** Every note starts at or after beat 0, lasts at least half a beat and ends by the auto-stop beat. */
  ghost predicate ScoreFits(score: seq<Note>)
  {
    forall i :: 0 <= i < |score| ==>
      0.0 <= score[i].time && 0.5 <= score[i].duration && score[i].time + score[i].duration <= AutoStopBeats
  }

  ghost predicate StartsNondecreasing(score: seq<Note>)
  {
    forall i, j :: 0 <= i < j < |score| ==> score[i].time <= score[j].time
  }

  ghost predicate VelocitiesIn(score: seq<Note>, lo: int, hi: int)
  {
    forall i :: 0 <= i < |score| ==> lo <= score[i].velocity <= hi
  }

  /** Each note starts no earlier than the one before it. */
  predicate AdjacentInOrder(score: seq<Note>)
  {
    forall i :: 0 < i < |score| ==> score[i - 1].time <= score[i].time
  }

  /** Order of neighbours gives order of every pair. */
  lemma {:induction false} AdjacentOrderSuffices(score: seq<Note>)
    requires AdjacentInOrder(score)
    ensures StartsNondecreasing(score)
  {
    if |score| > 1 {
      var rest := score[..|score| - 1];
      assert AdjacentInOrder(rest);
      AdjacentOrderSuffices(rest);
      forall i, j | 0 <= i < j < |score|
        ensures score[i].time <= score[j].time
      {
        if j < |score| - 1 {
          assert rest[i] == score[i] && rest[j] == score[j];
        } else if i < j - 1 {
          assert rest[i] == score[i] && rest[j - 1] == score[j - 1];
        }
      }
    }
  }

  /** Both parts of the score fit in the 13 beats, are in start order and use velocities 70..100. */
  lemma ScoreShape()
    ensures ScoreFits(Melody) && ScoreFits(Bass)
    ensures StartsNondecreasing(Melody) && StartsNondecreasing(Bass)
    ensures VelocitiesIn(Melody, 70, 100) && VelocitiesIn(Bass, 70, 100)
  {
    MelodyShape();
    BassShape();
  }

  lemma MelodyShape()
    ensures ScoreFits(Melody) && StartsNondecreasing(Melody) && VelocitiesIn(Melody, 70, 100)
  {
    MelodyFits();
    MelodyInOrder();
  }

  lemma MelodyFits()
    ensures ScoreFits(Melody) && VelocitiesIn(Melody, 70, 100)
  {
  }

  lemma MelodyInOrder()
    ensures StartsNondecreasing(Melody)
  {
    assert AdjacentInOrder(Melody);
    AdjacentOrderSuffices(Melody);
  }

  lemma BassShape()
    ensures ScoreFits(Bass) && StartsNondecreasing(Bass) && VelocitiesIn(Bass, 70, 100)
  {
    assert AdjacentInOrder(Bass);
    AdjacentOrderSuffices(Bass);
  }

  // ----- one note (playNote) -----

  /** A gain automation point: setValueAtTime / linearRampToValueAtTime(value, time). */
  datatype Breakpoint = Breakpoint(time: real, value: real)

  /** What playNote schedules: an oscillator from `start` to `stop` with a gain envelope. */
  datatype Voice = Voice(pitch: int, start: real, stop: real, envelope: seq<Breakpoint>)

  ghost predicate TimesIncreasing(env: seq<Breakpoint>)
  {
    forall i, j :: 0 <= i < j < |env| ==> env[i].time < env[j].time
  }

  function PlayNote(pitch: int, startTime: real, duration: real, velocity: real): (v: Voice)
    ensures v.pitch == pitch && v.start == startTime && v.stop - v.start == duration
    ensures |v.envelope| == 4
    ensures v.envelope[0] == Breakpoint(v.start, 0.0) && v.envelope[3] == Breakpoint(v.stop, 0.0)
    ensures v.envelope[1] == Breakpoint(startTime + AttackTime, velocity * 0.3)
    ensures v.envelope[2] == Breakpoint(startTime + duration - ReleaseTime, velocity * 0.25)
    ensures duration > AttackTime + ReleaseTime ==> TimesIncreasing(v.envelope)
  {
    var now := startTime;
    Voice(pitch, now, now + duration, [
      Breakpoint(now, 0.0),
      Breakpoint(now + AttackTime, velocity * 0.3),
      Breakpoint(now + duration - ReleaseTime, velocity * 0.25),
      Breakpoint(now + duration, 0.0)
    ])
  }

  // ----- scheduling arithmetic (play) -----

  /** The gain argument: velocity / 127, and 0.6 of that for the bass. */
  function NoteGain(note: Note, bass: bool): (g: real)
    ensures 0 < note.velocity < 127 ==> 0.0 < g < 1.0
    ensures bass ==> g == BassScale * (note.velocity as real / 127.0)
    ensures !bass ==> g == note.velocity as real / 127.0
  {
    if bass then note.velocity as real / 127.0 * BassScale else note.velocity as real / 127.0
  }

  /** A note's beats become seconds at 100 beats per minute, 0.6 s per beat, offset by the start time. */
  function Schedule(note: Note, startTime: real, bass: bool): (v: Voice)
    ensures v.pitch == note.pitch
    ensures v.start == startTime + note.time * 0.6 && v.stop - v.start == note.duration * 0.6
    ensures |v.envelope| == 4 && v.envelope[1].value == NoteGain(note, bass) * 0.3
  {
    PlayNote(note.pitch, startTime + note.time * BeatDuration, note.duration * BeatDuration, NoteGain(note, bass))
  }

  function ScheduleAll(score: seq<Note>, startTime: real, bass: bool): (vs: seq<Voice>)
    ensures |vs| == |score|
  {
    seq(|score|, i requires 0 <= i < |score| => Schedule(score[i], startTime, bass))
  }

  /** A scheduled note sounds within [startTime, startTime + 13 beats] with an ordered envelope. */
  lemma ScheduledWithinAutoStop(note: Note, startTime: real, bass: bool)
    requires 0.0 <= note.time && 0.5 <= note.duration && note.time + note.duration <= AutoStopBeats
    ensures var v := Schedule(note, startTime, bass);
      && startTime <= v.start && v.stop <= startTime + AutoStopDelayMs / 1000.0
      && TimesIncreasing(v.envelope)
  {
    assert note.duration * BeatDuration >= 0.3;
  }

  /** Ordering and the auto-stop bound carry over from a score to its voices. */
  lemma ScheduleAllProperties(score: seq<Note>, startTime: real, bass: bool)
    ensures var vs := ScheduleAll(score, startTime, bass);
      ScoreFits(score) ==> forall i :: 0 <= i < |vs| ==>
        startTime <= vs[i].start && vs[i].stop <= startTime + AutoStopDelayMs / 1000.0
        && TimesIncreasing(vs[i].envelope)
    ensures var vs := ScheduleAll(score, startTime, bass);
      StartsNondecreasing(score) ==> forall i, j :: 0 <= i < j < |vs| ==> vs[i].start <= vs[j].start
  {
    var vs := ScheduleAll(score, startTime, bass);
    if ScoreFits(score) {
      forall i | 0 <= i < |vs|
        ensures startTime <= vs[i].start && vs[i].stop <= startTime + AutoStopDelayMs / 1000.0
        ensures TimesIncreasing(vs[i].envelope)
      {
        ScheduledWithinAutoStop(score[i], startTime, bass);
      }
    }
    if StartsNondecreasing(score) {
      forall i, j | 0 <= i < j < |vs|
        ensures vs[i].start <= vs[j].start
      {
        assert vs[i].start == startTime + score[i].time * BeatDuration;
        assert vs[j].start == startTime + score[j].time * BeatDuration;
      }
    }
  }

  /** The forEach loop of play over one part of the score. */
  method ScheduleNotes(score: seq<Note>, startTime: real, bass: bool) returns (voices: seq<Voice>)
    ensures voices == ScheduleAll(score, startTime, bass)
    ensures ScoreFits(score) ==> forall i :: 0 <= i < |voices| ==>
      startTime <= voices[i].start && voices[i].stop <= startTime + AutoStopDelayMs / 1000.0
      && TimesIncreasing(voices[i].envelope)
    ensures StartsNondecreasing(score) ==>
      forall i, j :: 0 <= i < j < |voices| ==> voices[i].start <= voices[j].start
  {
    voices := [];
    for k := 0 to |score|
      invariant |voices| == k
      invariant forall i :: 0 <= i < k ==> voices[i] == Schedule(score[i], startTime, bass)
    {
      var note := score[k];
      voices := voices + [PlayNote(note.pitch, startTime + note.time * BeatDuration,
                                   note.duration * BeatDuration, NoteGain(note, bass))];
    }
    ScheduleAllProperties(score, startTime, bass);
  }

  /** Every scheduled gain of the score lies strictly between 0 and 1. */
  lemma ScoreGainsInUnitInterval()
    ensures forall i :: 0 <= i < |Melody| ==> 0.0 < NoteGain(Melody[i], false) < 1.0
    ensures forall i :: 0 <= i < |Bass| ==> 0.0 < NoteGain(Bass[i], true) < 1.0
  {
    ScoreShape();
  }

  // ----- the player's state -----

  /** Display of the play icon, display of the pause icon, the button's aria-label. */
  datatype ButtonView = ButtonView(playIconDisplay: string, pauseIconDisplay: string, ariaLabel: string)

  /** updateButtonState: exactly one icon shown, the label naming what a click will do. */
  function ViewFor(isPlaying: bool): (v: ButtonView)
    ensures {v.playIconDisplay, v.pauseIconDisplay} == {"block", "none"}
    ensures v.pauseIconDisplay == "block" <==> isPlaying
    ensures v.ariaLabel == "Pause music" <==> isPlaying
    ensures v.ariaLabel == "Play music" <==> !isPlaying
  {
    if isPlaying then ButtonView("none", "block", "Pause music")
    else ButtonView("block", "none", "Play music")
  }

  /**
   * hasContext: an AudioContext was created; autoStopPending: currentTimeout
   * holds a timer; scheduled: every Voice handed to the audio context so far.
   */
  datatype PlayerState = PlayerState(hasContext: bool, isPlaying: bool, autoStopPending: bool,
                                     view: ButtonView, scheduled: seq<Voice>)

  /** A player whose timer is pending exactly while it plays. */
  predicate Consistent(s: PlayerState)
  {
    s.isPlaying == s.autoStopPending
  }

  function Stopped(s: PlayerState): (t: PlayerState)
    ensures !t.isPlaying && !t.autoStopPending && t.view == ViewFor(false)
    ensures t.hasContext == s.hasContext && t.scheduled == s.scheduled
  {
    s.(isPlaying := false, autoStopPending := false, view := ViewFor(false))
  }

  function Played(s: PlayerState, now: real): (t: PlayerState)
    ensures t.hasContext && t.isPlaying && t.autoStopPending && t.view == ViewFor(true)
    ensures t.scheduled == s.scheduled + ScheduleAll(Melody, now, false) + ScheduleAll(Bass, now, true)
  {
    PlayerState(true, true, true, ViewFor(true),
                s.scheduled + ScheduleAll(Melody, now, false) + ScheduleAll(Bass, now, true))
  }

  /** A click flips playing, leaves the timer pending exactly while playing and never unschedules a voice. */
  function Clicked(s: PlayerState, now: real): (t: PlayerState)
    ensures t.isPlaying == !s.isPlaying
    ensures Consistent(t) && t.view == ViewFor(t.isPlaying)
    ensures |s.scheduled| <= |t.scheduled| && t.scheduled[..|s.scheduled|] == s.scheduled
  {
    if s.isPlaying then Stopped(s) else Played(s, now)
  }

  /** Stopping twice is stopping once. */
  lemma StopIdempotent(s: PlayerState)
    ensures Stopped(Stopped(s)) == Stopped(s)
  {
  }

  /** Two clicks on a stopped player play the score once and stop again, keeping what was scheduled. */
  lemma ClickTwiceStops(s: PlayerState, first: real, second: real)
    requires !s.isPlaying
    ensures var t := Clicked(Clicked(s, first), second);
      && t == Stopped(Played(s, first))
      && t.hasContext && !t.isPlaying && !t.autoStopPending && t.view == ViewFor(false)
      && t.scheduled == s.scheduled + ScheduleAll(Melody, first, false) + ScheduleAll(Bass, first, true)
  {
  }

  /** Every voice one play schedules has ended by the time its auto-stop timer fires. */
  lemma PlayEndsBeforeAutoStop(s: PlayerState, now: real)
    ensures var added := Played(s, now).scheduled[|s.scheduled|..];
      forall i :: 0 <= i < |added| ==>
        now <= added[i].start && added[i].stop <= now + AutoStopDelayMs / 1000.0
  {
    ScoreShape();
    var m, b := ScheduleAll(Melody, now, false), ScheduleAll(Bass, now, true);
    var added := Played(s, now).scheduled[|s.scheduled|..];
    assert added == m + b;
    forall i | 0 <= i < |added|
      ensures now <= added[i].start && added[i].stop <= now + AutoStopDelayMs / 1000.0
    {
      if i < |m| {
        ScheduledWithinAutoStop(Melody[i], now, false);
      } else {
        ScheduledWithinAutoStop(Bass[i - |m|], now, true);
      }
    }
  }

  class MelodyPlayer {
    var hasContext: bool
    var isPlaying: bool
    var autoStopPending: bool
    var view: ButtonView
    var scheduled: seq<Voice>

    function State(): PlayerState
      reads this
    {
      PlayerState(hasContext, isPlaying, autoStopPending, view, scheduled)
    }

    /** No context, not playing, no timer; the button shows whatever the page markup shows. */
    constructor (markup: ButtonView)
      ensures State() == PlayerState(false, false, false, markup, [])
    {
      hasContext := false;
      isPlaying := false;
      autoStopPending := false;
      view := markup;
      scheduled := [];
    }

    method UpdateButtonState()
      modifies this
      ensures State() == old(State()).(view := ViewFor(isPlaying))
    {
      if isPlaying {
        view := ButtonView("none", "block", "Pause music");
      } else {
        view := ButtonView("block", "none", "Play music");
      }
    }

    /** play, from the point where the audio context is running; `now` is its currentTime. */
    method Play(now: real)
      modifies this
      ensures State() == Played(old(State()), now)
    {
      if !hasContext {
        hasContext := true;
      }
      isPlaying := true;
      UpdateButtonState();
      var melodyVoices := ScheduleNotes(Melody, now, false);
      var bassVoices := ScheduleNotes(Bass, now, true);
      scheduled := scheduled + melodyVoices + bassVoices;
      autoStopPending := true;
    }

    method Stop()
      modifies this
      ensures State() == Stopped(old(State()))
    {
      isPlaying := false;
      UpdateButtonState();
      if autoStopPending {
        autoStopPending := false;
      }
    }

    /** The button's click listener. */
    method Click(now: real)
      modifies this
      ensures State() == Clicked(old(State()), now)
    {
      if isPlaying {
        Stop();
      } else {
        Play(now);
      }
    }

    /** The auto-stop timer fires 13 beats after play. */
    method FireAutoStop()
      requires autoStopPending
      modifies this
      ensures State() == Stopped(old(State()))
    {
      Stop();
    }
  }
}
