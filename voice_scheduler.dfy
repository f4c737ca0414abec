/**
  One playback voice per key press: the sample is played at the note's pitch
  ratio, which also shortens it by that ratio, under a four-point gain
  envelope with 5 ms fades, and it is scheduled to stop when the shifted
  sample ends. A voice is recorded as the automation calls it issues.
*/
module VoiceScheduler {

  import opened PitchTable
  import opened SampleLoader

  /** Length in seconds of the fade-in and of the fade-out. */
  const FadeTime: real := 0.005

  /** The gain held between the two fades. */
  const FullGain: real := 5.0

  /** One scheduled automation call on an audio parameter. */
  datatype Automation =
    | SetValueAtTime(value: real, time: real)
    | LinearRampToValueAtTime(value: real, time: real)

  /**
    A scheduled voice: the buffer it plays, the playback-rate call, the gain
    calls in the order they were issued, and its start and stop times.
  */
  datatype Voice = Voice(buffer: SampleBuffer, playbackRate: Automation, gain: seq<Automation>, start: real, stop: real)

  /** Playing a sample faster by `ratio` makes it last `ratio` times shorter. */
  function VoiceDuration(sampleDuration: real, ratio: real): (d: real)
    requires ratio > 0.0
    ensures d * ratio == sampleDuration
    ensures sampleDuration >= 0.0 ==> d >= 0.0
  {
    sampleDuration / ratio
  }

  /**
    What one call of the note player does once the context and the sample
    exist: it schedules a voice, or the fade-out call is given a negative
    time and throws a `RangeError`, so the voice is never started.
  */
  datatype Playback = Plays(voice: Voice) | ThrowsRangeError

  /**
    The playback a key press makes for `note` at audio-clock time `now`. The
    voice starts at `now`, plays the given buffer at the note's ratio, and
    stops once the sample, shortened by that ratio, has played. It exists
    exactly when the fade-out start is not before time 0; then no call is
    scheduled at a negative time.
  */
  function ScheduleVoice(buffer: SampleBuffer, note: Note, now: real): (p: Playback)
    requires now >= 0.0
    ensures p.Plays? <==> now + VoiceDuration(Duration(buffer), PitchRatio(note)) >= FadeTime
    ensures p.Plays? ==>
      && p.voice.buffer == buffer
      && p.voice.playbackRate == SetValueAtTime(PitchRatio(note), now)
      && p.voice.start == now
      && (p.voice.stop - p.voice.start) * PitchRatio(note) == Duration(buffer)
      && forall i :: 0 <= i < |p.voice.gain| ==> p.voice.gain[i].time >= 0.0
  {
    var ratio := PitchRatio(note);
    var duration := VoiceDuration(Duration(buffer), ratio);
    if now + duration - FadeTime < 0.0 then
      ThrowsRangeError
    else
      Plays(Voice(
        buffer,
        SetValueAtTime(ratio, now),
        [ SetValueAtTime(0.0, now),
          LinearRampToValueAtTime(FullGain, now + FadeTime),
          SetValueAtTime(FullGain, now + duration - FadeTime),
          LinearRampToValueAtTime(0.0, now + duration) ],
        now,
        now + duration))
  }

  /** The times of a list of automation calls never go backwards. */
  predicate TimesNondecreasing(events: seq<Automation>)
  {
    forall i, j :: 0 <= i < j < |events| ==> events[i].time <= events[j].time
  }

  /**
    The gain envelope is 0 at the start, ramps to 5 over 5 ms, is held at 5
    from 5 ms before the stop, and ramps back to 0 at the stop.
  */
  lemma EnvelopeShape(buffer: SampleBuffer, note: Note, now: real)
    requires now >= 0.0
    ensures
      var p := ScheduleVoice(buffer, note, now);
      p.Plays? ==>
      var v := p.voice;
      && |v.gain| == 4
      && v.gain[0] == SetValueAtTime(0.0, v.start)
      && v.gain[1] == LinearRampToValueAtTime(FullGain, v.start + FadeTime)
      && v.gain[2] == SetValueAtTime(FullGain, v.stop - FadeTime)
      && v.gain[3] == LinearRampToValueAtTime(0.0, v.stop)
  {
  }

  /**
    The envelope's times are in order exactly when the voice lasts at least
    the two fades together; shorter voices are not clamped.
  */
  lemma EnvelopeOrderedIffLongEnough(buffer: SampleBuffer, note: Note, now: real)
    requires now >= 0.0
    ensures
      var p := ScheduleVoice(buffer, note, now);
      p.Plays? ==> (TimesNondecreasing(p.voice.gain) <==> p.voice.stop - p.voice.start >= 2.0 * FadeTime)
  {
    var p := ScheduleVoice(buffer, note, now);
    if p.ThrowsRangeError? {
      return;
    }
    var v := p.voice;
    if v.stop - v.start >= 2.0 * FadeTime {
      assert forall i :: 0 <= i < 3 ==> v.gain[i].time <= v.gain[i + 1].time;
    } else {
      assert v.gain[1].time > v.gain[2].time;
    }
  }

  /**
    From the same non-empty buffer, a higher note lasts strictly less time;
    so whenever the higher note plays, the lower one plays too and stops
    later.
  */
  lemma HigherNoteIsShorter(buffer: SampleBuffer, low: Note, high: Note, now: real)
    requires Duration(buffer) > 0.0 && now >= 0.0
    requires Semitone(low) < Semitone(high)
    ensures VoiceDuration(Duration(buffer), PitchRatio(high)) < VoiceDuration(Duration(buffer), PitchRatio(low))
    ensures ScheduleVoice(buffer, high, now).Plays? ==>
      && ScheduleVoice(buffer, low, now).Plays?
      && ScheduleVoice(buffer, high, now).voice.stop < ScheduleVoice(buffer, low, now).voice.stop
  {
    RatioOrderMatchesSemitones(low, high);
    DurationShrinksWithRatio(Duration(buffer), PitchRatio(low), PitchRatio(high));
  }

  /** For a positive length, a larger ratio gives a strictly shorter duration. */
  lemma DurationShrinksWithRatio(d: real, r1: real, r2: real)
    requires d > 0.0 && 0.0 < r1 < r2
    ensures VoiceDuration(d, r2) < VoiceDuration(d, r1)
  {
    var q1, q2 := VoiceDuration(d, r1), VoiceDuration(d, r2);
    PositiveFactor(q2, r2);
    ProductGrows(q2, r1, r2);
    assert (q1 - q2) * r1 == q1 * r1 - q2 * r1;
    PositiveFactor(q1 - q2, r1);
  }

  /** A product that is positive, with a positive second factor, has a positive first factor. */
  lemma PositiveFactor(x: real, y: real)
    requires y > 0.0 && x * y > 0.0
    ensures x > 0.0
  {
  }

  /** A positive number times a larger factor gives a larger product. */
  lemma ProductGrows(x: real, a: real, b: real)
    requires x > 0.0 && a < b
    ensures x * a < x * b
  {
  }

  /**
    Any buffer of at least 20 ms gives every note a voice with its envelope
    in order, since no ratio reaches 2.
  */
  lemma LongBufferEnvelopeOrdered(buffer: SampleBuffer, note: Note, now: real)
    requires Duration(buffer) >= 4.0 * FadeTime && now >= 0.0
    ensures ScheduleVoice(buffer, note, now).Plays?
    ensures TimesNondecreasing(ScheduleVoice(buffer, note, now).voice.gain)
  {
    RatioBounds(note);
    var r := PitchRatio(note);
    var d := VoiceDuration(Duration(buffer), r);
    ProductGrows(d, r, 2.0);
    assert d >= 2.0 * FadeTime;
    EnvelopeOrderedIffLongEnough(buffer, note, now);
  }

  /**
    The synthesized one-second tone gives every note a voice lasting the
    reciprocal of its ratio, with its envelope in order.
  */
  lemma FallbackVoice(ctx: AudioContext, note: Note, now: real)
    requires now >= 0.0
    ensures
      var p := ScheduleVoice(FallbackBuffer(ctx), note, now);
      && p.Plays?
      && (p.voice.stop - p.voice.start) * PitchRatio(note) == 1.0
      && TimesNondecreasing(p.voice.gain)
  {
    LongBufferEnvelopeOrdered(FallbackBuffer(ctx), note, now);
  }

  /**
    A one-frame buffer at any rate above 100 Hz is shorter than the two
    fades: C, ratio 1, played from 5 ms on gets a voice whose envelope times
    go backwards.
  */
  lemma ShortBufferEnvelopeInverted(ctx: AudioContext, now: real)
    requires ctx.sampleRate > 100 && now >= FadeTime
    ensures
      var p := ScheduleVoice(SampleBuffer(1, 1, ctx.sampleRate), C, now);
      p.Plays? && !TimesNondecreasing(p.voice.gain)
  {
    var b := SampleBuffer(1, 1, ctx.sampleRate);
    var d := Duration(b);
    RatioOfBaseNote();
    PositiveFactor(d, ctx.sampleRate as real);
    ProductGrows(d, 100.0, ctx.sampleRate as real);
    EnvelopeOrderedIffLongEnough(b, C, now);
  }

  /**
    At audio-clock time 0 a one-frame buffer at 44100 Hz puts C's fade-out
    start before time 0, so the call throws and nothing plays.
  */
  lemma OneFrameAtClockStartThrows()
    ensures ScheduleVoice(SampleBuffer(1, 1, 44100), C, 0.0) == ThrowsRangeError
  {
    RatioOfBaseNote();
  }
}
