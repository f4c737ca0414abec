/**
  The piano component's state and event handlers: the audio context and
  sample buffer created once on the first click, the set of keys drawn as
  held, and the voices scheduled so far, one for each press made while the
  sample was available.
*/
module FrasierPiano {

  import opened PitchTable
  import opened SampleLoader
  import opened VoiceScheduler
  import opened KeyInput

  datatype Option<T> = None | Some(value: T)

  class Piano {
    /** The audio context; absent until the first click. */
    var context: Option<AudioContext>
    /** The loaded sample; absent until loading has finished. */
    var buffer: Option<SampleBuffer>
    /** The keys drawn as held. */
    var pressed: set<Note>
    /** Every voice scheduled so far, in the order the presses came. */
    var voices: seq<Voice>
    /** Whether a one-shot click listener that may create the context is attached. */
    var listening: bool

    /** Whether the sample has been requested and has not arrived yet. */
    ghost var loading: bool
    /** How many audio contexts have been created. */
    ghost var contextsCreated: nat
    /** How many sample loads have been started. */
    ghost var loadsStarted: nat
    /** Every press and release so far. */
    ghost var history: seq<KeyEvent>
    /** The note of every call to play a note so far. */
    ghost var triggers: seq<Note>

    ghost predicate Valid()
      reads this
    {
      // the context, and with it the sample load, is created at most once
      && contextsCreated <= 1
      && loadsStarted == contextsCreated
      && (context.Some? <==> contextsCreated == 1)
      // before the first click the listener is attached and nothing is loaded
      && (context.None? ==> listening && !loading)
      // after the context exists, the buffer is there exactly when loading is over
      && (buffer.Some? <==> context.Some? && !loading)
      // the held set and the triggers follow the key history
      && pressed == HeldAfter(history)
      && triggers == Presses(history)
      // all voices play the one loaded sample
      && (buffer.None? ==> voices == [])
      && (buffer.Some? ==> forall i :: 0 <= i < |voices| ==> voices[i].buffer == buffer.value)
    }

    /** The component as first mounted: the click listener attached, nothing else. */
    constructor ()
      ensures Valid()
      ensures context == None && buffer == None && listening && !loading
      ensures pressed == {} && voices == [] && history == [] && triggers == []
    {
      context, buffer, pressed, voices, listening := None, None, {}, [], true;
      loading, contextsCreated, loadsStarted, history, triggers := false, 0, 0, [], [];
    }

    /**
      A click on the page. The one-shot listener, if attached, detaches; if
      no context exists yet it creates one at the platform's `rate` and
      starts loading the sample, and because the context changed the
      listener is attached once more, now seeing the context, so that the
      next click only detaches it.
    */
    method Click(rate: SampleRate)
      requires Valid()
      modifies this`context, this`listening, this`loading, this`contextsCreated, this`loadsStarted
      ensures Valid()
      ensures old(context).None? ==> context == Some(AudioContext(rate)) && loading && listening
      ensures old(context).Some? ==> context == old(context) && loading == old(loading) && !listening
      ensures contextsCreated <= 1 && loadsStarted <= 1
    {
      if listening {
        listening := false;
        if context.None? {
          context := Some(AudioContext(rate));
          contextsCreated := contextsCreated + 1;
          loading := true;
          loadsStarted := loadsStarted + 1;
          listening := true;
        }
      }
    }

    /** The started load completes with `outcome`; the result is kept for the session. */
    method LoadFinished(outcome: FetchOutcome)
      requires Valid() && loading
      modifies this`buffer, this`loading
      ensures Valid() && !loading
      ensures buffer == Some(Load(old(context).value, outcome))
    {
      buffer := Some(Load(context.value, outcome));
      loading := false;
    }

    /**
      Plays `note` at audio-clock time `now`: nothing unless both the
      context and the sample exist; otherwise the calls are issued in the
      source's order, and the voice is kept unless the fade-out call throws
      on a negative time, which ends the call before the voice is started.
      The voices already scheduled stay as they are.
    */
    method PlayNote(note: Note, now: real)
      requires Valid() && now >= 0.0
      modifies this`voices
      ensures Valid()
      ensures context.Some? && buffer.Some? && ScheduleVoice(buffer.value, note, now).Plays? ==>
        voices == old(voices) + [ScheduleVoice(buffer.value, note, now).voice]
      ensures context.None? || buffer.None? || ScheduleVoice(buffer.value, note, now).ThrowsRangeError? ==>
        voices == old(voices)
    {
      if context.None? || buffer.None? {
        return;
      }
      var sample := buffer.value;
      var ratio := PitchRatio(note);
      var rate := SetValueAtTime(ratio, now);
      var gain: seq<Automation> := [];
      gain := gain + [SetValueAtTime(0.0, now)];
      gain := gain + [LinearRampToValueAtTime(FullGain, now + FadeTime)];
      var duration := VoiceDuration(Duration(sample), ratio);
      if now + duration - FadeTime < 0.0 {
        // the fade-out's set call rejects the negative time with a RangeError
        return;
      }
      gain := gain + [SetValueAtTime(FullGain, now + duration - FadeTime)];
      gain := gain + [LinearRampToValueAtTime(0.0, now + duration)];
      var voice := Voice(sample, rate, gain, now, now + duration);
      assert Plays(voice) == ScheduleVoice(sample, note, now);
      voices := voices + [voice];
    }

    /**
      A key goes down: it is drawn as held and its note is played once. The
      held-set update is queued before the note is played, so it takes
      effect even when playing throws.
    */
    method Press(note: Note, now: real)
      requires Valid() && now >= 0.0
      modifies this`pressed, this`history, this`triggers, this`voices
      ensures Valid()
      ensures pressed == old(pressed) + {note}
      ensures history == old(history) + [Down(note)]
      ensures triggers == old(triggers) + [note]
      ensures context.Some? && buffer.Some? && ScheduleVoice(buffer.value, note, now).Plays? ==>
        voices == old(voices) + [ScheduleVoice(buffer.value, note, now).voice]
      ensures context.None? || buffer.None? || ScheduleVoice(buffer.value, note, now).ThrowsRangeError? ==>
        voices == old(voices)
    {
      AppendEvent(history, Down(note));
      pressed := pressed + {note};
      history := history + [Down(note)];
      triggers := triggers + [note];
      PlayNote(note, now);
    }

    /** A key comes up or the pointer leaves it: it is no longer drawn as held, and no sound changes. */
    method Release(note: Note)
      requires Valid()
      modifies this`pressed, this`history
      ensures Valid()
      ensures pressed == old(pressed) - {note}
      ensures history == old(history) + [Up(note)]
      ensures voices == old(voices) && triggers == old(triggers)
    {
      AppendEvent(history, Up(note));
      pressed := pressed - {note};
      history := history + [Up(note)];
    }

    /** Whether a key is drawn as held: exactly when it was pressed and not released since. */
    predicate IsPressed(note: Note)
      reads this
      requires Valid()
      ensures IsPressed(note) <==> UnmatchedPress(history, note)
    {
      HeldIffUnmatchedPress(history, note);
      note in pressed
    }
  }

  /**
    A session without network access: a press while the sample is loading
    plays nothing; once the fetch has failed, a press of A plays the
    synthesized tone at A's ratio (whose timing and envelope `FallbackVoice`
    describes), and releasing A leaves that voice as it was. The result is
    the session's whole voice log.
  */
  method PlaysWithoutNetwork(rate: SampleRate, t1: real, t2: real) returns (vs: seq<Voice>)
    requires t1 >= 0.0 && t2 >= 0.0
    ensures ScheduleVoice(FallbackBuffer(AudioContext(rate)), A, t2).Plays?
    ensures vs == [ScheduleVoice(FallbackBuffer(AudioContext(rate)), A, t2).voice]
  {
    FallbackVoice(AudioContext(rate), A, t2);
    var piano := new Piano();
    piano.Click(rate);
    piano.Press(E, t1);
    piano.LoadFinished(NetworkFailed);
    piano.Press(A, t2);
    piano.Release(A);
    vs := piano.voices;
  }
}
