# Frasier piano: note-playback engine

This project models the playback engine of the piano prototype page
(`app/prototypes/frasier-piano/page.tsx`) and proves properties of it. The
page draws a one-octave keyboard. A press on a key plays one recorded sample,
pitch-shifted to that key's note by changing its playback rate.

The model has four parts in five modules:

- `PitchTable` (`pitch_table.dfy`). The twelve notes C … B are a datatype.
  The tuning table holds each note's frequency as an exact decimal `real`.
  Each note's pitch ratio is its frequency divided by the C4 base frequency,
  261.63 Hz. The module also holds the two key rows, white and black.
- `SampleLoader` (`sample_loader.dfy`). Loading the sample never fails. The
  fetch-and-decode result is an input (`FetchOutcome`). Loading gives the
  decoded buffer when the response is OK (status 200–299) and the body
  decodes. In every other case it gives the fallback: a one-channel buffer of
  `sampleRate * 1.0` frames. `SynthesizeFallback` models the loop that fills
  that fallback channel.
- `VoiceScheduler` (`voice_scheduler.dfy`). A voice is a record of the calls
  that play one note: the playback-rate call, the four gain-envelope calls,
  and the start and stop times. A voice lasts the buffer's duration divided by
  the note's ratio.
- `KeyInput` (`key_input.dfy`) and the class `FrasierPiano.Piano`
  (`piano.dfy`). The class holds the component's state as fields: the audio
  context, the sample buffer, the set of held keys, a log of the voices
  scheduled so far, and whether the one-shot click listener is attached. Its
  methods model the click that creates the context, the end of the load, the
  note player, and the press and release handlers. Ghost fields record the
  key history and count how many contexts and loads were created. The class
  invariant says there is at most one of each.

Two facts about the code shape the model:

- The code does not clamp the fade-out start (page.tsx:113-114). A voice
  shorter than 10 ms gets its envelope out of order, and
  `EnvelopeOrderedIffLongEnough` states exactly when that happens.
  `ShortBufferEnvelopeInverted` shows such a voice for a one-frame buffer.
  `LongBufferEnvelopeOrdered` shows that any buffer of at least 20 ms is safe
  for every note, because no ratio reaches 2. When the fade-out start falls
  before time 0, the set call on line 113 throws a `RangeError`. The source
  node is then never started, and the note makes no sound. `ScheduleVoice`
  returns `ThrowsRangeError` in that case, and `Piano.PlayNote` keeps no
  voice. `OneFrameAtClockStartThrows` gives an input where this happens.
- Every press event plays the note, even for a key already held
  (page.tsx:121-124). Only the held set ignores the duplicate.

External inputs are method parameters:
- `now` is the audio clock's `currentTime`, which is never negative.
- `rate` is the platform's sample rate, used when the audio context is created.
- `outcome` is the result of fetching and decoding the sample.
- `sin` and `exp` stand for `Math.sin` and `Math.exp`.

## Model

| member | source | states |
|---|---|---|
| PitchTable.Semitone | app/prototypes/frasier-piano/page.tsx:8-21 | each note has a position below 12 in the table's listed order, and the table lists that note at that position |
| PitchTable.Frequency | app/prototypes/frasier-piano/page.tsx:8-21 | every table frequency lies in the octave from the base frequency up to, not including, twice it |
| PitchTable.PitchRatio | app/prototypes/frasier-piano/page.tsx:24-29 | a note's ratio is positive and, times the base frequency, gives the note's table frequency; the ratio is 1 exactly for C |
| PitchTable.ChromaticListsEveryNoteOnce | app/prototypes/frasier-piano/page.tsx:8-21 | the table has twelve keys, lists every note, and lists none twice |
| PitchTable.FrequenciesIncrease | app/prototypes/frasier-piano/page.tsx:8-21 | table frequencies strictly increase along the listed order C, C#, …, B |
| PitchTable.RatioOfBaseNote | app/prototypes/frasier-piano/page.tsx:7-9 | C's frequency is the base frequency, so C's ratio is exactly 1 |
| PitchTable.RatioOrderMatchesSemitones | app/prototypes/frasier-piano/page.tsx:8-29 | one note's ratio is below another's if and only if it lies lower in the table |
| PitchTable.RatioBounds | app/prototypes/frasier-piano/page.tsx:8-29 | every ratio lies between 1 and B's ratio, which is below 2 |
| PitchTable.KeyboardPartitionsTable | app/prototypes/frasier-piano/page.tsx:31-32 | the white and black rows together hold 12 keys, include every note, repeat none, and share none |
| PitchTable.KeyRowsAscend | app/prototypes/frasier-piano/page.tsx:31-32 | each key row is listed in strictly ascending pitch |
| SampleLoader.Duration | app/prototypes/frasier-piano/page.tsx:110 | a buffer's duration is non-negative and, times its sample rate, gives its frame count |
| SampleLoader.FallbackBuffer | app/prototypes/frasier-piano/page.tsx:72-75 | the fallback has one channel, runs at the context's rate, holds that many frames, and lasts 1 second |
| SampleLoader.Load | app/prototypes/frasier-piano/page.tsx:57-86 | loading always gives a buffer: the decoded one when the fetch succeeded with an OK status and the body decoded, the fallback in every other case |
| SampleLoader.FailedLoadIsOneSecondMono | app/prototypes/frasier-piano/page.tsx:68-85 | after any failure the loaded buffer is mono and lasts 1 second |
| SampleLoader.SynthesizeFallback | app/prototypes/frasier-piano/page.tsx:72-84 | returns the fallback buffer's shape and a new channel of its length, where frame i is sin(2π·261.63·t)·exp(−3t)·0.3 at t = i / sampleRate |
| SampleLoader.ToneSample | app/prototypes/frasier-piano/page.tsx:79-81 | when the sine lies in [−1, 1] and the exponential of a non-positive number in (0, 1], every frame of the synthesized tone lies in [−0.3, 0.3] |
| VoiceScheduler.VoiceDuration | app/prototypes/frasier-piano/page.tsx:110 | the voice duration times the ratio gives back the sample's duration, and it is non-negative for a non-negative sample |
| VoiceScheduler.ScheduleVoice | app/prototypes/frasier-piano/page.tsx:92-118 | a press makes a voice exactly when the fade-out start is not before time 0, and otherwise throws; the voice plays the given buffer, sets the playback rate to the note's ratio at `now`, starts at `now`, has stop − start times the ratio equal to the buffer's duration, and schedules no call at a negative time; its gain calls are described by `EnvelopeShape` |
| VoiceScheduler.EnvelopeShape | app/prototypes/frasier-piano/page.tsx:106-114 | when a voice plays, its gain calls are, in order: set 0 at start, ramp to 5 at start + 5 ms, set 5 at stop − 5 ms, ramp to 0 at stop |
| VoiceScheduler.EnvelopeOrderedIffLongEnough | app/prototypes/frasier-piano/page.tsx:106-114 | when a voice plays, its envelope times are non-decreasing if and only if it lasts at least 10 ms (no clamp) |
| VoiceScheduler.HigherNoteIsShorter | app/prototypes/frasier-piano/page.tsx:98-118 | for the same non-empty buffer and start, a note higher in the table lasts strictly less; if it plays, the lower note plays too and stops strictly later |
| VoiceScheduler.DurationShrinksWithRatio | app/prototypes/frasier-piano/page.tsx:110 | for a positive sample duration, a larger ratio gives a strictly shorter voice |
| VoiceScheduler.LongBufferEnvelopeOrdered | app/prototypes/frasier-piano/page.tsx:106-114 | a buffer of at least 20 ms gives every note a voice, never a throw, with its envelope in time order |
| VoiceScheduler.FallbackVoice | app/prototypes/frasier-piano/page.tsx:72-75 | with the 1-second fallback, every note plays, its voice lasts 1 / ratio seconds, and its envelope is in time order |
| VoiceScheduler.ShortBufferEnvelopeInverted | app/prototypes/frasier-piano/page.tsx:113-114 | a one-frame buffer at any rate above 100 Hz, played as C from 5 ms on, gives a voice whose envelope times go backwards |
| VoiceScheduler.OneFrameAtClockStartThrows | app/prototypes/frasier-piano/page.tsx:113 | a one-frame buffer at 44100 Hz played as C at time 0 throws instead of scheduling a voice |
| KeyInput.Step | app/prototypes/frasier-piano/page.tsx:121-132 | after a press the note is held and after a release it is not; every other note's membership is unchanged |
| KeyInput.HeldAfter | app/prototypes/frasier-piano/page.tsx:121-132 | a key held after a history was pressed at some point in it |
| KeyInput.Presses | app/prototypes/frasier-piano/page.tsx:123 | there are no more play calls than events, and a note is played if and only if the history holds a press of it |
| KeyInput.PressesCountsEveryPress | app/prototypes/frasier-piano/page.tsx:121-124 | one play call per press: each note is played exactly as many times as it is pressed, a press of a held key included |
| KeyInput.HeldIffUnmatchedPress | app/prototypes/frasier-piano/page.tsx:121-132 | after any history, a key is held if and only if some press of it has no later press or release of it |
| KeyInput.PressHeldKeyIsNoOp | app/prototypes/frasier-piano/page.tsx:122 | pressing an already held key leaves the held set unchanged |
| KeyInput.ReleaseFreeKeyIsNoOp | app/prototypes/frasier-piano/page.tsx:126-131 | releasing a key that is not held leaves the held set unchanged |
| FrasierPiano.Piano.constructor | app/prototypes/frasier-piano/page.tsx:35-37 | at mount there is no context, no buffer, no held key and no voice, and the click listener is attached |
| FrasierPiano.Piano.Click | app/prototypes/frasier-piano/page.tsx:39-54 | the first click creates the context at the given rate, starts the one load, and re-attaches the listener; later clicks change neither context nor load and leave no listener; at most one context and one load ever exist |
| FrasierPiano.Piano.LoadFinished | app/prototypes/frasier-piano/page.tsx:46-48 | when the started load completes, the buffer becomes the loader's result for that outcome and the pending load ends |
| FrasierPiano.Piano.PlayNote | app/prototypes/frasier-piano/page.tsx:88-119 | with no context, no buffer, or a fade-out start before time 0, no voice is kept; otherwise exactly the note's voice is appended and earlier voices are unchanged |
| FrasierPiano.Piano.Press | app/prototypes/frasier-piano/page.tsx:121-124 | the note joins the held set, exactly one play call is recorded, and the voice log grows exactly as PlayNote promises |
| FrasierPiano.Piano.Release | app/prototypes/frasier-piano/page.tsx:126-132 | the note leaves the held set, and the voices and play calls are unchanged |
| FrasierPiano.Piano.IsPressed | app/prototypes/frasier-piano/page.tsx:149 | a key is drawn as pressed if and only if it has a press not followed by a release |
| FrasierPiano.PlaysWithoutNetwork | app/prototypes/frasier-piano/page.tsx:39-124 | with the network down, a press of E while the load is pending, then a press and release of A after it fails, leave a voice log holding exactly the fallback's voice for A |

## Left out

- Fetching, reading and decoding the recording (`fetch`, `arrayBuffer`, `decodeAudioData`) are network and codec I/O. Their result is the `FetchOutcome` parameter.
- `Math.sin` and `Math.exp` are transcendental. `SynthesizeFallback` takes them as function parameters. The rounding of stored frames to 32-bit floats is not modelled.
- Floating-point arithmetic: all frequencies, ratios and times are exact reals, so the float rounding of ratios and durations is not modelled.
- The Web Audio node graph is an external subsystem and is not modelled. That covers `createBufferSource`, `createGain`, `connect` and `destination`, and the real-time rendering of the automation ramps. Voices are recorded as data instead. How a renderer handles an out-of-order envelope is not modelled either.
- `currentTime` is read several times in one call of `playNote`. The model reads it once, as `now`: it assumes the clock does not advance between the reads.
- React plumbing is not modelled: `useState`, `useCallback`, re-rendering and JSX. State updates become field assignments. The effect's re-run after the context changes is folded into `Piano.Click`. So is its cleanup, which removes the listener. Unmounting the component is not modelled.
- The `console.error` logging on a failed load is a side effect with no influence on the result.
- Notes are datatype constructors, not strings. A name outside the table would give an undefined ratio (line 98), and `setValueAtTime` would throw a `TypeError` on it (line 99). Such a name cannot occur in the model, so that error is not modelled.
- The context's sample rate is taken to be a whole number of hertz (`SampleRate` is an integer type). With a fractional rate, `createBuffer` would truncate `sampleRate * 1.0`, the fallback would last less than 1 s, and the fill loop on line 78 would run one frame past the buffer's end. None of that is modelled.
- When the fade-out call throws, the calls issued before it on lines 92-107 (creating the nodes, setting the playback rate and the first two gain calls) act on nodes that are never started. Their effect on those nodes is not modelled; no voice is recorded.
- `createBuffer` rejects sample rates out of range. This is not modelled: the context's own rate is always accepted.
- The CSS positioning of the black keys and the rest of the page layout are presentational.
- `app/page.tsx` (the gallery of links) and `app/prototypes/confetti-button/page.tsx` (one call into a confetti library) are not part of this model.
