/**
  The set of keys shown as held down. A press adds its note and a release
  (button up, pointer leaving the key, touch end) removes it; the set only
  drives how the keys are drawn and has no effect on sound already playing.
*/
module KeyInput {

  import opened PitchTable

  /** A press or a release of one key. */
  datatype KeyEvent = Down(note: Note) | Up(note: Note)

  /** The held set after one event: only the event's own note can change. */
  function Step(held: set<Note>, e: KeyEvent): (h: set<Note>)
    ensures e.note in h <==> e.Down?
    ensures forall n :: n != e.note ==> (n in h <==> n in held)
  {
    match e
    case Down(n) => held + {n}
    case Up(n) => held - {n}
  }

  /** The held set after a history of events, starting from no key held. */
  function HeldAfter(events: seq<KeyEvent>): (h: set<Note>)
    ensures forall n :: n in h ==> Down(n) in events
  {
    if events == [] then {} else Step(HeldAfter(events[..|events| - 1]), events[|events| - 1])
  }

  /** The notes of the presses in a history, in order: one trigger for each. */
  function Presses(events: seq<KeyEvent>): (ns: seq<Note>)
    ensures |ns| <= |events|
    ensures forall n :: n in ns <==> Down(n) in events
  {
    if events == [] then []
    else
      var last := events[|events| - 1];
      Presses(events[..|events| - 1]) + (if last.Down? then [last.note] else [])
  }

  /** Appending one event to a history takes one step of the held set and of the presses. */
  lemma AppendEvent(events: seq<KeyEvent>, e: KeyEvent)
    ensures HeldAfter(events + [e]) == Step(HeldAfter(events), e)
    ensures Presses(events + [e]) == Presses(events) + (if e.Down? then [e.note] else [])
  {
    assert (events + [e])[..|events|] == events;
  }

  /** Every press is one play call: a note is played as many times as it was pressed, held or not. */
  lemma {:induction false} PressesCountsEveryPress(events: seq<KeyEvent>, n: Note)
    ensures multiset(Presses(events))[n] == multiset(events)[Down(n)]
  {
    if events != [] {
      var k := |events| - 1;
      PressesCountsEveryPress(events[..k], n);
      assert events == events[..k] + [events[k]];
    }
  }

  /** Some press of `n` in the history has no later press or release of `n`. */
  ghost predicate UnmatchedPress(events: seq<KeyEvent>, n: Note)
  {
    exists i :: 0 <= i < |events| && events[i] == Down(n) && NoLaterEventFor(events, i, n)
  }

  /** No event after position `i` concerns note `n`. */
  ghost predicate NoLaterEventFor(events: seq<KeyEvent>, i: nat, n: Note)
  {
    forall j :: i < j < |events| ==> events[j].note != n
  }

  /** A key is shown held exactly when it has a press not yet followed by a release. */
  lemma {:induction false} HeldIffUnmatchedPress(events: seq<KeyEvent>, n: Note)
    ensures n in HeldAfter(events) <==> UnmatchedPress(events, n)
  {
    if events != [] {
      var k := |events| - 1;
      HeldIffUnmatchedPress(events[..k], n);
      if events[k].note == n {
        LastEventDecides(events, n);
      } else {
        OtherLastEventKeeps(events, n);
      }
    }
  }

  /** When the last event concerns `n`, it alone decides whether `n` has an unmatched press. */
  lemma LastEventDecides(events: seq<KeyEvent>, n: Note)
    requires events != [] && events[|events| - 1].note == n
    ensures UnmatchedPress(events, n) <==> events[|events| - 1].Down?
  {
    var k := |events| - 1;
    if events[k].Down? {
      assert NoLaterEventFor(events, k, n);
    } else {
      forall i | 0 <= i < |events| && events[i] == Down(n)
        ensures !NoLaterEventFor(events, i, n)
      {
        assert events[k].note == n;
      }
    }
  }

  /** When the last event concerns another note, it does not change whether `n` has an unmatched press. */
  lemma OtherLastEventKeeps(events: seq<KeyEvent>, n: Note)
    requires events != [] && events[|events| - 1].note != n
    ensures UnmatchedPress(events, n) <==> UnmatchedPress(events[..|events| - 1], n)
  {
    var k := |events| - 1;
    var prefix := events[..k];
    if UnmatchedPress(prefix, n) {
      var i :| 0 <= i < |prefix| && prefix[i] == Down(n) && NoLaterEventFor(prefix, i, n);
      assert events[i] == Down(n) && NoLaterEventFor(events, i, n);
    }
    if UnmatchedPress(events, n) {
      var i :| 0 <= i < |events| && events[i] == Down(n) && NoLaterEventFor(events, i, n);
      assert i < k;
      assert prefix[i] == Down(n) && NoLaterEventFor(prefix, i, n);
    }
  }

  /** Pressing a key that is already held leaves the held set as it is. */
  lemma PressHeldKeyIsNoOp(held: set<Note>, n: Note)
    requires n in held
    ensures Step(held, Down(n)) == held
  {
  }

  /** Releasing a key that is not held leaves the held set as it is. */
  lemma ReleaseFreeKeyIsNoOp(held: set<Note>, n: Note)
    requires n !in held
    ensures Step(held, Up(n)) == held
  {
  }
}
