/**
  The piano's pitch table: the twelve chromatic note names of one octave
  starting at middle C, the frequency each is tuned to, the playback-rate
  ratio each is played at relative to C, and the split of the keyboard into
  white and black keys.
*/
module PitchTable {

  /** The twelve keys of the table; `CSharp` is the key written "C#". */
  datatype Note = C | CSharp | D | DSharp | E | F | FSharp | G | GSharp | A | ASharp | B

  /** Frequency of C4 in Hz, the pitch at which the sample is played unshifted. */
  const BaseFrequency: real := 261.63

  /**
    The tuning table: equal-tempered frequencies in Hz, rounded to two
    decimals, all within the octave that starts at the base frequency.
  */
  function Frequency(n: Note): (f: real)
    ensures BaseFrequency <= f < 2.0 * BaseFrequency
  {
    match n
    case C => 261.63
    case CSharp => 277.18
    case D => 293.66
    case DSharp => 311.13
    case E => 329.63
    case F => 349.23
    case FSharp => 369.99
    case G => 392.00
    case GSharp => 415.30
    case A => 440.00
    case ASharp => 466.16
    case B => 493.88
  }

  /** The keys of the tuning table in the order they are listed, ascending in pitch. */
  const Chromatic: seq<Note> := [C, CSharp, D, DSharp, E, F, FSharp, G, GSharp, A, ASharp, B]

  /** Position of a note in the table, counted in semitones above C. */
  function Semitone(n: Note): (k: nat)
    ensures k < |Chromatic| && Chromatic[k] == n
  {
    match n
    case C => 0
    case CSharp => 1
    case D => 2
    case DSharp => 3
    case E => 4
    case F => 5
    case FSharp => 6
    case G => 7
    case GSharp => 8
    case A => 9
    case ASharp => 10
    case B => 11
  }

  /** Playback-rate ratio of a note: its frequency divided by the base frequency. */
  function PitchRatio(n: Note): (r: real)
    ensures r > 0.0
    ensures r * BaseFrequency == Frequency(n)
    ensures r == 1.0 <==> n == C
  {
    Frequency(n) / BaseFrequency
  }

  /** The white keys, left to right. */
  const WhiteKeys: seq<Note> := [C, D, E, F, G, A, B]

  /** The black keys, left to right. */
  const BlackKeys: seq<Note> := [CSharp, DSharp, FSharp, GSharp, ASharp]

  /** Every note of the datatype appears in the table exactly once. */
  lemma ChromaticListsEveryNoteOnce()
    ensures |Chromatic| == 12
    ensures forall n: Note :: n in Chromatic
    ensures forall i, j :: 0 <= i < j < |Chromatic| ==> Chromatic[i] != Chromatic[j]
  {
    forall n: Note
      ensures n in Chromatic
    {
      assert Chromatic[Semitone(n)] == n;
    }
    forall i, j | 0 <= i < j < |Chromatic|
      ensures Chromatic[i] != Chromatic[j]
    {
      assert Semitone(Chromatic[i]) == i && Semitone(Chromatic[j]) == j;
    }
  }

  /** The table's frequencies strictly increase along its listed order. */
  lemma {:induction false} FrequenciesIncrease(i: nat, j: nat)
    requires i < j < |Chromatic|
    ensures Frequency(Chromatic[i]) < Frequency(Chromatic[j])
    decreases j - i
  {
    if j == i + 1 {
      assert Frequency(Chromatic[i]) < Frequency(Chromatic[i + 1]);
    } else {
      FrequenciesIncrease(i, j - 1);
      FrequenciesIncrease(j - 1, j);
    }
  }

  /** The reference note C has ratio exactly 1, because its frequency is the base frequency. */
  lemma RatioOfBaseNote()
    ensures Frequency(C) == BaseFrequency
    ensures PitchRatio(C) == 1.0
  {
  }

  /**
    A note sounds higher than another exactly when it lies further up the
    table: ratios strictly increase along C, C#, D, ..., B.
  */
  lemma RatioOrderMatchesSemitones(a: Note, b: Note)
    ensures PitchRatio(a) < PitchRatio(b) <==> Semitone(a) < Semitone(b)
  {
    var i, j := Semitone(a), Semitone(b);
    if i < j {
      FrequenciesIncrease(i, j);
    } else if j < i {
      FrequenciesIncrease(j, i);
    }
  }

  /** Every ratio lies between 1 (for C) and the ratio of B, which is below 2. */
  lemma RatioBounds(n: Note)
    ensures 1.0 <= PitchRatio(n) <= PitchRatio(B) < 2.0
  {
    RatioOrderMatchesSemitones(C, n);
    RatioOrderMatchesSemitones(n, B);
  }

  /**
    The white and black keys partition the table: together they list every
    key of the table, each exactly once, so no key is both white and black.
  */
  lemma KeyboardPartitionsTable()
    ensures |WhiteKeys + BlackKeys| == |Chromatic|
    ensures forall n: Note :: n in WhiteKeys + BlackKeys
    ensures forall i, j :: 0 <= i < j < |WhiteKeys + BlackKeys| ==> (WhiteKeys + BlackKeys)[i] != (WhiteKeys + BlackKeys)[j]
    ensures forall n: Note :: n in WhiteKeys <==> n !in BlackKeys
  {
    var keys := WhiteKeys + BlackKeys;
    assert keys == [C, D, E, F, G, A, B, CSharp, DSharp, FSharp, GSharp, ASharp];
    forall n: Note
      ensures n in keys && (n in WhiteKeys <==> n !in BlackKeys)
    {
      match n
      case C => case D => case E => case F => case G => case A => case B =>
      case CSharp => case DSharp => case FSharp => case GSharp => case ASharp =>
    }
    forall i, j | 0 <= i < j < |keys|
      ensures keys[i] != keys[j]
    {
      assert Semitone(keys[i]) != Semitone(keys[j]);
    }
  }

  /** Both key rows are listed in ascending pitch. */
  lemma KeyRowsAscend()
    ensures forall i, j :: 0 <= i < j < |WhiteKeys| ==> PitchRatio(WhiteKeys[i]) < PitchRatio(WhiteKeys[j])
    ensures forall i, j :: 0 <= i < j < |BlackKeys| ==> PitchRatio(BlackKeys[i]) < PitchRatio(BlackKeys[j])
  {
    forall i, j | 0 <= i < j < |WhiteKeys|
      ensures PitchRatio(WhiteKeys[i]) < PitchRatio(WhiteKeys[j])
    {
      RatioOrderMatchesSemitones(WhiteKeys[i], WhiteKeys[j]);
    }
    forall i, j | 0 <= i < j < |BlackKeys|
      ensures PitchRatio(BlackKeys[i]) < PitchRatio(BlackKeys[j])
    {
      RatioOrderMatchesSemitones(BlackKeys[i], BlackKeys[j]);
    }
  }
}
