/**
 * The chord progression of the ambient pad: four chords played in a cycle,
 * each one retuning the three oscillators of the voice bank.
 */
module Chords {
  import opened Host
  import opened Ambient

  /** A triad, as the frequencies in Hz of its root, third and fifth. */
  datatype Chord = Chord(root: real, third: real, fifth: real)

  /** The progression: A minor, G sus2, F major, A sus4. */
  const CHORDS: seq<Chord> := [
    Chord(220.0, 261.63, 329.63),
    Chord(196.0, 246.94, 311.13),
    Chord(174.61, 220.0, 293.66),
    Chord(207.65, 261.63, 311.13)]

  /** The time constant, in seconds, of every frequency glide. */
  const GLIDE: real := 1.6

  /** The chord a retune with counter `index` plays: the counter is taken modulo the progression's length. */
  function ChordAt(index: nat): (c: Chord)
    ensures c in CHORDS
  {
    CHORDS[index % |CHORDS|]
  }

  /**
   * The frequency oscillator `voice` is sent to: the root, the third and the
   * fifth for the first three voices, and the root for any later voice.
   */
  function Target(c: Chord, voice: nat): (f: real)
    ensures voice >= 3 ==> f == c.root
    ensures f in {c.root, c.third, c.fifth}
  {
    var targets := [c.root, c.third, c.fifth];
    if voice < |targets| then targets[voice] else c.root
  }

  /**
   * The two commands that glide one oscillator to a frequency: drop its
   * pending ramps, then set the new target. They touch only that
   * oscillator's frequency and build nothing.
   */
  function Glide(osc: Node, frequency: real): (es: seq<Effect>)
    ensures |es| == 2
    ensures forall i :: 0 <= i < |es| ==>
      && !BuildsGraph(es[i])
      && (es[i].CancelRamps? || es[i].SetTarget?)
      && es[i].param == FrequencyOf(osc)
  {
    [CancelRamps(FrequencyOf(osc)), SetTarget(FrequencyOf(osc), frequency, GLIDE)]
  }

  /** The commands that retune `oscillators`, in order, to chord `c`. */
  function Retune(oscillators: seq<Node>, c: Chord): (es: seq<Effect>)
    ensures |es| == 2 * |oscillators|
  {
    if oscillators == [] then []
    else
      var last := |oscillators| - 1;
      Retune(oscillators[..last], c) + Glide(oscillators[last], Target(c, last))
  }

  /** The commands setChord(index) issues. */
  function ChordCommands(oscillators: seq<Node>, index: nat): seq<Effect> {
    Retune(oscillators, ChordAt(index))
  }

  /**
   * Oscillator j's two commands sit at positions 2j and 2j+1: first its
   * pending frequency ramps are cancelled, then its frequency is set to glide
   * towards voice j's note of the chord.
   */
  lemma {:induction false} RetuneAt(oscillators: seq<Node>, c: Chord, j: nat)
    requires j < |oscillators|
    ensures Retune(oscillators, c)[2 * j] == CancelRamps(FrequencyOf(oscillators[j]))
    ensures Retune(oscillators, c)[2 * j + 1] == SetTarget(FrequencyOf(oscillators[j]), Target(c, j), GLIDE)
    decreases |oscillators|
  {
    var last := |oscillators| - 1;
    var prefix := oscillators[..last];
    if j < last {
      RetuneAt(prefix, c, j);
      assert prefix[j] == oscillators[j];
    }
  }

  /** A retune only touches frequency ramps: it never builds or starts a node. */
  lemma RetuneIsInert(oscillators: seq<Node>, c: Chord)
    ensures forall i :: 0 <= i < |Retune(oscillators, c)| ==> Retune(oscillators, c)[i].CancelRamps? || Retune(oscillators, c)[i].SetTarget?
    ensures forall g :: Run(g, Retune(oscillators, c)) == g
  {
    var es := Retune(oscillators, c);
    forall i | 0 <= i < |es|
      ensures es[i].CancelRamps? || es[i].SetTarget?
    {
      RetuneAt(oscillators, c, i / 2);
    }
    forall g
      ensures Run(g, es) == g
    {
      RunInert(g, es);
    }
  }

  /** setChord(index) on the voice bank sends oscillators 0, 1, 2 to the root, third and fifth of chord `index` mod 4. */
  lemma VoiceBankChord(index: nat)
    ensures var es := ChordCommands(VOICE_OSCILLATORS, index);
      var c := CHORDS[index % 4];
      && |es| == 6
      && es[1] == SetTarget(FrequencyOf(Osc(0)), c.root, GLIDE)
      && es[3] == SetTarget(FrequencyOf(Osc(1)), c.third, GLIDE)
      && es[5] == SetTarget(FrequencyOf(Osc(2)), c.fifth, GLIDE)
  {
    RetuneAt(VOICE_OSCILLATORS, ChordAt(index), 0);
    RetuneAt(VOICE_OSCILLATORS, ChordAt(index), 1);
    RetuneAt(VOICE_OSCILLATORS, ChordAt(index), 2);
  }

  /**
   * setChord: for each oscillator in order, cancel its pending frequency
   * ramps and glide it to its note of chord `index`.
   */
  method SetChord(oscillators: seq<Node>, index: nat) returns (effects: seq<Effect>)
    ensures effects == ChordCommands(oscillators, index)
  {
    var chord := CHORDS[index % |CHORDS|];
    var freqTargets := [chord.root, chord.third, chord.fifth];
    effects := [];
    for idx := 0 to |oscillators|
      invariant effects == Retune(oscillators[..idx], chord)
    {
      var osc := oscillators[idx];
      var target := if idx < |freqTargets| then freqTargets[idx] else chord.root;
      effects := effects + [CancelRamps(FrequencyOf(osc))];
      effects := effects + [SetTarget(FrequencyOf(osc), target, GLIDE)];
      assert oscillators[..idx + 1][..idx] == oscillators[..idx];
    }
    assert oscillators[..|oscillators|] == oscillators;
  }

  // ---------------------------------------------------------------------------
  // The interval's counter
  // ---------------------------------------------------------------------------

  /** How the interval advances its counter after each retune. */
  function NextIndex(index: nat): (n: nat)
    ensures n < |CHORDS|
  {
    (index + 1) % |CHORDS|
  }

  /** The counter after `ticks` interval callbacks: it starts at 1, since chord 0 is played at start. */
  function CounterAfter(ticks: nat): (n: nat)
    ensures n < |CHORDS|
  {
    if ticks == 0 then 1 else NextIndex(CounterAfter(ticks - 1))
  }

  /**
   * The counter never leaves 0..3, and callback number `ticks` + 1 plays
   * chord (`ticks` + 1) mod 4: with chord 0 at start, the n-th chord played
   * is chord n mod 4, so the progression cycles through all four in order.
   */
  lemma {:induction false} CounterCycles(ticks: nat)
    ensures CounterAfter(ticks) == (ticks + 1) % |CHORDS|
    ensures ChordAt(CounterAfter(ticks)) == CHORDS[(ticks + 1) % |CHORDS|]
  {
    if ticks > 0 {
      CounterCycles(ticks - 1);
    }
  }
}
