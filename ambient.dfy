/**
 * The audio graph builder (createAmbientState): a master gain, a shared
 * lowpass filter and a bank of three oscillator voices.
 */
module Ambient {
  import opened Wrappers
  import opened Host

  /**
   * The page's handle on a running synthesis graph: its master gain, its
   * oscillators in voice order, and the id of the chord timer once one runs.
   */
  datatype AmbientState = AmbientState(masterGain: Node, oscillators: seq<Node>, chordTimer: Option<nat>)

  /** The waveforms of the voice bank, in voice order. */
  const WAVEFORMS: seq<Waveform> := [Sine, Triangle, Sine]

  /** The oscillators createAmbientState returns, in voice order. */
  const VOICE_OSCILLATORS: seq<Node> := [Osc(0), Osc(1), Osc(2)]

  /**
   * The fixed weight of voice `index`: 0.18, then 0.1, then 0.08 for every
   * later voice. Weights are positive, at most 0.18, and never grow along
   * the bank.
   */
  function VoiceWeight(index: nat): (w: real)
    ensures 0.0 < w <= 0.18
    ensures index > 0 ==> w <= VoiceWeight(index - 1)
  {
    if index == 0 then 0.18 else if index == 1 then 0.1 else 0.08
  }

  /** The master gain and the filter, wired to the output. */
  const MASTER_COMMANDS: seq<Effect> := [
    CreateGain(MasterGain, 0.0), Connect(MasterGain, Destination),
    CreateBiquad(Filter, Biquad(Lowpass, 1800.0, 0.9)), Connect(Filter, MasterGain)]

  /** One voice of the bank: an oscillator through its own gain into the filter, started. */
  function VoiceCommands(index: nat, wave: Waveform): (es: seq<Effect>)
    ensures forall i :: 0 <= i < |es| ==> BuildsGraph(es[i])
    ensures Start(Osc(index)) in es
  {
    [CreateOscillator(Osc(index), wave), CreateGain(VoiceGain(index), VoiceWeight(index)),
     Connect(Osc(index), VoiceGain(index)), Connect(VoiceGain(index), Filter), Start(Osc(index))]
  }

  /** The first `n` voices of the bank, in voice order. */
  function VoiceBankCommands(n: nat): seq<Effect>
    requires n <= |WAVEFORMS|
  {
    if n == 0 then [] else VoiceBankCommands(n - 1) + VoiceCommands(n - 1, WAVEFORMS[n - 1])
  }

  /** Every command createAmbientState issues, in order. */
  function AmbientCommands(): seq<Effect> {
    MASTER_COMMANDS + VoiceBankCommands(|WAVEFORMS|)
  }

  /**
   * createAmbientState: issues the graph-building commands and returns the
   * handle on the master gain and the three oscillators (no timer yet).
   */
  method CreateAmbientState() returns (state: AmbientState, effects: seq<Effect>)
    ensures state == AmbientState(MasterGain, VOICE_OSCILLATORS, None)
    ensures effects == AmbientCommands()
  {
    effects := [CreateGain(MasterGain, 0.0), Connect(MasterGain, Destination)];
    effects := effects + [CreateBiquad(Filter, Biquad(Lowpass, 1800.0, 0.9)), Connect(Filter, MasterGain)];
    var types := WAVEFORMS;
    var oscillators: seq<Node> := [];
    for index := 0 to |types|
      invariant oscillators == VOICE_OSCILLATORS[..index]
      invariant effects == MASTER_COMMANDS + VoiceBankCommands(index)
    {
      var osc := Osc(index);
      var gain := VoiceGain(index);
      var weight := if index == 0 then 0.18 else if index == 1 then 0.1 else 0.08;
      effects := effects + [CreateOscillator(osc, types[index]), CreateGain(gain, weight)];
      effects := effects + [Connect(osc, gain), Connect(gain, Filter), Start(osc)];
      oscillators := oscillators + [osc];
    }
    state := AmbientState(MasterGain, oscillators, None);
  }

  // ---------------------------------------------------------------------------
  // The graph those commands build
  // ---------------------------------------------------------------------------

  /** The first two commands of a voice create its oscillator and its gain. */
  lemma VoiceNodes(g: AudioGraph, index: nat, wave: Waveform)
    ensures Run(g, VoiceCommands(index, wave)) == Run(g.(
      gains := g.gains[VoiceGain(index) := VoiceWeight(index)],
      oscillators := g.oscillators[Osc(index) := wave]), VoiceCommands(index, wave)[2..])
  {
    var es := VoiceCommands(index, wave);
    var g1 := g.(oscillators := g.oscillators[Osc(index) := wave]);
    RunStep(g, es);
    RunStep(g1, es[1..]);
  }

  /** The last three commands of a voice wire it into the filter and start it. */
  lemma VoiceEdges(g: AudioGraph, index: nat, wave: Waveform)
    ensures Run(g, VoiceCommands(index, wave)[2..]) == g.(
      edges := g.edges + {(Osc(index), VoiceGain(index)), (VoiceGain(index), Filter)},
      started := g.started + {Osc(index)})
  {
    var es := VoiceCommands(index, wave)[2..];
    var o, v := Osc(index), VoiceGain(index);
    var g1 := g.(edges := g.edges + {(o, v)});
    var g2 := g1.(edges := g1.edges + {(v, Filter)});
    RunStep(g, es);
    RunStep(g1, es[1..]);
    RunStep(g2, es[2..]);
    assert es[3..] == [];
    assert g.edges + {(o, v)} + {(v, Filter)} == g.edges + {(o, v), (v, Filter)};
  }

  /** What one voice's commands add to any graph. */
  lemma VoiceWiring(g: AudioGraph, index: nat, wave: Waveform)
    ensures Run(g, VoiceCommands(index, wave)) == g.(
      gains := g.gains[VoiceGain(index) := VoiceWeight(index)],
      oscillators := g.oscillators[Osc(index) := wave],
      edges := g.edges + {(Osc(index), VoiceGain(index)), (VoiceGain(index), Filter)},
      started := g.started + {Osc(index)})
  {
    VoiceNodes(g, index, wave);
    VoiceEdges(g.(gains := g.gains[VoiceGain(index) := VoiceWeight(index)],
      oscillators := g.oscillators[Osc(index) := wave]), index, wave);
  }

  /** The master gain and filter, built on an empty graph. */
  lemma MasterWiring()
    ensures Run(EMPTY_GRAPH, MASTER_COMMANDS) == AudioGraph(
      map[MasterGain := 0.0], map[Filter := Biquad(Lowpass, 1800.0, 0.9)], map[],
      {(MasterGain, Destination), (Filter, MasterGain)}, {})
  {
    var es := MASTER_COMMANDS;
    var g := EMPTY_GRAPH;
    var g1 := g.(gains := map[MasterGain := 0.0]);
    var g2 := g1.(edges := {(MasterGain, Destination)});
    var g3 := g2.(filters := map[Filter := Biquad(Lowpass, 1800.0, 0.9)]);
    var g4 := g3.(edges := g2.edges + {(Filter, MasterGain)});
    assert Run(g, es) == Run(g2, es[2..]) by {
      RunStep(g, es);
      RunStep(g1, es[1..]);
      assert {} + {(MasterGain, Destination)} == {(MasterGain, Destination)};
    }
    assert Run(g2, es[2..]) == g4 by {
      RunStep(g2, es[2..]);
      RunStep(g3, es[3..]);
      assert es[4..] == [];
    }
    assert {(MasterGain, Destination)} + {(Filter, MasterGain)} == {(MasterGain, Destination), (Filter, MasterGain)};
  }

  /** The graph after the master section and the first voice. */
  lemma FirstVoiceWiring()
    ensures Run(EMPTY_GRAPH, MASTER_COMMANDS + VoiceCommands(0, Sine)) == AudioGraph(
      map[MasterGain := 0.0, VoiceGain(0) := 0.18],
      map[Filter := Biquad(Lowpass, 1800.0, 0.9)],
      map[Osc(0) := Sine],
      {(MasterGain, Destination), (Filter, MasterGain), (Osc(0), VoiceGain(0)), (VoiceGain(0), Filter)},
      {Osc(0)})
  {
    RunAppend(EMPTY_GRAPH, MASTER_COMMANDS, VoiceCommands(0, Sine));
    MasterWiring();
    VoiceWiring(Run(EMPTY_GRAPH, MASTER_COMMANDS), 0, Sine);
  }

  /** The graph after the master section and the first two voices. */
  lemma SecondVoiceWiring()
    ensures Run(EMPTY_GRAPH, MASTER_COMMANDS + VoiceCommands(0, Sine) + VoiceCommands(1, Triangle)) == AudioGraph(
      map[MasterGain := 0.0, VoiceGain(0) := 0.18, VoiceGain(1) := 0.1],
      map[Filter := Biquad(Lowpass, 1800.0, 0.9)],
      map[Osc(0) := Sine, Osc(1) := Triangle],
      {(MasterGain, Destination), (Filter, MasterGain),
       (Osc(0), VoiceGain(0)), (VoiceGain(0), Filter),
       (Osc(1), VoiceGain(1)), (VoiceGain(1), Filter)},
      {Osc(0), Osc(1)})
  {
    var a := MASTER_COMMANDS + VoiceCommands(0, Sine);
    RunAppend(EMPTY_GRAPH, a, VoiceCommands(1, Triangle));
    FirstVoiceWiring();
    VoiceWiring(Run(EMPTY_GRAPH, a), 1, Triangle);
  }

  /**
   * The pad's graph: a master gain at 0 into the output, a lowpass filter at
   * 1800 Hz with Q 0.9 into the master gain, and three started oscillators
   * (sine, triangle, sine), each through its own gain (0.18, 0.1, 0.08) into
   * the filter.
   */
  const PAD_GRAPH := AudioGraph(
    map[MasterGain := 0.0, VoiceGain(0) := 0.18, VoiceGain(1) := 0.1, VoiceGain(2) := 0.08],
    map[Filter := Biquad(Lowpass, 1800.0, 0.9)],
    map[Osc(0) := Sine, Osc(1) := Triangle, Osc(2) := Sine],
    {(MasterGain, Destination), (Filter, MasterGain),
     (Osc(0), VoiceGain(0)), (VoiceGain(0), Filter),
     (Osc(1), VoiceGain(1)), (VoiceGain(1), Filter),
     (Osc(2), VoiceGain(2)), (VoiceGain(2), Filter)},
    {Osc(0), Osc(1), Osc(2)})

  /** createAmbientState's commands build exactly the pad's graph. */
  lemma AmbientGraphShape()
    ensures Run(EMPTY_GRAPH, AmbientCommands()) == PAD_GRAPH
  {
    var a := MASTER_COMMANDS + VoiceCommands(0, Sine) + VoiceCommands(1, Triangle);
    assert VoiceBankCommands(3) == VoiceCommands(0, Sine) + VoiceCommands(1, Triangle) + VoiceCommands(2, Sine);
    assert AmbientCommands() == a + VoiceCommands(2, Sine);
    RunAppend(EMPTY_GRAPH, a, VoiceCommands(2, Sine));
    SecondVoiceWiring();
    VoiceWiring(Run(EMPTY_GRAPH, a), 2, Sine);
  }

  /**
   * The oscillators createAmbientState hands back are exactly the started
   * ones, each with its voice's waveform.
   */
  lemma ReturnedOscillatorsStarted()
    ensures var g := Run(EMPTY_GRAPH, AmbientCommands());
      && (forall n :: n in g.started <==> n in VOICE_OSCILLATORS)
      && forall i :: 0 <= i < |VOICE_OSCILLATORS| ==>
           VOICE_OSCILLATORS[i] in g.oscillators && g.oscillators[VOICE_OSCILLATORS[i]] == WAVEFORMS[i]
  {
    AmbientGraphShape();
  }

  /** Every command of the first `n` voices builds part of the graph. */
  lemma {:induction false} VoiceBankBuilds(n: nat)
    requires n <= |WAVEFORMS|
    ensures forall i :: 0 <= i < |VoiceBankCommands(n)| ==> BuildsGraph(VoiceBankCommands(n)[i])
  {
    if n > 0 {
      VoiceBankBuilds(n - 1);
      var a := VoiceBankCommands(n - 1);
      var b := VoiceCommands(n - 1, WAVEFORMS[n - 1]);
      forall i | 0 <= i < |a + b|
        ensures BuildsGraph((a + b)[i])
      {
        if i >= |a| {
          assert (a + b)[i] == b[i - |a|];
        }
      }
    }
  }

  /**
   * createAmbientState only builds: it issues no speech, ramp, stop or timer
   * command.
   */
  lemma AmbientCommandsBuild()
    ensures forall i :: 0 <= i < |AmbientCommands()| ==> BuildsGraph(AmbientCommands()[i])
  {
    VoiceBankBuilds(|WAVEFORMS|);
    var a, b := MASTER_COMMANDS, VoiceBankCommands(|WAVEFORMS|);
    forall i | 0 <= i < |a + b|
      ensures BuildsGraph((a + b)[i])
    {
      if i >= |a| {
        assert (a + b)[i] == b[i - |a|];
      }
    }
  }
}
