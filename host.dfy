/**
 * The browser facilities the playback page drives (Web Audio, Web Speech and
 * window timers), seen as a log of the commands the page issues to them.
 *
 * Audio nodes are named by their role. The page builds at most one synthesis
 * graph in its lifetime, so a role names exactly one host node.
 */
module Host {
  import opened Wrappers
  import opened Voices

  /** The audio nodes of the synthesis graph, and the context's destination. */
  datatype Node =
    | Destination          // context.destination
    | MasterGain           // the shared master gain
    | Filter               // the shared biquad filter
    | Osc(index: nat)      // oscillator `index` of the voice bank
    | VoiceGain(index: nat) // the fixed-weight gain behind oscillator `index`

  /** An automatable audio parameter. */
  datatype Param = GainOf(node: Node) | FrequencyOf(node: Node)

  /** OscillatorNode.type (the "custom" wave is never used). */
  datatype Waveform = Sine | Square | Sawtooth | Triangle

  /** BiquadFilterNode.type. */
  datatype FilterType = Lowpass | Highpass | Bandpass | Lowshelf | Highshelf | Peaking | Notch | Allpass

  /** A SpeechSynthesisUtterance as the page configures it. */
  datatype Utterance = Utterance(text: string, lang: string, rate: real, pitch: real, voice: Option<Voice>)

  /** A biquad filter's settings: its type, its frequency in Hz and its Q. */
  datatype Biquad = Biquad(kind: FilterType, frequency: real, q: real)

  /** What happened when the page asked an oscillator to stop. */
  datatype StopOutcome = Stopped | ThrewAndLogged

  /** One command issued to the host, in the order the page issues them. */
  datatype Effect =
    // speech synthesis
    | SpeechCancel                                  // speechSynthesis.cancel()
    | Speak(utterance: Utterance)                   // speechSynthesis.speak(u)
    // audio context
    | NewContext                                    // new AudioContext()
    | ResumeContext                                 // context.resume()
    // A node is created together with the settings the page assigns to it
    // before using it (see AudioGraph).
    | CreateGain(node: Node, gain: real)            // context.createGain(); gain.value = v
    | CreateBiquad(node: Node, settings: Biquad)    // context.createBiquadFilter(); type, frequency, Q
    | CreateOscillator(node: Node, wave: Waveform)  // context.createOscillator(); type = t
    | Connect(src: Node, dst: Node)                 // src.connect(dst)
    | Start(node: Node)                             // osc.start()
    | CancelRamps(param: Param)                     // param.cancelScheduledValues(now)
    | SetTarget(param: Param, target: real, timeConstant: real) // param.setTargetAtTime(v, now, tc)
    | StopAt(node: Node, delay: real, outcome: StopOutcome)     // osc.stop(now + delay), in a try/catch
    // timers
    | SetInterval(timer: nat, periodMs: nat)        // window.setInterval(cb, period) returned `timer`
    | ClearInterval(timer: nat)                     // window.clearInterval(timer)

  // ---------------------------------------------------------------------------
  // What the graph-building commands do to the host's audio graph
  // ---------------------------------------------------------------------------

  /** The static shape of the host's audio graph; ramps and timers do not change it. */
  datatype AudioGraph = AudioGraph(
    gains: map<Node, real>,            // gain nodes and their gain value
    filters: map<Node, Biquad>,        // filter nodes and their settings
    oscillators: map<Node, Waveform>,  // oscillator nodes and their waveform
    edges: set<(Node, Node)>,          // connections
    started: set<Node>)                // oscillators that were started

  const EMPTY_GRAPH := AudioGraph(map[], map[], map[], {}, {})

  /** The effect of one command on the graph; speech, ramps, stops and timers leave it as it is. */
  function Apply(g: AudioGraph, e: Effect): AudioGraph {
    if e.CreateGain? then g.(gains := g.gains[e.node := e.gain])
    else if e.CreateBiquad? then g.(filters := g.filters[e.node := e.settings])
    else if e.CreateOscillator? then g.(oscillators := g.oscillators[e.node := e.wave])
    else if e.Connect? then g.(edges := g.edges + {(e.src, e.dst)})
    else if e.Start? then g.(started := g.started + {e.node})
    else g
  }

  /** The graph after a sequence of commands. */
  function Run(g: AudioGraph, es: seq<Effect>): AudioGraph
    decreases |es|
  {
    if es == [] then g else Run(Apply(g, es[0]), es[1..])
  }

  /** Running a non-empty sequence applies its first command, then runs the rest. */
  lemma RunStep(g: AudioGraph, es: seq<Effect>)
    requires es != []
    ensures Run(g, es) == Run(Apply(g, es[0]), es[1..])
  {
  }

  /** Running two command sequences one after the other is running their concatenation. */
  lemma {:induction false} RunAppend(g: AudioGraph, a: seq<Effect>, b: seq<Effect>)
    ensures Run(g, a + b) == Run(Run(g, a), b)
    decreases |a|
  {
    if a == [] {
      assert a + b == b;
    } else {
      assert (a + b)[1..] == a[1..] + b;
      RunAppend(Apply(g, a[0]), a[1..], b);
    }
  }

  /** The commands that change the graph: creating, connecting and starting nodes. */
  predicate BuildsGraph(e: Effect) {
    e.CreateGain? || e.CreateBiquad? || e.CreateOscillator? || e.Connect? || e.Start?
  }

  /** Commands that build nothing leave the graph as it is. */
  lemma {:induction false} RunInert(g: AudioGraph, es: seq<Effect>)
    requires forall i :: 0 <= i < |es| ==> !BuildsGraph(es[i])
    ensures Run(g, es) == g
    decreases |es|
  {
    if es != [] {
      RunInert(g, es[1..]);
    }
  }

  /** Inert commands before a sequence do not change what it builds. */
  lemma InertThenRun(g: AudioGraph, a: seq<Effect>, b: seq<Effect>)
    requires forall i :: 0 <= i < |a| ==> !BuildsGraph(a[i])
    ensures Run(g, a + b) == Run(g, b)
  {
    RunAppend(g, a, b);
    RunInert(g, a);
  }

  /** Inert commands after a sequence do not change what it builds. */
  lemma RunThenInert(g: AudioGraph, a: seq<Effect>, b: seq<Effect>)
    requires forall i :: 0 <= i < |b| ==> !BuildsGraph(b[i])
    ensures Run(g, a + b) == Run(g, a)
  {
    RunAppend(g, a, b);
    RunInert(Run(g, a), b);
  }
}
