/**
 * The page component's state and handlers: the selected voice, the started
 * flag, the narration and pad references, the chord timer's counter, and every
 * command issued to the host, in order.
 */
module Page {
  import opened Wrappers
  import opened Voices
  import opened Host
  import opened Ambient
  import opened Chords
  import opened Playback

  class Player {
    /** Whether the start handler has run (the page's `started` state). */
    var started: bool
    /** The voice the narration will use (the page's `voice` state). */
    var voice: Option<Voice>
    /** The last utterance handed to speech synthesis (narrationRef). */
    var narration: Option<Utterance>
    /** The pad, once built (ambientRef). */
    var ambient: Option<AmbientState>
    /** The chord timer callback's counter, captured when the pad is built. */
    var chordIndex: nat
    /** Whether the voices-changed handler is installed. */
    var listening: bool
    /** Whether the page has unmounted. */
    var unmounted: bool
    /** Every command issued to the host, in order. */
    var log: seq<Effect>
    /** How many times the chord timer has fired. */
    ghost var ticks: nat

    /**
     * The page's invariant: the narration exists exactly once started and is
     * always the fixed Hindi utterance; a pad exists only once started, with
     * its master gain, the three voice oscillators and a timer; its counter
     * is the one after `ticks` callbacks; and the host's audio graph is empty
     * before the pad exists and afterwards exactly the graph
     * createAmbientState builds. (Nodes are named by role, so a second build
     * would leave the same graph; that the pad is built once comes from
     * HandleStart, whose second call issues nothing.)
     */
    ghost predicate Valid()
      reads this
    {
      && chordIndex < |CHORDS|
      && (started <==> narration.Some?)
      && (narration.Some? ==> narration.value == Narration(narration.value.voice))
      && (ambient.Some? ==>
            && started
            && ambient.value.masterGain == MasterGain
            && ambient.value.oscillators == VOICE_OSCILLATORS
            && ambient.value.chordTimer.Some?
            && chordIndex == CounterAfter(ticks))
      && Run(EMPTY_GRAPH, log) == if ambient.Some? then PAD_GRAPH else EMPTY_GRAPH
    }

    /** The first render: nothing started, no voice, no references, nothing issued. */
    constructor()
      ensures Valid()
      ensures !started && voice == None && narration == None && ambient == None
      ensures !listening && !unmounted && log == []
    {
      started := false;
      voice := None;
      narration := None;
      ambient := None;
      chordIndex := 0;
      listening := false;
      unmounted := false;
      log := [];
      ticks := 0;
    }

    /**
     * assignVoice, given what getVoices() returned: an empty list keeps the
     * stored voice; otherwise the stored voice becomes the preferred one, or
     * none when no voice's tag mentions "hi".
     */
    method AssignVoice(voices: seq<Voice>)
      requires Valid()
      modifies this
      ensures Valid()
      ensures voices == [] ==> voice == old(voice)
      ensures voices != [] ==> voice == SelectVoice(voices)
      ensures started == old(started) && narration == old(narration) && ambient == old(ambient)
      ensures chordIndex == old(chordIndex) && ticks == old(ticks)
      ensures listening == old(listening) && unmounted == old(unmounted) && log == old(log)
    {
      if |voices| == 0 {
        return;
      }
      voice := SelectVoice(voices);
    }

    /** The voice effect: assign a voice now, then listen for voice list changes. */
    method MountVoices(voices: seq<Voice>)
      requires Valid()
      modifies this
      ensures Valid()
      ensures voices == [] ==> voice == old(voice)
      ensures voices != [] ==> voice == SelectVoice(voices)
      ensures listening
      ensures started == old(started) && narration == old(narration) && ambient == old(ambient)
      ensures chordIndex == old(chordIndex) && ticks == old(ticks)
      ensures unmounted == old(unmounted) && log == old(log)
    {
      AssignVoice(voices);
      listening := true;
    }

    /** The voiceschanged event, while the handler is installed. */
    method VoicesChanged(voices: seq<Voice>)
      requires Valid() && listening
      modifies this
      ensures Valid()
      ensures voices == [] ==> voice == old(voice)
      ensures voices != [] ==> voice == SelectVoice(voices)
      ensures started == old(started) && narration == old(narration) && ambient == old(ambient)
      ensures chordIndex == old(chordIndex) && ticks == old(ticks)
      ensures listening == old(listening) && unmounted == old(unmounted) && log == old(log)
    {
      AssignVoice(voices);
    }

    /**
     * handleStart; `timer` is the id setInterval hands back. A second call
     * does nothing. A first call cancels speech and speaks the narration with
     * the stored voice, then, since no pad exists yet, builds the pad, plays
     * chord 0, fades the master gain in and starts the chord timer, whose
     * counter starts at 1.
     */
    method HandleStart(timer: nat)
      requires Valid()
      modifies this
      ensures Valid()
      ensures old(started) ==> narration == old(narration) && ambient == old(ambient) && log == old(log)
      ensures old(started) ==> chordIndex == old(chordIndex) && ticks == old(ticks)
      ensures !old(started) ==> narration == Some(Narration(old(voice)))
      ensures !old(started) ==> log == old(log) + StartCommands(old(voice), false, timer)
      ensures !old(started) ==> ambient == Some(AmbientState(MasterGain, VOICE_OSCILLATORS, Some(timer)))
      ensures !old(started) ==> chordIndex == 1 && ticks == 0
      ensures started && voice == old(voice) && listening == old(listening) && unmounted == old(unmounted)
    {
      if started {
        return;
      }
      started := true;
      SpeakNarration();
      if ambient.None? {
        StartPad(timer);
      }
      assert log == old(log) + StartCommands(old(voice), false, timer);
      FirstStartGraph(old(log), old(voice), timer);
    }

    /**
     * Cancels speech, then speaks the narration with the stored voice. A step
     * of HandleStart, called only from there: on its own it does not keep
     * Valid, since it records a narration without setting `started`.
     */
    method SpeakNarration()
      modifies this
      ensures narration == Some(Narration(voice))
      ensures log == old(log) + [SpeechCancel, Speak(Narration(voice))]
      ensures started == old(started) && voice == old(voice) && ambient == old(ambient)
      ensures chordIndex == old(chordIndex) && ticks == old(ticks)
      ensures listening == old(listening) && unmounted == old(unmounted)
    {
      log := log + [SpeechCancel];
      var utterance := Narration(voice);
      narration := Some(utterance);
      log := log + [Speak(utterance)];
    }

    /**
     * Builds and starts the pad: a new, resumed audio context, the graph,
     * chord 0, the fade-in, and the chord timer with its counter at 1. A step
     * of HandleStart, called only from there when no pad exists yet; on its
     * own it does not keep Valid, which allows only one graph.
     */
    method StartPad(timer: nat)
      modifies this
      ensures log == old(log) + PadCommands(timer)
      ensures ambient == Some(AmbientState(MasterGain, VOICE_OSCILLATORS, Some(timer)))
      ensures chordIndex == 1 && ticks == 0
      ensures started == old(started) && voice == old(voice) && narration == old(narration)
      ensures listening == old(listening) && unmounted == old(unmounted)
    {
      log := log + [NewContext, ResumeContext];
      var state, built := CreateAmbientState();
      var retune := SetChord(state.oscillators, 0);
      var tail := retune + [SetTarget(GainOf(state.masterGain), 0.14, 3.2)];
      chordIndex := 1;
      ticks := 0;
      tail := tail + [SetInterval(timer, CHORD_PERIOD_MS)];
      assert tail == PadTail(timer);
      log := log + (built + tail);
      ambient := Some(state.(chordTimer := Some(timer)));
    }

    /**
     * The chord timer's callback: callback number n (counting from 1) glides
     * the oscillators to chord n mod 4, then advances the counter.
     */
    method Tick()
      requires Valid() && ambient.Some? && !unmounted
      modifies this
      ensures Valid()
      ensures log == old(log) + Retune(VOICE_OSCILLATORS, CHORDS[(old(ticks) + 1) % |CHORDS|])
      ensures ticks == old(ticks) + 1
      ensures started == old(started) && voice == old(voice) && narration == old(narration) && ambient == old(ambient)
      ensures listening == old(listening) && unmounted == old(unmounted)
    {
      CounterCycles(ticks);
      var effects := SetChord(ambient.value.oscillators, chordIndex);
      log := log + effects;
      chordIndex := (chordIndex + 1) % |CHORDS|;
      ticks := ticks + 1;
      RetuneIsInert(VOICE_OSCILLATORS, ChordAt(old(chordIndex)));
      RunThenInert(EMPTY_GRAPH, old(log), effects);
    }

    /**
     * The unmount cleanups: the voices-changed handler is removed, speech is
     * cancelled and, when a pad exists, it fades out, each oscillator is asked
     * to stop (`failing` are those whose stop() throws; the error is logged
     * and the rest go on) and the chord timer is cleared.
     */
    method Unmount(failing: set<Node>)
      requires Valid()
      modifies this
      ensures Valid()
      ensures log == old(log) + TeardownCommands(old(ambient), failing)
      ensures !listening && unmounted
      ensures started == old(started) && voice == old(voice) && narration == old(narration) && ambient == old(ambient)
      ensures chordIndex == old(chordIndex) && ticks == old(ticks)
    {
      listening := false;
      unmounted := true;
      log := log + [SpeechCancel];
      if ambient.Some? {
        StopPad(ambient.value, failing);
      }
      assert log == old(log) + TeardownCommands(old(ambient), failing);
      TeardownIsInert(old(ambient), failing);
      RunThenInert(EMPTY_GRAPH, old(log), TeardownCommands(old(ambient), failing));
    }

    /**
     * Fades the pad out, asks each oscillator to stop (`failing` are those
     * whose stop() throws; the error is logged and the rest go on), and clears
     * the chord timer when its id is truthy. A step of Unmount, called only
     * from there with the current pad.
     */
    method StopPad(a: AmbientState, failing: set<Node>)
      modifies this
      ensures log == old(log) + PadTeardown(a, failing)
      ensures started == old(started) && voice == old(voice) && narration == old(narration) && ambient == old(ambient)
      ensures chordIndex == old(chordIndex) && ticks == old(ticks)
      ensures listening == old(listening) && unmounted == old(unmounted)
    {
      var effects := [CancelRamps(GainOf(a.masterGain))];
      effects := effects + [SetTarget(GainOf(a.masterGain), 0.0, 0.8)];
      var stops := StopOscillators(a.oscillators, failing);
      effects := effects + stops;
      if a.chordTimer.Some? && a.chordTimer.value != 0 {
        effects := effects + [ClearInterval(a.chordTimer.value)];
      }
      log := log + effects;
    }
  }
}
