/**
 * The playback page's engine: narration of a fixed Hindi text, an ambient pad
 * started on the first click, a timer cycling its chords, and the teardown
 * when the page unmounts.
 */
module Playback {
  import opened Wrappers
  import opened Voices
  import opened Host
  import opened Ambient
  import opened Chords

  /** The narrated text. */
  const NARRATION_TEXT: string := "तेरी मेहनत रात की खामोशी को लहजा देती है। लोगों की फुसफुसाहट बस धुंध है—धक्के मत खाना। ध्यान तेरे काम पर है। एक हल्की साँस ले, और रोशनी को अपने अंदर आने दे। कल सुबह जब शहर जागेगा, तेरी कोशिश उनके सवालों का जवाब बन चुकी होगी।"

  /** Milliseconds between two chord changes. */
  const CHORD_PERIOD_MS: nat := 9000

  /** Seconds from the teardown's fade-out to the oscillators' stop. */
  const STOP_DELAY: real := 1.2

  /** The narration's speaking rate, below the host's default of 1. */
  const NARRATION_RATE: real := 0.9

  /** The narration's pitch, below the host's default of 1. */
  const NARRATION_PITCH: real := 0.85

  /**
   * The utterance spoken on start: Hindi (India), slightly slow and low, with
   * the stored voice when there is one and the browser's default otherwise.
   */
  function Narration(voice: Option<Voice>): (u: Utterance)
    ensures u.text == NARRATION_TEXT && u.lang == "hi-IN" && u.voice == voice
    ensures u.rate == NARRATION_RATE && u.pitch == NARRATION_PITCH
    ensures 0.0 < u.rate < 1.0 && 0.0 < u.pitch < 1.0
  {
    Utterance(NARRATION_TEXT, "hi-IN", NARRATION_RATE, NARRATION_PITCH, voice)
  }

  /** The master gain's fade-in once the pad is built: towards 0.14, time constant 3.2 s. */
  const FADE_IN: Effect := SetTarget(GainOf(MasterGain), 0.14, 3.2)

  /**
   * What a first start issues for the pad: a new audio context, resumed; the
   * graph; chord 0; the fade-in; and the chord timer, whose id is `timer`.
   */
  function PadCommands(timer: nat): (es: seq<Effect>)
    ensures |es| > 2 && es[0] == NewContext && es[1] == ResumeContext
    ensures es[|es| - 1] == SetInterval(timer, CHORD_PERIOD_MS)
  {
    [NewContext, ResumeContext] + (AmbientCommands() + PadTail(timer))
  }

  /** What follows the graph: chord 0, the fade-in and the chord timer. */
  function PadTail(timer: nat): seq<Effect> {
    ChordCommands(VOICE_OSCILLATORS, 0) + [FADE_IN, SetInterval(timer, CHORD_PERIOD_MS)]
  }

  /**
   * What handleStart issues when it is not already started: speech is
   * cancelled and the narration spoken, then, when no pad exists yet, the pad
   * is built and started.
   */
  function StartCommands(voice: Option<Voice>, hasAmbient: bool, timer: nat): (es: seq<Effect>)
    ensures |es| >= 2 && es[0] == SpeechCancel && es[1] == Speak(Narration(voice))
    ensures hasAmbient <==> |es| == 2
  {
    [SpeechCancel, Speak(Narration(voice))] + (if hasAmbient then [] else PadCommands(timer))
  }

  /** One stop attempt per oscillator, in order; `failing` are those whose stop() throws. */
  function StopAttempts(oscillators: seq<Node>, failing: set<Node>): (es: seq<Effect>)
    ensures |es| == |oscillators|
  {
    seq(|oscillators|, i requires 0 <= i < |oscillators| =>
      StopAt(oscillators[i], STOP_DELAY, if oscillators[i] in failing then ThrewAndLogged else Stopped))
  }

  /**
   * What the unmount cleanup issues: speech is cancelled; then, when a pad
   * exists, its master gain fades to 0 (time constant 0.8 s), every
   * oscillator is asked to stop, and the chord timer is cleared when its id is
   * truthy.
   */
  function TeardownCommands(ambient: Option<AmbientState>, failing: set<Node>): (es: seq<Effect>)
    ensures |es| >= 1 && es[0] == SpeechCancel
    ensures ambient.None? <==> |es| == 1
  {
    [SpeechCancel] + if ambient.None? then [] else PadTeardown(ambient.value, failing)
  }

  /** The pad's part of the teardown: fade-out, stop attempts, timer. */
  function PadTeardown(a: AmbientState, failing: set<Node>): (es: seq<Effect>)
    ensures |es| == 2 + |a.oscillators| + |ClearTimer(a.chordTimer)|
    ensures forall j :: 0 <= j < |a.oscillators| ==> es[2 + j].StopAt? && es[2 + j].node == a.oscillators[j]
  {
    FadeOut(a.masterGain) + StopAttempts(a.oscillators, failing) + ClearTimer(a.chordTimer)
  }

  /**
   * The master gain's pending ramps are dropped, then it glides to 0 with
   * time constant 0.8 s: the fade touches only the master gain, builds
   * nothing and ends in silence.
   */
  function FadeOut(master: Node): (es: seq<Effect>)
    ensures |es| == 2
    ensures forall i :: 0 <= i < |es| ==>
      && !BuildsGraph(es[i])
      && (es[i].CancelRamps? || es[i].SetTarget?)
      && es[i].param == GainOf(master)
    ensures es[|es| - 1].SetTarget? && es[|es| - 1].target == 0.0
  {
    [CancelRamps(GainOf(master)), SetTarget(GainOf(master), 0.0, 0.8)]
  }

  /** The timer is cleared only when its id is truthy: present and non-zero. */
  function ClearTimer(timer: Option<nat>): (es: seq<Effect>)
    ensures |es| <= 1
    ensures forall t: nat :: ClearInterval(t) in es <==> timer == Some(t) && t != 0
  {
    if timer.Some? && timer.value != 0 then [ClearInterval(timer.value)] else []
  }

  // ---------------------------------------------------------------------------
  // Start
  // ---------------------------------------------------------------------------

  /**
   * The pad's commands open the audio context, contain no speech command,
   * and start one timer, as their last command.
   */
  lemma PadCommandsShape(timer: nat)
    ensures var es := PadCommands(timer);
      && es[0] == NewContext && es[1] == ResumeContext
      && es[|es| - 1] == SetInterval(timer, CHORD_PERIOD_MS)
      && forall i :: 0 <= i < |es| ==>
           !es[i].Speak? && !es[i].SpeechCancel? && (es[i].SetInterval? ==> i == |es| - 1)
  {
    var a := [NewContext, ResumeContext];
    var b := AmbientCommands();
    var c := ChordCommands(VOICE_OSCILLATORS, 0);
    var d := [FADE_IN, SetInterval(timer, CHORD_PERIOD_MS)];
    var es := PadCommands(timer);
    assert es == a + (b + (c + d));
    AmbientCommandsBuild();
    RetuneIsInert(VOICE_OSCILLATORS, ChordAt(0));
    forall i | 0 <= i < |es|
      ensures !es[i].Speak? && !es[i].SpeechCancel? && (es[i].SetInterval? ==> i == |es| - 1)
    {
      if i < |a| {
      } else if i < |a| + |b| {
        assert es[i] == b[i - |a|];
      } else if i < |a| + |b| + |c| {
        assert es[i] == c[i - |a| - |b|];
      } else {
        assert es[i] == d[i - |a| - |b| - |c|];
      }
    }
  }

  /**
   * handleStart speaks exactly one utterance, the narration, right after
   * cancelling whatever was being spoken; only a first start (no pad yet)
   * starts a chord timer, and then exactly one, as its last command.
   */
  lemma StartSpeaksOnce(voice: Option<Voice>, hasAmbient: bool, timer: nat)
    ensures var es := StartCommands(voice, hasAmbient, timer);
      && es[0] == SpeechCancel && es[1] == Speak(Narration(voice))
      && (forall i :: 2 <= i < |es| ==> !es[i].Speak? && !es[i].SpeechCancel?)
      && (hasAmbient ==> es == [SpeechCancel, Speak(Narration(voice))])
      && (!hasAmbient ==> es[|es| - 1] == SetInterval(timer, CHORD_PERIOD_MS))
      && (forall i :: 0 <= i < |es| && es[i].SetInterval? ==> !hasAmbient && i == |es| - 1)
  {
    var es := StartCommands(voice, hasAmbient, timer);
    if !hasAmbient {
      PadCommandsShape(timer);
      var p := PadCommands(timer);
      forall i | 2 <= i < |es|
        ensures es[i] == p[i - 2]
      {
      }
    }
  }

  /**
   * The graph handleStart leaves behind: with no pad yet, exactly what
   * createAmbientState builds on top of the existing graph (speech, context,
   * retune, fade-in and timer commands build nothing); with a pad, the graph
   * is left as it is, so a second graph is never built.
   */
  lemma StartGraph(g: AudioGraph, voice: Option<Voice>, hasAmbient: bool, timer: nat)
    ensures Run(g, StartCommands(voice, hasAmbient, timer))
         == if hasAmbient then g else Run(g, AmbientCommands())
  {
    var speech := [SpeechCancel, Speak(Narration(voice))];
    if hasAmbient {
      assert StartCommands(voice, hasAmbient, timer) == speech;
      RunInert(g, speech);
    } else {
      InertThenRun(g, speech, PadCommands(timer));
      PadGraph(g, timer);
    }
  }

  /** Starting on a log that built nothing yet leaves the pad's graph in the host. */
  lemma FirstStartGraph(log: seq<Effect>, voice: Option<Voice>, timer: nat)
    requires Run(EMPTY_GRAPH, log) == EMPTY_GRAPH
    ensures Run(EMPTY_GRAPH, log + StartCommands(voice, false, timer)) == PAD_GRAPH
  {
    RunAppend(EMPTY_GRAPH, log, StartCommands(voice, false, timer));
    StartGraph(EMPTY_GRAPH, voice, false, timer);
    AmbientGraphShape();
  }

  /** The pad's commands build exactly what createAmbientState builds. */
  lemma PadGraph(g: AudioGraph, timer: nat)
    ensures Run(g, PadCommands(timer)) == Run(g, AmbientCommands())
  {
    InertThenRun(g, [NewContext, ResumeContext], AmbientCommands() + PadTail(timer));
    PadTailInert(timer);
    RunThenInert(g, AmbientCommands(), PadTail(timer));
  }

  /** Chord 0, the fade-in and the timer build nothing. */
  lemma PadTailInert(timer: nat)
    ensures forall i :: 0 <= i < |PadTail(timer)| ==> !BuildsGraph(PadTail(timer)[i])
  {
    var c := ChordCommands(VOICE_OSCILLATORS, 0);
    var d := [FADE_IN, SetInterval(timer, CHORD_PERIOD_MS)];
    RetuneIsInert(VOICE_OSCILLATORS, ChordAt(0));
    forall i | 0 <= i < |c + d|
      ensures !BuildsGraph((c + d)[i])
    {
      if i >= |c| {
        assert (c + d)[i] == d[i - |c|];
      }
    }
  }

  // ---------------------------------------------------------------------------
  // Teardown
  // ---------------------------------------------------------------------------

  /**
   * The try/catch around each stop: every oscillator gets its stop attempt,
   * in order, whether or not an earlier one threw.
   */
  method StopOscillators(oscillators: seq<Node>, failing: set<Node>) returns (effects: seq<Effect>)
    ensures effects == StopAttempts(oscillators, failing)
  {
    effects := [];
    for i := 0 to |oscillators|
      invariant effects == StopAttempts(oscillators[..i], failing)
    {
      var osc := oscillators[i];
      var outcome := if osc in failing then ThrewAndLogged else Stopped;
      effects := effects + [StopAt(osc, STOP_DELAY, outcome)];
    }
    assert oscillators[..|oscillators|] == oscillators;
  }

  /** Teardown builds nothing: it leaves every graph as it is. */
  lemma TeardownIsInert(ambient: Option<AmbientState>, failing: set<Node>)
    ensures forall g :: Run(g, TeardownCommands(ambient, failing)) == g
  {
    var es := TeardownCommands(ambient, failing);
    forall i | 0 <= i < |es|
      ensures !BuildsGraph(es[i])
    {
      if i > 0 {
        var a := ambient.value;
        var fade, stops := FadeOut(a.masterGain), StopAttempts(a.oscillators, failing);
        assert es[i] == (fade + stops + ClearTimer(a.chordTimer))[i - 1];
      }
    }
    forall g
      ensures Run(g, es) == g
    {
      RunInert(g, es);
    }
  }

  /**
   * Teardown cancels speech first. With a pad, the master gain's pending
   * ramps are cancelled before it fades to 0, and then oscillator j is asked
   * to stop at position 3 + j, exactly those in `failing` throwing (and being
   * logged) without preventing the stop attempts after them.
   */
  lemma TeardownOrder(ambient: Option<AmbientState>, failing: set<Node>)
    ensures var es := TeardownCommands(ambient, failing);
      && es[0] == SpeechCancel
      && (ambient.None? ==> es == [SpeechCancel])
      && (ambient.Some? ==>
            var a := ambient.value;
            && es[1] == CancelRamps(GainOf(a.masterGain))
            && es[2] == SetTarget(GainOf(a.masterGain), 0.0, 0.8)
            && forall j :: 0 <= j < |a.oscillators| ==>
                 es[3 + j] == StopAt(a.oscillators[j], STOP_DELAY,
                                     if a.oscillators[j] in failing then ThrewAndLogged else Stopped))
  {
    if ambient.Some? {
      var a := ambient.value;
      var es := TeardownCommands(ambient, failing);
      var fade := FadeOut(a.masterGain);
      var stops := StopAttempts(a.oscillators, failing);
      var pad := PadTeardown(a, failing);
      assert pad == fade + stops + ClearTimer(a.chordTimer);
      assert es == [SpeechCancel] + pad;
      assert es[1] == fade[0] && es[2] == fade[1];
      forall j | 0 <= j < |a.oscillators|
        ensures es[3 + j] == stops[j]
      {
        assert es[3 + j] == pad[2 + j];
      }
    }
  }

  /** With a pad, teardown clears timer `t` if and only if the pad's timer id is `t` and `t` is non-zero. */
  lemma TeardownClearsTimer(a: AmbientState, failing: set<Node>)
    ensures forall t: nat :: ClearInterval(t) in TeardownCommands(Some(a), failing) <==> a.chordTimer == Some(t) && t != 0
  {
    var es := TeardownCommands(Some(a), failing);
    var front := [SpeechCancel] + FadeOut(a.masterGain) + StopAttempts(a.oscillators, failing);
    var clear := ClearTimer(a.chordTimer);
    assert es == front + clear;
    forall t: nat
      ensures ClearInterval(t) in es <==> a.chordTimer == Some(t) && t != 0
    {
      if ClearInterval(t) in es {
        var i :| 0 <= i < |es| && es[i] == ClearInterval(t);
        assert clear[i - |front|] == ClearInterval(t);
      }
      if a.chordTimer == Some(t) && t != 0 {
        assert es[|es| - 1] == ClearInterval(t);
      }
    }
  }

  /** The oscillators teardown asks to stop are exactly the pad's oscillators. */
  lemma TeardownStopsExactly(a: AmbientState, failing: set<Node>)
    ensures var es := TeardownCommands(Some(a), failing);
      forall o :: (exists i :: 0 <= i < |es| && es[i].StopAt? && es[i].node == o) <==> o in a.oscillators
  {
    var es := TeardownCommands(Some(a), failing);
    forall o
      ensures (exists i :: 0 <= i < |es| && es[i].StopAt? && es[i].node == o) <==> o in a.oscillators
    {
      if o in a.oscillators {
        var j :| 0 <= j < |a.oscillators| && a.oscillators[j] == o;
        assert es[3 + j] == PadTeardown(a, failing)[2 + j];
      }
      if exists i :: 0 <= i < |es| && es[i].StopAt? && es[i].node == o {
        var i :| 0 <= i < |es| && es[i].StopAt? && es[i].node == o;
        TeardownStopAt(a, failing, i);
      }
    }
  }

  /** A stop attempt in the teardown sits at position 3 + j and stops oscillator j. */
  lemma TeardownStopAt(a: AmbientState, failing: set<Node>, i: int)
    requires 0 <= i < |TeardownCommands(Some(a), failing)| && TeardownCommands(Some(a), failing)[i].StopAt?
    ensures 3 <= i < 3 + |a.oscillators| && TeardownCommands(Some(a), failing)[i].node == a.oscillators[i - 3]
  {
    var es := TeardownCommands(Some(a), failing);
    var front := [SpeechCancel] + FadeOut(a.masterGain);
    var stops := StopAttempts(a.oscillators, failing);
    var clear := ClearTimer(a.chordTimer);
    assert es == front + stops + clear;
    if 3 <= i < 3 + |stops| {
      assert es[i] == stops[i - 3];
    }
  }

  /**
   * Start and teardown match: the oscillators a first start leaves running
   * are exactly those the teardown asks to stop, and the chord timer it
   * starts is the one the teardown clears (the host hands out positive
   * timer ids).
   */
  lemma StartThenTeardown(voice: Option<Voice>, timer: nat, failing: set<Node>)
    requires timer > 0
    ensures var started := Run(EMPTY_GRAPH, StartCommands(voice, false, timer)).started;
      var down := TeardownCommands(Some(AmbientState(MasterGain, VOICE_OSCILLATORS, Some(timer))), failing);
      && SetInterval(timer, CHORD_PERIOD_MS) in StartCommands(voice, false, timer)
      && ClearInterval(timer) in down
      && forall o :: o in started <==> exists i :: 0 <= i < |down| && down[i].StopAt? && down[i].node == o
  {
    var es := StartCommands(voice, false, timer);
    StartSpeaksOnce(voice, false, timer);
    assert es[|es| - 1] == SetInterval(timer, CHORD_PERIOD_MS);
    StartGraph(EMPTY_GRAPH, voice, false, timer);
    ReturnedOscillatorsStarted();
    var a := AmbientState(MasterGain, VOICE_OSCILLATORS, Some(timer));
    TeardownClearsTimer(a, failing);
    TeardownStopsExactly(a, failing);
  }

  /** An oscillator whose stop throws does not keep the later ones from being stopped, nor the timer from being cleared. */
  lemma FailingStopIsAbsorbed(timer: nat)
    requires timer > 0
    ensures TeardownCommands(Some(AmbientState(MasterGain, VOICE_OSCILLATORS, Some(timer))), {Osc(1)})
         == [SpeechCancel, CancelRamps(GainOf(MasterGain)), SetTarget(GainOf(MasterGain), 0.0, 0.8),
             StopAt(Osc(0), STOP_DELAY, Stopped), StopAt(Osc(1), STOP_DELAY, ThrewAndLogged),
             StopAt(Osc(2), STOP_DELAY, Stopped), ClearInterval(timer)]
  {
    var stops := StopAttempts(VOICE_OSCILLATORS, {Osc(1)});
    assert stops == [StopAt(Osc(0), STOP_DELAY, Stopped), StopAt(Osc(1), STOP_DELAY, ThrewAndLogged),
                     StopAt(Osc(2), STOP_DELAY, Stopped)];
  }
}
