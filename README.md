# Narration and ambient pad engine of the playback page

This project models in Dafny the playback engine of a single-page web scene
(`app/page.tsx`). The page narrates a fixed Hindi text with the browser's speech
synthesis. Under the narration it plays a synthesized ambient pad that cycles
through four chords. Everything is torn down when the page unmounts.

The model covers:

- **Voice selection** (`assignVoice`). From the voices the host reports, it keeps
  the first Hindi voice whose name matches `/male|पुरुष|man/i`, else the first Hindi
  voice, else the first voice whose tag contains "hi", else none. An empty voice
  list keeps the stored voice.
- **The pad graph** (`createAmbientState`). A master gain at 0 feeds the output.
  A lowpass filter at 1800 Hz with Q 0.9 feeds the master gain. Three started
  oscillators (sine, triangle, sine) each feed the filter through their own
  fixed gain (0.18, 0.1, 0.08).
- **The chord progression** (`chords`, `setChord`, the interval callback). Each
  retune cancels an oscillator's pending frequency ramps, then glides it to the
  root, third or fifth of the chord, with time constant 1.6 s. The root is used
  for any voice beyond the third. Chord 0 plays at start. The callback's
  counter starts at 1 and advances modulo 4 every 9000 ms.
- **Start** (`handleStart`). It runs once. It cancels speech and speaks the
  narration (language "hi-IN", rate 0.9, pitch 0.85, with the stored voice if
  there is one). Only when no pad exists yet, it opens and resumes an audio
  context, builds the pad, plays chord 0, fades the master gain towards 0.14
  (time constant 3.2 s) and starts the chord timer.
- **Teardown** (the two unmount cleanups). The voices-changed handler is
  removed and speech is cancelled. When a pad exists, its master gain's ramps
  are cancelled and it fades to 0 (time constant 0.8 s). Every oscillator is
  asked to stop 1.2 s later; a stop that throws is logged and does not prevent
  the others. The chord timer is cleared when its id is truthy.

**Host model.** The host's speech, audio and timer facilities are modelled as a
log of commands (`Host.Effect`) that the page issues in order. Audio nodes are
named by their role (`MasterGain`, `Filter`, `Osc(i)`, `VoiceGain(i)`), since the
page builds at most one graph in its lifetime. `Host.Run` folds the
graph-building commands into an `AudioGraph`: gains, filters, oscillators,
connections and started nodes. This gives the command sequences a meaning that
lemmas can state.

**The page itself.** The page is the class `Page.Player`:

- Its fields are the component's state (`started`, `voice`), its references (the
  narration, the pad), the chord timer's counter and the command log.
- Its invariant `Valid` states how these fit together. In particular, the
  host's graph is empty until the pad exists and is exactly the pad's graph
  afterwards.

**Voice selection follows the code.** The name pattern is a substring test, so
"Hindi Female" matches it through "male". Given the voices [Zira (en-US), Hindi
Female (hi-IN), Hindi Male (hi-IN)], the code selects Hindi Female, not Hindi
Male as a reading of the selection rule as a gender preference would suggest.
The model follows the code, and `Voices.FemaleNameCountsAsMale` states this
case.

## Model

| member | source | states |
|---|---|---|
| Voices.FilterVoices | app/page.tsx:82 | the filtered list holds exactly the voices of the input that satisfy the predicate, and is no longer than the input |
| Voices.Lower | app/page.tsx:82 | the lower-cased tag has an 'h' only if the tag has an 'h' or an 'H' |
| Voices.LowerFold | app/page.tsx:82-84 | lower-casing ignores ASCII case: a tag and its ASCII-folded form lower to the same string |
| Voices.TagIgnoresCase | app/page.tsx:82-84 | both tag tests, starts-with and contains "hi", give the same answer on a tag and its ASCII-folded form |
| Voices.UpperCaseTagIsHindi | app/page.tsx:82 | a voice tagged "HI-IN" is Hindi |
| Voices.MaleNameIgnoresCase | app/page.tsx:83 | the name test ignores ASCII case: a name and its case-folded form match alike |
| Voices.IsHindi | app/page.tsx:82 | a voice whose lower-cased tag starts with "hi" also has a tag containing "hi", so every voice the second fallback accepts the third accepts too |
| Voices.MentionsHindi | app/page.tsx:84 | a tag that contains "hi" after lower-casing has an 'h' or 'H' |
| Voices.Find | app/page.tsx:83-84 | find returns a voice of the list that satisfies the predicate, and nothing only when no voice does |
| Voices.FindIsFirst | app/page.tsx:83-84 | find returns nothing exactly when no voice satisfies the predicate, and otherwise the voice at the first position that does |
| Voices.FindInFilter | app/page.tsx:82-83 | searching the Hindi-filtered list for a male name finds the same voice as searching the whole list for a male Hindi voice |
| Voices.FilterHead | app/page.tsx:82-84 | the filtered list is non-empty exactly when find succeeds on the input, and its first voice is the voice find returns |
| Voices.SelectVoice | app/page.tsx:82-84 | the selection is a reported voice whose tag mentions "hi"; it is a Hindi voice whenever one is reported, and a male-named Hindi voice whenever one is reported; nothing is selected exactly when no tag mentions "hi" |
| Voices.SelectVoiceByRules | app/page.tsx:82-84 | the selection is the first male Hindi voice, else the first Hindi voice, else the first voice whose tag mentions "hi" |
| Voices.PicksAtUnique | app/page.tsx:82-84 | at most one rule and one position satisfy the priority policy |
| Voices.PickedByRule1 | app/page.tsx:83 | the first male Hindi voice is picked by the highest-priority rule |
| Voices.PickedByRule2 | app/page.tsx:84 | with no male Hindi voice, the first Hindi voice is picked by the second rule |
| Voices.PickedByRule3 | app/page.tsx:84 | with no Hindi voice, the first voice whose tag mentions "hi" is picked by the third rule |
| Voices.SelectionPicked | app/page.tsx:82-84 | any selected voice is the one the priority rules pick |
| Voices.SelectsNothing | app/page.tsx:84-85 | nothing is selected exactly when no voice's lower-cased tag contains "hi" |
| Voices.SelectVoiceIsPreferred | app/page.tsx:82-85 | a voice is selected if and only if it is the voice the priority policy prefers; nothing is selected if and only if no tag mentions "hi" |
| Voices.ZiraIsNotHindi | app/page.tsx:82 | "en-US" neither starts with nor contains "hi" after lower-casing |
| Voices.HindiFemaleIsMaleHindi | app/page.tsx:83 | "Hindi Female" (hi-IN) is a Hindi voice that matches the male pattern |
| Voices.HindiMaleIsMaleHindi | app/page.tsx:83 | "Hindi Male" (hi-IN) is a Hindi voice that matches the male pattern |
| Voices.FemaleNameCountsAsMale | app/page.tsx:82-84 | [Zira, Hindi Female, Hindi Male] and [Zira, Hindi Female] both select Hindi Female |
| Voices.HiInIsHindi | app/page.tsx:82 | a voice tagged "hi-IN" is Hindi |
| Voices.FoldKeepsOccurrence | app/page.tsx:83 | case-folding keeps every occurrence of a pattern alternative, which has no capitals |
| Voices.FoldKeepsContains | app/page.tsx:83 | a name containing a capital-free alternative still contains it after case-folding |
| Voices.IsMaleName | app/page.tsx:83 | a name matches when, after ASCII case-folding, it contains "male", "पुरुष" or "man" anywhere, so "Female" and "Woman" match too; any name containing an alternative as written matches |
| Voices.FemaleIsMaleName | app/page.tsx:83 | "Hindi Female" matches the male pattern |
| Voices.MaleIsMaleName | app/page.tsx:83 | "Hindi Male" matches the male pattern |
| Voices.ListOrderDecides | app/page.tsx:83 | of any non-empty list of voices that are all Hindi and all match the pattern, the first in list order is selected |
| Voices.HindiMaleListedFirst | app/page.tsx:83 | [Hindi Male, Hindi Female] selects Hindi Male |
| Voices.HiInsideTagIsSelected | app/page.tsx:84 | a voice tagged "en-hi" is not Hindi but its tag contains "hi", so the third fallback selects it: the third fallback accepts more voices than the second |
| Voices.LowersToEnHi | app/page.tsx:82-84 | a tag that lowers to "en-hi" contains "hi" without starting with it |
| Voices.EnHiTag | app/page.tsx:82-84 | "en-hi" is already lower case, contains "hi" and does not start with it |
| Voices.NoHindiSelectsNothing | app/page.tsx:84-85 | a list with only an en-US voice selects no voice |
| Ambient.VoiceWeight | app/page.tsx:44 | every voice weight is positive and at most 0.18, and no voice is weighted above the one before it |
| Ambient.VoiceCommands | app/page.tsx:41-46 | every command of one voice builds part of the graph, and the voice's oscillator is started |
| Ambient.CreateAmbientState | app/page.tsx:29-55 | returns the master gain, the three voice oscillators in order and no timer, and issues exactly the pad's graph-building commands |
| Ambient.MasterWiring | app/page.tsx:30-38 | the master section builds a gain at 0 into the output and a lowpass filter at 1800 Hz, Q 0.9, into the master gain |
| Ambient.VoiceNodes | app/page.tsx:41-44 | a voice's first commands create its oscillator with its waveform and its gain with the voice's weight |
| Ambient.VoiceEdges | app/page.tsx:45-46 | a voice's last commands connect oscillator to gain and gain to filter, and start the oscillator |
| Ambient.VoiceWiring | app/page.tsx:40-48 | one voice adds its oscillator, its weighted gain, the two connections and the started oscillator to any graph |
| Ambient.FirstVoiceWiring | app/page.tsx:29-48 | the graph after the master section and the first voice |
| Ambient.SecondVoiceWiring | app/page.tsx:29-48 | the graph after the master section and the first two voices |
| Ambient.AmbientGraphShape | app/page.tsx:29-55 | createAmbientState builds exactly the pad graph: master gain 0 into the output, lowpass 1800 Hz Q 0.9 into it, three started oscillators sine/triangle/sine through gains 0.18/0.1/0.08 into the filter |
| Ambient.ReturnedOscillatorsStarted | app/page.tsx:40-54 | the oscillators handed back are exactly the started ones, each with its voice's waveform |
| Ambient.VoiceBankBuilds | app/page.tsx:40-48 | every command of the voice bank builds part of the graph |
| Ambient.AmbientCommandsBuild | app/page.tsx:29-55 | createAmbientState issues no speech, ramp, stop or timer command |
| Chords.ChordAt | app/page.tsx:142 | the chord for any counter value is one of the four chords |
| Chords.Target | app/page.tsx:144-146 | a voice's target is one of the chord's three notes, and the root for any voice beyond the third |
| Chords.Glide | app/page.tsx:147-148 | a glide is two commands on the oscillator's frequency only, cancelling ramps or setting a target, and builds nothing |
| Chords.Retune | app/page.tsx:145-149 | a retune issues two commands per oscillator |
| Chords.RetuneAt | app/page.tsx:145-149 | oscillator j's pending frequency ramps are cancelled at position 2j, and at 2j+1 its frequency glides towards voice j's note with time constant 1.6 s |
| Chords.RetuneIsInert | app/page.tsx:147-148 | a retune only cancels and sets frequency ramps and leaves the graph unchanged |
| Chords.VoiceBankChord | app/page.tsx:141-149 | retuning the three voice oscillators to chord index sends them to its root, third and fifth |
| Chords.SetChord | app/page.tsx:141-150 | setChord issues, oscillator by oscillator, the retune to chord index mod 4 |
| Chords.NextIndex | app/page.tsx:158 | the advanced counter stays below the number of chords |
| Chords.CounterAfter | app/page.tsx:155-158 | the counter after any number of callbacks stays below the number of chords |
| Chords.CounterCycles | app/page.tsx:152-159 | after k callbacks the counter is (k+1) mod 4, so callback k+1 plays chord (k+1) mod 4 and the progression cycles in order |
| Playback.Narration | app/page.tsx:125-131 | the narration is the fixed Hindi text in language "hi-IN" with the given voice, at rate 0.9 and pitch 0.85, slower and lower than the host's default of 1 |
| Playback.PadCommands | app/page.tsx:136-159 | the pad's commands open a new audio context, resume it, and end by starting the chord timer |
| Playback.StartCommands | app/page.tsx:119-165 | a start first cancels speech and then speaks the narration; it issues nothing more exactly when a pad already exists |
| Playback.PadCommandsShape | app/page.tsx:136-159 | the pad's commands open and resume a context first, contain no speech command, and start exactly one timer, as their last command |
| Playback.StartSpeaksOnce | app/page.tsx:119-166 | a start cancels speech, then speaks the narration, and speaks nothing else; with a pad already present it does nothing more; otherwise it starts exactly one chord timer, last |
| Playback.StartGraph | app/page.tsx:136-165 | a start adds exactly the pad graph when there is no pad and leaves the graph unchanged when there is one |
| Playback.FirstStartGraph | app/page.tsx:136-165 | a first start on a host with no graph leaves exactly the pad graph |
| Playback.PadGraph | app/page.tsx:137-159 | the pad's commands build what createAmbientState builds and nothing else |
| Playback.PadTailInert | app/page.tsx:152-159 | chord 0, the fade-in and the timer build nothing |
| Playback.StopAttempts | app/page.tsx:105-111 | one stop attempt per oscillator |
| Playback.StopOscillators | app/page.tsx:105-111 | every oscillator in order gets a stop attempt 1.2 s ahead; exactly those whose stop throws are recorded as logged, and the rest are still stopped |
| Playback.FadeOut | app/page.tsx:103-104 | the fade-out is two commands on the master gain only, builds nothing, and ends by gliding the gain to 0 |
| Playback.ClearTimer | app/page.tsx:112-114 | at most one command, and it clears timer t exactly when the timer id is t and t is non-zero |
| Playback.PadTeardown | app/page.tsx:101-115 | the pad's teardown has the fade-out's two commands, one stop attempt per oscillator and the timer clearing; oscillator j's stop attempt follows the fade-out at position 2+j |
| Playback.TeardownCommands | app/page.tsx:96-117 | teardown starts by cancelling speech; it issues nothing more exactly when there is no pad |
| Playback.TeardownIsInert | app/page.tsx:97-116 | teardown leaves the graph as it is |
| Playback.TeardownOrder | app/page.tsx:98-111 | teardown cancels speech first; with a pad it cancels the master gain's ramps before fading it to 0 with time constant 0.8 s, then tries to stop oscillator j at position 3+j |
| Playback.TeardownClearsTimer | app/page.tsx:112-114 | teardown clears timer t if and only if the pad's timer id is t and t is non-zero |
| Playback.TeardownStopsExactly | app/page.tsx:105-111 | the oscillators teardown tries to stop are exactly the pad's oscillators |
| Playback.TeardownStopAt | app/page.tsx:105-111 | any stop attempt in the teardown sits at position 3+j and stops the pad's oscillator j |
| Playback.StartThenTeardown | app/page.tsx:96-166 | the oscillators a first start leaves running are exactly those teardown stops, and the timer it starts is the one teardown clears |
| Playback.FailingStopIsAbsorbed | app/page.tsx:105-114 | when the second oscillator's stop throws, the third is still stopped and the timer still cleared |
| Page.Player.constructor | app/page.tsx:58-61 | the page starts not started, with no voice, no narration, no pad and no command issued |
| Page.Player.AssignVoice | app/page.tsx:79-86 | an empty voice list keeps the stored voice; otherwise the stored voice becomes the selected one (none when nothing mentions "hi"); nothing else changes |
| Page.Player.MountVoices | app/page.tsx:88-89 | assigns a voice and then installs the voices-changed handler |
| Page.Player.VoicesChanged | app/page.tsx:89 | while installed, the handler reassigns the voice as assignVoice does |
| Page.Player.HandleStart | app/page.tsx:119-166 | a second start changes nothing; a first start issues the speech and the pad commands, records the narration with the stored voice and the pad with the new timer id, sets the counter to 1, and keeps the invariant |
| Page.Player.SpeakNarration | app/page.tsx:123-134 | cancels speech, then speaks the narration built with the stored voice, and records it |
| Page.Player.StartPad | app/page.tsx:136-165 | issues the pad's commands and records the pad with its timer id and the counter at 1 |
| Page.Player.Tick | app/page.tsx:156-159 | callback number n glides the oscillators to chord n mod 4; the graph and the invariant are kept |
| Page.Player.Unmount | app/page.tsx:91-117 | removes the voices-changed handler and issues exactly the teardown commands for the current pad; the graph and the invariant are kept |
| Page.Player.StopPad | app/page.tsx:101-115 | issues the fade-out, the stop attempts and the timer clearing for the pad |

## Left out

- Rendering: the JSX markup, the CSS and the decorative bokeh particles with their random positions (`app/page.tsx:63-73` and the returned markup). They do not affect playback.
- `app/layout.tsx` is not part of this model. It is a static document shell.
- The `typeof window` guards. The handlers and effects only run in the browser, where they always hold.
- Time and sound: `context.currentTime` and the shape of the ramp curves are not modelled. Commands record the delays and time constants the page passes, not the audio produced.
- Web Audio defaults, such as an oscillator's frequency before chord 0 reaches it, are not modelled.
- Command granularity: creating a node and assigning its settings is one command. The order of those assignments within a node is not modelled.
- The `context` reference of the pad is not modelled. The role names identify the page's only audio context.
- Page.Player.HandleStart: asynchrony is not modelled. The handler is modelled as atomic, so the `await` on `context.resume()`, a second click while it is pending, and React's deferred state updates are not modelled.
- Page.Player.HandleStart: the voice it uses is the stored voice at the time of the call. The source's handler captures the voice of the last render, which is the same value when updates are atomic.
- Page.Player.Tick: requires that the page has not unmounted. It does not model a callback firing after teardown with a zero timer id, which the host never hands out.
- Failure modes beyond a throwing `stop()` are not modelled, e.g. an unavailable speech or audio facility, or `new AudioContext()` throwing.
- Page.Player.Unmount: the console message of a failed stop is not modelled. The model records only that the failure was caught and logged.
- Page.Player.Unmount: React runs each cleanup once. The model does not forbid a second call: it requires only the invariant, and a second call issues the teardown commands again, as the unguarded cleanup would.
- Voices.Lower: models `toLowerCase` only as far as the "hi" tests can observe it. ASCII capitals and U+0130 are lowered; every other character is kept, since no other character lowers to a string containing 'h' or 'i'.
- Voices.IsMaleName: the regular expression is case-insensitive without the unicode flag. In that mode non-ASCII letters fold only among themselves (é and É), never onto the pattern's ASCII letters, and the Devanagari letters of the pattern have no case. So the model folds only ASCII letters, which is all the pattern can observe.
- `narrationRef` is written but never read by the page. It is kept as the `narration` field.
