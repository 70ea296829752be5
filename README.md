# Curupira page script: session state machine

This project models the session logic of the Curupira site's page script
(`script.js`): the shared `state` record and the handlers that read or write
it. They are the interaction monitor, the idle escalator, the jumpscare
trigger and its callers, gallery navigation, the sound and theme toggles,
the tab switch and the typewriter stepper. It proves properties of that
model in Dafny.

Layout:

- `site_state.dfy`, module `SiteState`: the entities the record and its DOM
  effects are made of (themes, body classes, audio cues, timers, idle
  messages). It also holds the constants (0.03 and 0.15 chances, the
  30000 ms idle threshold, 400/800/1000 ms durations, the message delays,
  the image table, the five idle messages) and the pure lookups: image by
  intensity, hide delay, the cyclic gallery step, the idle-message index and
  the typing delay.
- `handlers.dfy`, module `Handlers`: `SessionView`, the record plus the
  parts of the document the handlers write, the audio requested so far and
  the pending timers. It has one function per handler from the old view to
  the new one; an `Event` type with `Apply` and `Run` for sequences of
  handler runs; and the invariant `Valid`.
- `handler_lemmas.dfy`, module `HandlerLemmas`: the properties, one call at
  a time and over whole event sequences.
- `page.dfy`, module `Page`: class `Session`, whose fields are the record
  and its document state, and class `Typewriter`, whose fields are the
  captured counter `i`, the element's text and `isTyping`. Every handler is
  a method that updates the fields in place. Each one is proved to keep
  `Valid()` and to end in exactly the state the matching `Handlers` function
  gives for the old state.

How the outside world appears in the model:

- `Date.now()` is a parameter `now: int`, in milliseconds.
- Every `Math.random()` is a parameter `draw: real` with `0 <= draw < 1`.
- Probabilities are exact reals.
- Each `setTimeout` appends a `Timer(delay, action)` to `pending`; timers
  are never cancelled. `RunTimer(k)` fires the `k`-th one: it leaves the
  queue and its callback's body runs.
- Audio requests are appended to `audio` as `Play(cue)` or `Pause(cue)`.
- What the markup supplies before any handler runs (body classes,
  indicator texts, the jumpscare image and surface) is a `Page` value given
  to the constructor.

The idle message is revealed after 100 ms and loses its `show` class at 3000 ms.
It is removed 500 ms after that, not faded over a separate hold period. The
idle poll is level-triggered: every poll past the threshold escalates again
and adds another message.

## Model

| member | source | states |
|---|---|---|
| SiteState.ImageFor | script.js:432-438 | the image is the table's entry for a known intensity and the mild image for every other string; it is always one of the three table images |
| SiteState.HideDelay | script.js:446-447 | the surface stays 800 ms exactly when the intensity is "wild", 400 ms exactly for every other string |
| SiteState.Stepped | script.js:319-323 | the new gallery index is below the slide count; from inside the range, prev goes one back and wraps 0 to n-1, next goes one on and wraps n-1 to 0 |
| SiteState.IdleMessageIndex | script.js:480-491 | the chosen message position is below the list's length (5) and is the floor of draw times 5 |
| SiteState.TypingDelay | script.js:262-264 | the delay before the next character lies in [50, 150) ms |
| HandlerLemmas.CueCountIsThird | script.js:258-260 | typing a whole text with sound on issues floor(length / 3) typing cues, one per third character |
| HandlerLemmas.CuesFromCount | script.js:256-260 | the cues of the steps from count `start` up by `n` are one typing cue for each count reached that is a multiple of 3: CueCount(start + n) - CueCount(start) of them |
| HandlerLemmas.TimerStepsCues | script.js:253-264 | while sound is on, a chain of steps each run by the typewriter's queued timer, from count `start`, adds exactly the cues of the counts it reaches, and nothing else, to the audio log |
| HandlerLemmas.TimerStepsKeepOneQueued | script.js:253-264 | a chain of timer-run steps keeps the number of queued typewriter steps: each consumes the step it runs and queues one |
| HandlerLemmas.PageTypingAudio | script.js:241-264 | the page's own typing run (the observer's first step, then the timer's steps) with sound on adds the cues of the counts 1 to the text length, and nothing else, to the audio log |
| HandlerLemmas.PageTypingQueue | script.js:241-264 | the page's typing run queues one typewriter step in total for a non-empty text and none for an empty one: the steps never pile up |
| HandlerLemmas.WholeTextCues | script.js:241-264 | the page typing a whole text with sound on adds exactly length / 3 (rounded down) typing cues to the audio log and leaves one more typewriter step queued than before (none for an empty text) |
| HandlerLemmas.StepsAreInverse | script.js:319-323 | next then prev, and prev then next, return to the starting index |
| HandlerLemmas.NavigateKeepsIndexInRange | script.js:316-323 | after a navigation the gallery index is in [0, n), whatever it was before |
| HandlerLemmas.GalleryRoundTrip | script.js:316-331 | a gallery round trip that draws no jumpscare, or runs with sound off, restores the whole session state |
| HandlerLemmas.InteractResets | script.js:506-514 | a monitored input sets the last interaction to now and the chance to 0.03, and changes nothing else |
| HandlerLemmas.IdlePollEscalates | script.js:464-477 | past 30000 ms idle, a poll sets the chance to 0.15 and adds exactly one message with the drawn text and its two timers, even if already escalated; nothing else changes |
| HandlerLemmas.IdlePollQuiet | script.js:467-476 | within 30000 ms of the last input, a poll changes nothing and shows nothing |
| HandlerLemmas.IdlePollIsLevelTriggered | script.js:467-476 | two polls over an idle user add two messages and leave the chance at 0.15 |
| HandlerLemmas.InteractionPostponesEscalation | script.js:465-469 | after an input at t, a poll at any time up to t + 30000 changes nothing |
| HandlerLemmas.ApplyKeepsEscalation | script.js:505-514 | no handler except the input listener lowers an escalated chance |
| HandlerLemmas.EscalationPersists | script.js:469-471 | once escalated, the chance stays 0.15 over any run of events that contains no monitored input |
| HandlerLemmas.RunPreservesValid | script.js:14 | after any sequence of events the chance is exactly 0.03 or 0.15, and every pending message timer names an existing message |
| HandlerLemmas.InputAlwaysResets | script.js:509-513 | after any history, the state right after a monitored input has chance 0.03 and last interaction equal to that input's time |
| Handlers.ApplyPreservesValid | script.js:8-16 | every handler keeps the invariant of the state record |
| HandlerLemmas.TriggerMuted | script.js:427-429 | with sound off the trigger changes nothing: no surface change, no timers, no shake, no audio |
| HandlerLemmas.TriggerEffect | script.js:427-461 | with sound on it shows the intensity's image (mild for unknown strings), plays the jumpscare cue, activates the surface, queues the hide after 800 ms for "wild" and 400 ms otherwise, and adds the shake with its 1000 ms removal exactly for "wild"; nothing else changes |
| HandlerLemmas.UnknownIntensityActsAsMild | script.js:432-447 | an intensity other than mild/medium/wild behaves exactly like "mild" |
| HandlerLemmas.MediumScenario | script.js:438-452 | "medium" shows its own image, queues a 400 ms hide and does not shake |
| HandlerLemmas.WildIsReversed | script.js:446-459 | "wild" queues an 800 ms hide and a 1000 ms shake removal; firing both hides the surface, removes the shake and leaves the queue as before |
| HandlerLemmas.ToggleSoundTwice | script.js:179-189 | two sound toggles restore the flag and everything except the indicator and the audio log; the ambient loop was played and paused in flag order, and the indicator matches the flag |
| HandlerLemmas.ToggleThemeSwaps | script.js:209-224 | a theme toggle swaps the theme, leaves exactly the new theme's body class, and sets the matching indicator text and icon |
| HandlerLemmas.ToggleThemeTwice | script.js:209-230 | two theme toggles restore the theme and, when the body's theme class agreed with it, the body classes, whatever was drawn |
| Page.Session.constructor | script.js:8-16 | the record starts with sound off, dark theme, index 0, tab "images", chance 0.03, last interaction now, nothing pending |
| Page.Session.PlaySound | script.js:191-202 | a cue is requested only while sound is enabled |
| Page.Session.ToggleSound | script.js:179-189 | the flag flips, the indicator follows it, the ambient loop is played or paused; the new state is `Handlers.ToggleSound` of the old |
| Page.Session.ToggleTheme | script.js:209-230 | the theme always changes; the new state is the flip followed, when the draw is under 0.15, by a mild trigger |
| Page.Session.TriggerJumpscare | script.js:427-461 | with sound off the state is unchanged; otherwise the new state is `Handlers.TriggerJumpscare` of the old, as stated by the trigger lemmas |
| Page.Session.NavigateGallery | script.js:316-331 | the new index is below the slide count; the new state is the cyclic step followed, when the draw is under the current chance, by a mild trigger |
| Page.Session.OnInteraction | script.js:506-514 | last interaction becomes now and the chance 0.03; nothing else changes |
| Page.Session.ShowIdleMessage | script.js:479-503 | one message element with the drawn text is added, with its reveal at 100 ms and its fade at 3000 ms queued |
| Page.Session.IdlePoll | script.js:464-477 | past the threshold the chance becomes 0.15 and a message is shown; otherwise the state is unchanged |
| Page.Session.AmbientPoll | script.js:517-521 | with sound on and the first draw under 0.01, a trigger runs, "wild" when the second draw is under 0.3 and "mild" otherwise; otherwise nothing |
| Page.Session.OnDownloadHover | script.js:418-424 | a mild trigger runs when the draw is under 0.2 |
| Page.Session.SwitchTab | script.js:293-294 | the active tab becomes the clicked one; nothing else changes |
| Page.Session.RunTimer | script.js:450-502 | a fired timer leaves the queue and its callback runs: hide the surface, remove the shake, reveal, fade (queueing the 500 ms removal) or detach an idle message |
| Page.Typewriter.constructor | script.js:233-239 | the typewriter keeps the element's text, shows nothing, has typed nothing and has not started |
| Page.Typewriter.Step | script.js:253-266 | before the end, `i` grows by one, the element shows `text[..i]`, a typing cue is issued exactly when sound is on and `i % 3 == 0`, and the next step is queued; at the end nothing changes |
| Page.Typewriter.OnIntersect | script.js:241-251 | typing starts on the first intersecting entry and never again; on that start the first step runs, which does nothing when the text is already shown; without a start nothing changes |
| Page.Typewriter.RunStepTimer | script.js:253-264 | the typewriter's fired timer leaves the queue and one more step runs; whether typing has started is unchanged, so a later intersection does not start it again; the new session state is the `TypedFromTimer` event before the end of the text and the `TypingTimerEnds` event at the end |
| Handlers.TakeTypingTimerPreservesValid | script.js:262-264 | removing a fired typewriter timer from the queue keeps the invariant of the state record |
| HandlerLemmas.TypingEventsKeepOneStepQueued | script.js:253-264 | a typewriter step adds one queued step; a fired step that types again leaves the number of queued steps unchanged; a fired step at the end of the text removes one |
| HandlerLemmas.OtherEventsKeepTypingTimers | script.js:253-264 | no handler other than the typewriter's changes the number of queued typewriter steps |

## Left out

- Cursor following, mouseleave hiding and the trail delay: DOM positioning only.
- Scroll handling: the nav `scrolled` class depends on the browser's scroll position, and the parallax multiplies by 0.3 in floating point.
- Audio creation, preloading, `cloneNode`, `play` and `pause`: browser audio API. Audio appears only as a log of requested cues.
- The `data-sound` hover and click listeners: event wiring whose only effect is `PlaySound`, which is modelled.
- Event-loop timing, `setInterval` periods and overlapping-trigger races: delays are recorded on queued timers, but which timer fires when is left to the caller of `RunTimer`. The 10 s idle-poll and 30 s ambient-poll periods are not modelled.
- The loading screen, `updateGallery`'s pixel transform (it needs `offsetWidth`), the tab buttons' and contents' class updates, smooth scrolling and the injected CSS: DOM side effects with no state beyond the fields modelled.
- The contact form: its submit listener shows a success message (DOM only) and then runs `triggerJumpscare('mild')` (script.js:354), which is the transition of the `JumpscareClick("mild")` event; the listener itself is not a separate event.
- The summon button: `triggerSummon` requests the jumpscare cue through `playSound` (script.js:382) and, one second later, plays a fresh `Audio` element while sound is on (script.js:387-389), then hides its overlay after 4 s. None of this is modelled, so these cue requests do not appear in the audio log.
- The `jumpscareTimeout` field of the record: it is never read or written after it is initialised.
- Floating point: draws are compared with the exact reals 0.03, 0.15, 0.2, 0.01 and 0.3, and products and sums of draws are exact. The comparisons differ from the browser only for draws between a constant and its nearest double; the computed index and delay can also differ, as the next two lines say.
- SiteState.IdleMessageIndex: the floor is taken of the exact product draw * 5. In the browser the product is rounded to a double first, so for the double nearest 0.6 (slightly below 0.6) the browser computes 3.0 and shows message 3, where the model gives 2.
- SiteState.TypingDelay: over exact reals the delay is below 150 ms. In the browser the largest draw, 1 - 2^-53, gives (1 - 2^-53) * 100 + 50, which rounds to exactly 150.0.
- Page.Session.NavigateGallery: requires at least one slide. With no slides the script's index becomes NaN and `updateGallery` then throws; that path is not modelled.
- SiteState.ImageFor: models the image table as a lookup over its three own keys. A string naming an inherited object property (such as "toString") would, in the script, yield that property instead of the mild image; this is not modelled.
- Page.Typewriter.Step: strings are sequences of Unicode scalar values, not of the UTF-16 code units that `charAt` indexes.
- Page.Typewriter.OnIntersect: handles one observer entry per call; a callback with several entries is several calls.
- Timer events: an event naming a timer that is not pending does nothing. The typewriter's own timer is not fired by `TimerFires` or `Session.RunTimer`. It is consumed by `TypedFromTimer` (the timer fires and one more character is typed) or `TypingTimerEnds` (the timer fires at the end of the text), which `Typewriter.RunStepTimer` performs. The text and count live in the `Typewriter` object; at the event level the caller passes the count reached.
- HandlerLemmas.WholeTextCues: the page's typing run (`PageTyping`) contains only the typewriter's own events, and each timer-run step fires the first queued typewriter step (`FindTypingTimer`). Other handlers running between the steps are covered for the queued-step count by `OtherEventsKeepTypingTimers`, but the cue count is not stated for such mixed runs, because a sound toggle in between changes which steps cue.
