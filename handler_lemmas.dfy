/** What the page's handlers promise, one call at a time and over whole
    sequences of events. */
module HandlerLemmas {
  import opened SiteState
  import opened Handlers

  // ---------------------------------------------------------------------
  // Gallery

  /** Pressing "next" and then "prev" returns to the slide one started from,
      and so does the other order. */
  lemma StepsAreInverse(i: nat, n: nat)
    requires i < n
    ensures Stepped(Stepped(i, n, Next), n, Prev) == i
    ensures Stepped(Stepped(i, n, Prev), n, Next) == i
  {
  }

  /** The gallery index stays among the slides, whatever it was before. */
  lemma NavigateKeepsIndexInRange(v: SessionView, dir: Direction, n: nat, draw: real)
    requires n > 0
    ensures NavigateGallery(v, dir, n, draw).galleryIndex < n
  {
  }

  /** A gallery round trip that draws no jumpscare (or runs with sound off)
      gives back exactly the session it started from. */
  lemma GalleryRoundTrip(v: SessionView, n: nat, first: Direction, d1: real, d2: real)
    requires v.galleryIndex < n
    requires !v.soundEnabled || (d1 >= v.jumpscareChance && d2 >= v.jumpscareChance)
    ensures var back := if first == Next then Prev else Next;
            NavigateGallery(NavigateGallery(v, first, n, d1), back, n, d2) == v
  {
    StepsAreInverse(v.galleryIndex, n);
  }

  // ---------------------------------------------------------------------
  // Interaction monitor and idle escalator

  /** A monitored input stamps the time and drops the chance to baseline,
      and touches nothing else. */
  lemma InteractResets(v: SessionView, now: int)
    ensures var w := Interact(v, now);
            w.lastInteraction == now && w.jumpscareChance == Baseline &&
            w.(lastInteraction := v.lastInteraction, jumpscareChance := v.jumpscareChance) == v
  {
  }

  /** An idle poll past the threshold sets the escalated chance and adds
      exactly one message element, with the drawn text and its two timers;
      it does so again on every later poll while the user stays idle. */
  lemma IdlePollEscalates(v: SessionView, now: int, draw: real)
    requires IsDraw(draw) && IsIdle(v, now)
    ensures var w := IdlePoll(v, now, draw);
            var k := |v.idleMessages|;
            w.jumpscareChance == Escalated &&
            w.idleMessages == v.idleMessages + [IdleMessage(IdleMessageTexts[IdleMessageIndex(draw)], false, true)] &&
            w.pending == v.pending + [Timer(MessageShowDelay, RevealMessage(k)), Timer(MessageFadeDelay, FadeMessage(k))] &&
            w.(jumpscareChance := v.jumpscareChance, idleMessages := v.idleMessages, pending := v.pending) == v
  {
  }

  /** An idle poll within the threshold changes nothing and shows nothing. */
  lemma IdlePollQuiet(v: SessionView, now: int, draw: real)
    requires IsDraw(draw) && !IsIdle(v, now)
    ensures IdlePoll(v, now, draw) == v
  {
  }

  /** Repeated idle polls over an idle user: each one adds another message. */
  lemma IdlePollIsLevelTriggered(v: SessionView, now: int, later: int, d1: real, d2: real)
    requires IsDraw(d1) && IsDraw(d2) && IsIdle(v, now) && later >= now
    ensures var w := IdlePoll(IdlePoll(v, now, d1), later, d2);
            w.jumpscareChance == Escalated && |w.idleMessages| == |v.idleMessages| + 2
  {
  }

  /** After an input at `t`, no poll up to `t + 30000` escalates anything. */
  lemma InteractionPostponesEscalation(v: SessionView, t: int, now: int, draw: real)
    requires IsDraw(draw) && now - t <= IdleThreshold
    ensures IdlePoll(Interact(v, t), now, draw) == Interact(v, t)
  {
  }

  /** Every handler other than the input listener leaves an escalated chance
      escalated. */
  lemma ApplyKeepsEscalation(v: SessionView, e: Event)
    requires Valid(v) && WellFormed(e) && !e.Input?
    requires v.jumpscareChance == Escalated
    ensures Apply(v, e).jumpscareChance == Escalated
  {
  }

  /** Once escalated, the chance reads 0.15 until the next monitored input,
      whatever else happens. */
  lemma {:induction false} EscalationPersists(v: SessionView, es: seq<Event>)
    requires Valid(v)
    requires forall j :: 0 <= j < |es| ==> WellFormed(es[j]) && !es[j].Input?
    requires v.jumpscareChance == Escalated
    ensures Run(v, es).jumpscareChance == Escalated
    decreases |es|
  {
    if es != [] {
      ApplyPreservesValid(v, es[0]);
      ApplyKeepsEscalation(v, es[0]);
      EscalationPersists(Apply(v, es[0]), es[1..]);
    }
  }

  /** The chance is 0.03 or 0.15 after any sequence of events. */
  lemma {:induction false} RunPreservesValid(v: SessionView, es: seq<Event>)
    requires Valid(v)
    requires forall j :: 0 <= j < |es| ==> WellFormed(es[j])
    ensures Valid(Run(v, es))
    ensures Run(v, es).jumpscareChance == Baseline || Run(v, es).jumpscareChance == Escalated
    decreases |es|
  {
    if es != [] {
      ApplyPreservesValid(v, es[0]);
      RunPreservesValid(Apply(v, es[0]), es[1..]);
    }
  }

  /** Running one more event is applying it to the state reached so far. */
  lemma {:induction false} RunSnoc(v: SessionView, es: seq<Event>, e: Event)
    requires Valid(v)
    requires forall j :: 0 <= j < |es| ==> WellFormed(es[j])
    requires WellFormed(e)
    ensures Valid(Run(v, es))
    ensures Run(v, es + [e]) == Apply(Run(v, es), e)
    decreases |es|
  {
    RunPreservesValid(v, es);
    if es == [] {
      assert es + [e] == [e];
    } else {
      ApplyPreservesValid(v, es[0]);
      assert (es + [e])[1..] == es[1..] + [e];
      RunSnoc(Apply(v, es[0]), es[1..], e);
    }
  }

  /** Right after any monitored input, whatever came before, the chance is
      0.03 and the last interaction is that input's time. */
  lemma InputAlwaysResets(v: SessionView, es: seq<Event>, kind: InputKind, now: int)
    requires Valid(v)
    requires forall j :: 0 <= j < |es| ==> WellFormed(es[j])
    ensures forall j :: 0 <= j < |es + [Input(kind, now)]| ==> WellFormed((es + [Input(kind, now)])[j])
    ensures Run(v, es + [Input(kind, now)]).jumpscareChance == Baseline
    ensures Run(v, es + [Input(kind, now)]).lastInteraction == now
  {
    assert forall j :: 0 <= j < |es + [Input(kind, now)]| ==>
      (es + [Input(kind, now)])[j] == if j < |es| then es[j] else Input(kind, now);
    RunSnoc(v, es, Input(kind, now));
  }

  // ---------------------------------------------------------------------
  // Jumpscare trigger

  /** With sound off the trigger is a no-op. */
  lemma TriggerMuted(v: SessionView, intensity: string)
    requires !v.soundEnabled
    ensures TriggerJumpscare(v, intensity) == v
  {
  }

  /** With sound on: the intensity's image (the mild one for an unknown
      string), the jumpscare cue, the surface active with its hide queued
      after 800 ms for "wild" and 400 ms otherwise, and the shake with its
      removal after 1000 ms exactly for "wild". Nothing else changes. */
  lemma TriggerEffect(v: SessionView, intensity: string)
    requires v.soundEnabled
    ensures var w := TriggerJumpscare(v, intensity);
            var wild := intensity == "wild";
            w.jumpscareActive &&
            w.jumpscareImage == (if intensity in {"mild", "medium", "wild"} then ImageTable[intensity] else MildImage) &&
            w.audio == v.audio + [Play(JumpscareCue)] &&
            w.pending == v.pending + [Timer(if wild then 800.0 else 400.0, HideJumpscare)]
                                   + (if wild then [Timer(1000.0, RemoveShake)] else []) &&
            w.bodyClasses == (if wild then v.bodyClasses + {Shake} else v.bodyClasses) &&
            w.(jumpscareActive := v.jumpscareActive, jumpscareImage := v.jumpscareImage,
               audio := v.audio, pending := v.pending, bodyClasses := v.bodyClasses) == v
  {
  }

  /** An intensity outside the table behaves exactly like "mild". */
  lemma UnknownIntensityActsAsMild(v: SessionView, intensity: string)
    requires intensity !in {"mild", "medium", "wild"}
    ensures TriggerJumpscare(v, intensity) == TriggerJumpscare(v, "mild")
  {
  }

  /** "medium" shows its own image for 400 ms and does not shake. */
  lemma MediumScenario(v: SessionView)
    requires v.soundEnabled
    ensures var w := TriggerJumpscare(v, "medium");
            w.jumpscareImage == MediumImage &&
            w.pending == v.pending + [Timer(400.0, HideJumpscare)] &&
            w.bodyClasses == v.bodyClasses
  {
  }

  /** "wild" queues its two reversals independently: when both have run, the
      surface is hidden, the shake is gone and the queue is as before. */
  lemma WildIsReversed(v: SessionView)
    requires Valid(v) && v.soundEnabled && Shake !in v.bodyClasses
    ensures var w := TriggerJumpscare(v, "wild");
            var n := |v.pending|;
            Valid(w) && |w.pending| == n + 2 &&
            w.pending[n] == Timer(800.0, HideJumpscare) &&
            w.pending[n + 1] == Timer(1000.0, RemoveShake) &&
            var hidden := RunTimer(w, n);
            Valid(hidden) && |hidden.pending| == n + 1 && !hidden.jumpscareActive &&
            Shake in hidden.bodyClasses &&
            var done := RunTimer(hidden, n);
            !done.jumpscareActive && done.bodyClasses == v.bodyClasses && done.pending == v.pending
  {
    var w := TriggerJumpscare(v, "wild");
    var n := |v.pending|;
    TriggerPreservesValid(v, "wild");
    RunTimerPreservesValid(w, n);
    var hidden := RunTimer(w, n);
    assert hidden.pending == v.pending + [Timer(1000.0, RemoveShake)];
    var done := RunTimer(hidden, n);
    assert done.pending == v.pending;
  }

  // ---------------------------------------------------------------------
  // Toggles

  /** Two sound toggles give the flag back; the ambient loop was started and
      paused (or paused and started), and the indicator matches the flag. */
  lemma ToggleSoundTwice(v: SessionView)
    ensures var w := ToggleSound(ToggleSound(v));
            w.soundEnabled == v.soundEnabled &&
            w.soundIndicator == SoundIndicatorFor(v.soundEnabled) &&
            w.audio == v.audio + (if v.soundEnabled then [Pause(AmbientCue), Play(AmbientCue)]
                                  else [Play(AmbientCue), Pause(AmbientCue)]) &&
            w.(soundIndicator := v.soundIndicator, audio := v.audio) == v
  {
  }

  /** The body carries the theme class of the current theme and not the
      other one. */
  predicate ThemeClassesAgree(v: SessionView) {
    if v.currentTheme == Dark then
      DarkTheme in v.bodyClasses && InfernalTheme !in v.bodyClasses
    else
      InfernalTheme in v.bodyClasses && DarkTheme !in v.bodyClasses
  }

  /** One theme toggle swaps the theme and leaves the body's theme class in
      agreement with it, whatever the markup started with. */
  lemma ToggleThemeSwaps(v: SessionView, draw: real)
    ensures var w := ToggleTheme(v, draw);
            w.currentTheme != v.currentTheme && ThemeClassesAgree(w) &&
            w.themeIndicator == (if w.currentTheme == Dark then DarkIndicatorText else InfernalIndicatorText) &&
            w.themeIcon == (if w.currentTheme == Dark then MoonIcon else SunIcon)
  {
  }

  /** Two theme toggles give back the theme and, when they agreed, the body's
      classes, whatever the two draws were. */
  lemma ToggleThemeTwice(v: SessionView, d1: real, d2: real)
    ensures var w := ToggleTheme(ToggleTheme(v, d1), d2);
            w.currentTheme == v.currentTheme &&
            (ThemeClassesAgree(v) ==> w.bodyClasses == v.bodyClasses)
  {
  }

  // ---------------------------------------------------------------------
  // Typewriter

  /** How many typewriter steps are queued. */
  function TypingTimerCount(p: seq<Timer>): nat
    decreases |p|
  {
    if p == [] then 0
    else (if p[0].action.TypeNextChar? then 1 else 0) + TypingTimerCount(p[1..])
  }

  lemma {:induction false} TypingTimerCountAppend(p: seq<Timer>, q: seq<Timer>)
    ensures TypingTimerCount(p + q) == TypingTimerCount(p) + TypingTimerCount(q)
    decreases |p|
  {
    if p == [] {
      assert p + q == q;
    } else {
      assert (p + q)[1..] == p[1..] + q;
      TypingTimerCountAppend(p[1..], q);
    }
  }

  lemma {:induction false} TypingTimerCountWithout(p: seq<Timer>, k: nat)
    requires k < |p|
    ensures TypingTimerCount(Without(p, k)) + (if p[k].action.TypeNextChar? then 1 else 0) == TypingTimerCount(p)
  {
    var before, here, after := p[..k], [p[k]], p[k + 1..];
    assert p == before + (here + after);
    assert Without(p, k) == before + after;
    TypingTimerCountAppend(before, here + after);
    TypingTimerCountAppend(here, after);
    TypingTimerCountAppend(before, after);
    assert TypingTimerCount(here) == (if p[k].action.TypeNextChar? then 1 else 0) by {
      assert here[1..] == [];
    }
  }

  /** The typewriter keeps its one queued step: starting typing queues one,
      a step its timer runs takes that timer and queues the next, and the
      timer that finds the text complete queues nothing. */
  lemma {:induction false} TypingEventsKeepOneStepQueued(v: SessionView, e: Event)
    requires Valid(v) && WellFormed(e)
    ensures e.Typed? ==> TypingTimerCount(Apply(v, e).pending) == TypingTimerCount(v.pending) + 1
    ensures (e.TypedFromTimer? && e.k < |v.pending| && v.pending[e.k].action.TypeNextChar?) ==>
              TypingTimerCount(Apply(v, e).pending) == TypingTimerCount(v.pending)
    ensures (e.TypingTimerEnds? && e.k < |v.pending| && v.pending[e.k].action.TypeNextChar?) ==>
              TypingTimerCount(Apply(v, e).pending) + 1 == TypingTimerCount(v.pending)
  {
    match e
    case Typed(typed, draw) =>
      var w := if v.soundEnabled && CuesAt(typed) then PlaySound(v, TypingCue) else v;
      TypingTimerCountAppend(w.pending, [Timer(TypingDelay(draw), TypeNextChar)]);
      assert TypingTimerCount([Timer(TypingDelay(draw), TypeNextChar)]) == 1 by {
        assert [Timer(TypingDelay(draw), TypeNextChar)][1..] == [];
      }
    case TypedFromTimer(k, typed, draw) =>
      if k < |v.pending| && v.pending[k].action.TypeNextChar? {
        TypingTimerCountWithout(v.pending, k);
        var u := TakeTypingTimer(v, k);
        var w := if u.soundEnabled && CuesAt(typed) then PlaySound(u, TypingCue) else u;
        TypingTimerCountAppend(w.pending, [Timer(TypingDelay(draw), TypeNextChar)]);
        assert TypingTimerCount([Timer(TypingDelay(draw), TypeNextChar)]) == 1 by {
          assert [Timer(TypingDelay(draw), TypeNextChar)][1..] == [];
        }
      }
    case TypingTimerEnds(k) =>
      if k < |v.pending| && v.pending[k].action.TypeNextChar? {
        TypingTimerCountWithout(v.pending, k);
      }
    case _ =>
  }

  /** Timers other than the typewriter's add no queued step. */
  lemma {:induction false} NoTypingTimers(q: seq<Timer>)
    requires forall j :: 0 <= j < |q| ==> !q[j].action.TypeNextChar?
    ensures TypingTimerCount(q) == 0
    decreases |q|
  {
    if q != [] {
      NoTypingTimers(q[1..]);
    }
  }

  lemma {:induction false} TriggerKeepsTypingTimers(v: SessionView, intensity: string)
    ensures TypingTimerCount(TriggerJumpscare(v, intensity).pending) == TypingTimerCount(v.pending)
  {
    var w := TriggerJumpscare(v, intensity);
    if v.soundEnabled {
      var added := w.pending[|v.pending|..];
      assert w.pending == v.pending + added;
      NoTypingTimers(added);
      TypingTimerCountAppend(v.pending, added);
    }
  }

  /** No handler but the typewriter's queues or removes a typewriter step. */
  lemma {:induction false} OtherEventsKeepTypingTimers(v: SessionView, e: Event)
    requires Valid(v) && WellFormed(e)
    requires !e.Typed? && !e.TypedFromTimer? && !e.TypingTimerEnds?
    ensures TypingTimerCount(Apply(v, e).pending) == TypingTimerCount(v.pending)
  {
    match e
    case ThemeToggle(draw) => TriggerKeepsTypingTimers(FlipTheme(v), "mild");
    case GalleryNav(dir, slides, draw) =>
      TriggerKeepsTypingTimers(v.(galleryIndex := Stepped(v.galleryIndex, slides, dir)), "mild");
    case AmbientTick(draw, intensityDraw) =>
      TriggerKeepsTypingTimers(v, if intensityDraw < AmbientWildChance then "wild" else "mild");
    case DownloadEnter(draw) => TriggerKeepsTypingTimers(v, "mild");
    case JumpscareClick(intensity) => TriggerKeepsTypingTimers(v, intensity);
    case EasterEggClick => TriggerKeepsTypingTimers(v, "wild");
    case IdleTick(now, draw) => IdlePollKeepsTypingTimers(v, now, draw);
    case TimerFires(k) =>
      if k < |v.pending| && !v.pending[k].action.TypeNextChar? {
        RunTimerKeepsTypingTimers(v, k);
      }
    case _ =>
  }

  lemma {:induction false} IdlePollKeepsTypingTimers(v: SessionView, now: int, draw: real)
    requires IsDraw(draw)
    ensures TypingTimerCount(IdlePoll(v, now, draw).pending) == TypingTimerCount(v.pending)
  {
    if IsIdle(v, now) {
      var w := IdlePoll(v, now, draw);
      var added := w.pending[|v.pending|..];
      assert w.pending == v.pending + added;
      NoTypingTimers(added);
      TypingTimerCountAppend(v.pending, added);
    }
  }

  lemma {:induction false} RunTimerKeepsTypingTimers(v: SessionView, k: nat)
    requires Valid(v) && k < |v.pending| && !v.pending[k].action.TypeNextChar?
    ensures TypingTimerCount(RunTimer(v, k).pending) == TypingTimerCount(v.pending)
  {
    var rest := Without(v.pending, k);
    TypingTimerCountWithout(v.pending, k);
    if v.pending[k].action.FadeMessage? {
      var added := [Timer(MessageRemoveDelay, RemoveMessage(v.pending[k].action.k))];
      assert RunTimer(v, k).pending == rest + added;
      NoTypingTimers(added);
      TypingTimerCountAppend(rest, added);
    }
  }

  /** The position of the first queued typewriter step, or `|p|` when none
      is queued. */
  function FindTypingTimer(p: seq<Timer>): (k: nat)
    ensures k <= |p|
    ensures k < |p| ==> p[k].action.TypeNextChar?
    ensures forall j :: 0 <= j < k ==> !p[j].action.TypeNextChar?
    decreases |p|
  {
    if p == [] || p[0].action.TypeNextChar? then 0
    else
      var k := FindTypingTimer(p[1..]);
      assert forall j :: 1 <= j < 1 + k ==> p[j] == p[1..][j - 1];
      1 + k
  }

  /** The steps the typewriter's own timer runs, one per draw, from typed
      count `start`: each fires the typewriter step queued in the state the
      previous one reached and types the next character. */
  function TimerSteps(v: SessionView, start: nat, draws: seq<real>): (es: seq<Event>)
    requires Valid(v)
    requires forall j :: 0 <= j < |draws| ==> IsDraw(draws[j])
    ensures |es| == |draws|
    ensures forall j :: 0 <= j < |es| ==>
      es[j].TypedFromTimer? && es[j].typed == start + 1 + j && es[j].draw == draws[j]
    decreases |draws|
  {
    if draws == [] then []
    else
      var e := TypedFromTimer(FindTypingTimer(v.pending), start + 1, draws[0]);
      ApplyPreservesValid(v, e);
      [e] + TimerSteps(Apply(v, e), start + 1, draws[1..])
  }

  /** The events of the page typing a text of `|draws|` characters: the
      observer's start types the first one, and every later one is typed by
      the timer the step before it queued. */
  function PageTyping(v: SessionView, draws: seq<real>): (es: seq<Event>)
    requires Valid(v)
    requires forall j :: 0 <= j < |draws| ==> IsDraw(draws[j])
    ensures |es| == |draws|
    ensures forall j :: 0 <= j < |es| ==> WellFormed(es[j])
  {
    if draws == [] then []
    else
      var e := Typed(1, draws[0]);
      ApplyPreservesValid(v, e);
      [e] + TimerSteps(Apply(v, e), 1, draws[1..])
  }

  function TypingCues(n: nat): (cues: seq<AudioEvent>)
    ensures |cues| == n && forall j :: 0 <= j < n ==> cues[j] == Play(TypingCue)
  {
    seq(n, _ => Play(TypingCue))
  }

  /** A step the typewriter's timer runs leaves the session with its one
      queued typewriter step, now at the end of the queue. */
  lemma StepLeavesStepQueued(v: SessionView, e: Event)
    requires Valid(v) && WellFormed(e)
    requires e.Typed? || (e.TypedFromTimer? && e.k < |v.pending| && v.pending[e.k].action.TypeNextChar?)
    ensures FindTypingTimer(Apply(v, e).pending) < |Apply(v, e).pending|
  {
    var p := Apply(v, e).pending;
    assert p[|p| - 1].action.TypeNextChar?;
  }

  /** The typing cues of the steps that bring the typed count from `start`
      up by `n`: one for each new count that is a multiple of three. */
  function CuesFrom(start: nat, n: nat): seq<AudioEvent>
    decreases n
  {
    if n == 0 then [] else StepCue(start + 1) + CuesFrom(start + 1, n - 1)
  }

  /** The cue of the step that makes the typed count `typed`. */
  function StepCue(typed: nat): seq<AudioEvent> {
    if CuesAt(typed) then [Play(TypingCue)] else []
  }

  /** `CuesFrom` issues one cue per count in (start, start + n] that is a
      multiple of three. */
  lemma {:induction false} CuesFromCount(start: nat, n: nat)
    ensures CueCount(start) <= CueCount(start + n)
    ensures CuesFrom(start, n) == TypingCues(CueCount(start + n) - CueCount(start))
    decreases n
  {
    if n == 0 {
      assert TypingCues(0) == [];
    } else {
      CuesFromCount(start + 1, n - 1);
      var now := if CuesAt(start + 1) then 1 else 0;
      assert CueCount(start + 1) == CueCount(start) + now;
      var later := CueCount(start + n) - CueCount(start + 1);
      assert StepCue(start + 1) == TypingCues(now);
      assert CuesFrom(start, n) == TypingCues(now) + TypingCues(later);
      TypingCuesAppend(now, later);
    }
  }

  /** One step run by the typewriter's queued timer, with sound on: sound
      stays on, the step's cue is added, and one typewriter step is still
      queued. */
  lemma TimerStepCues(v: SessionView, k: nat, typed: nat, draw: real)
    requires Valid(v) && v.soundEnabled && IsDraw(draw)
    requires k < |v.pending| && v.pending[k].action.TypeNextChar?
    ensures Valid(Apply(v, TypedFromTimer(k, typed, draw)))
    ensures Apply(v, TypedFromTimer(k, typed, draw)).soundEnabled
    ensures Apply(v, TypedFromTimer(k, typed, draw)).audio == v.audio + StepCue(typed)
    ensures FindTypingTimer(Apply(v, TypedFromTimer(k, typed, draw)).pending) <
            |Apply(v, TypedFromTimer(k, typed, draw)).pending|
  {
    var u := TakeTypingTimer(v, k);
    TakeTypingTimerPreservesValid(v, k);
    TypedStepCues(u, typed, draw);
    assert Apply(v, TypedFromTimer(k, typed, draw)) == Apply(u, Typed(typed, draw));
    StepLeavesStepQueued(v, TypedFromTimer(k, typed, draw));
  }

  /** While sound is on, the timer's steps from count `start` add exactly the
      cues of the counts they reach, and nothing else, to the audio log. */
  lemma {:induction false} TimerStepsCues(v: SessionView, start: nat, draws: seq<real>)
    requires Valid(v) && v.soundEnabled
    requires forall j :: 0 <= j < |draws| ==> IsDraw(draws[j])
    requires FindTypingTimer(v.pending) < |v.pending|
    ensures Run(v, TimerSteps(v, start, draws)).audio == v.audio + CuesFrom(start, |draws|)
    decreases |draws|
  {
    var es := TimerSteps(v, start, draws);
    if draws != [] {
      var e := TypedFromTimer(FindTypingTimer(v.pending), start + 1, draws[0]);
      TimerStepCues(v, e.k, e.typed, e.draw);
      var w := Apply(v, e);
      var rest := TimerSteps(w, start + 1, draws[1..]);
      assert es == [e] + rest;
      assert Run(v, es) == Run(w, rest);
      TimerStepsCues(w, start + 1, draws[1..]);
      assert CuesFrom(start, |draws|) == StepCue(start + 1) + CuesFrom(start + 1, |draws| - 1);
      assert Run(w, rest).audio == v.audio + StepCue(start + 1) + CuesFrom(start + 1, |draws| - 1);
    }
  }

  /** The timer's steps never pile up: each consumes the typewriter step it
      runs and queues exactly one, so the number queued stays the same. */
  lemma {:induction false} TimerStepsKeepOneQueued(v: SessionView, start: nat, draws: seq<real>)
    requires Valid(v)
    requires forall j :: 0 <= j < |draws| ==> IsDraw(draws[j])
    requires FindTypingTimer(v.pending) < |v.pending|
    ensures TypingTimerCount(Run(v, TimerSteps(v, start, draws)).pending) == TypingTimerCount(v.pending)
    decreases |draws|
  {
    var es := TimerSteps(v, start, draws);
    if draws != [] {
      ApplyPreservesValid(v, es[0]);
      var w := Apply(v, es[0]);
      TypingEventsKeepOneStepQueued(v, es[0]);
      StepLeavesStepQueued(v, es[0]);
      assert es[1..] == TimerSteps(w, start + 1, draws[1..]);
      TimerStepsKeepOneQueued(w, start + 1, draws[1..]);
    }
  }

  /** One typewriter step with sound on keeps the invariant and sound on, and
      adds a typing cue exactly when its count is a multiple of three. */
  lemma TypedStepCues(v: SessionView, typed: nat, draw: real)
    requires Valid(v) && v.soundEnabled && IsDraw(draw)
    ensures Valid(Apply(v, Typed(typed, draw))) && Apply(v, Typed(typed, draw)).soundEnabled
    ensures Apply(v, Typed(typed, draw)).audio == v.audio + StepCue(typed)
  {
    ApplyPreservesValid(v, Typed(typed, draw));
  }

  lemma TypingCuesAppend(m: nat, n: nat)
    ensures TypingCues(m) + TypingCues(n) == TypingCues(m + n)
  {
  }

  /** A whole text typed with sound on issues one typing cue per three
      characters, rounded down. */
  lemma {:induction false} CueCountIsThird(n: nat)
    ensures CueCount(n) == n / 3
  {
    if n > 0 {
      CueCountIsThird(n - 1);
    }
  }

  /** The page's typing run is the observer's step followed by the timer's
      steps from the state it reaches. */
  lemma PageTypingUnfolds(v: SessionView, draws: seq<real>)
    requires Valid(v) && draws != []
    requires forall j :: 0 <= j < |draws| ==> IsDraw(draws[j])
    ensures Valid(Apply(v, Typed(1, draws[0])))
    ensures FindTypingTimer(Apply(v, Typed(1, draws[0])).pending) < |Apply(v, Typed(1, draws[0])).pending|
    ensures Run(v, PageTyping(v, draws)) ==
            Run(Apply(v, Typed(1, draws[0])), TimerSteps(Apply(v, Typed(1, draws[0])), 1, draws[1..]))
  {
    var e := Typed(1, draws[0]);
    ApplyPreservesValid(v, e);
    StepLeavesStepQueued(v, e);
    var w := Apply(v, e);
    var es := PageTyping(v, draws);
    assert es == [e] + TimerSteps(w, 1, draws[1..]);
    assert es[1..] == TimerSteps(w, 1, draws[1..]);
  }

  /** While sound is on, the page typing `|draws|` characters adds the cues
      of the counts 1 to `|draws|`, and nothing else, to the audio log. */
  lemma {:induction false} PageTypingAudio(v: SessionView, draws: seq<real>)
    requires Valid(v) && v.soundEnabled
    requires forall j :: 0 <= j < |draws| ==> IsDraw(draws[j])
    ensures Run(v, PageTyping(v, draws)).audio == v.audio + CuesFrom(0, |draws|)
  {
    if draws != [] {
      PageTypingUnfolds(v, draws);
      TypedStepCues(v, 1, draws[0]);
      TimerStepsCues(Apply(v, Typed(1, draws[0])), 1, draws[1..]);
      assert CuesFrom(0, |draws|) == StepCue(1) + CuesFrom(1, |draws| - 1);
    }
  }

  /** The page typing a text queues one typewriter step when it starts and
      none after that: every later step consumes the one it runs. */
  lemma {:induction false} PageTypingQueue(v: SessionView, draws: seq<real>)
    requires Valid(v)
    requires forall j :: 0 <= j < |draws| ==> IsDraw(draws[j])
    ensures TypingTimerCount(Run(v, PageTyping(v, draws)).pending) ==
            TypingTimerCount(v.pending) + (if draws == [] then 0 else 1)
  {
    if draws != [] {
      PageTypingUnfolds(v, draws);
      TypingEventsKeepOneStepQueued(v, Typed(1, draws[0]));
      TimerStepsKeepOneQueued(Apply(v, Typed(1, draws[0])), 1, draws[1..]);
    }
  }

  /** The page typing a whole text of `|draws|` characters with sound on adds
      exactly `|draws| / 3` typing cues to the audio log, and leaves one more
      typewriter step queued than before (none for an empty text). */
  lemma {:induction false} WholeTextCues(v: SessionView, draws: seq<real>)
    requires Valid(v) && v.soundEnabled
    requires forall j :: 0 <= j < |draws| ==> IsDraw(draws[j])
    ensures Run(v, PageTyping(v, draws)).audio == v.audio + TypingCues(|draws| / 3)
    ensures TypingTimerCount(Run(v, PageTyping(v, draws)).pending) ==
            TypingTimerCount(v.pending) + (if draws == [] then 0 else 1)
  {
    CueCountIsThird(0);
    CueCountIsThird(|draws|);
    CuesFromCount(0, |draws|);
    PageTypingAudio(v, draws);
    PageTypingQueue(v, draws);
  }
}
