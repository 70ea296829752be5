/** The page's handlers as transitions of the session state.

    `SessionView` is the page's `state` record together with the parts of
    the DOM the handlers write (body classes, indicator texts, the jumpscare
    surface, idle-message elements), the audio requests issued so far and
    the timers still pending. Each handler of the script is one function
    from the old view to the new one; the `Session` class of module `Page`
    performs the same updates on its fields and is proved against these
    functions. */
module Handlers {
  import opened SiteState

  datatype SessionView = SessionView(
    soundEnabled: bool,
    currentTheme: Theme,
    galleryIndex: nat,
    activeTab: string,
    jumpscareChance: real,
    lastInteraction: int,
    soundIndicator: string,
    themeIndicator: string,
    themeIcon: string,
    bodyClasses: set<BodyClass>,
    jumpscareActive: bool,
    jumpscareImage: string,
    idleMessages: seq<IdleMessage>,
    audio: seq<AudioEvent>,
    pending: seq<Timer>)

  /** The invariant every handler keeps: the chance is one of its two
      values, and every pending message timer names a message that exists. */
  predicate Valid(v: SessionView) {
    (v.jumpscareChance == Baseline || v.jumpscareChance == Escalated) &&
    forall j :: 0 <= j < |v.pending| ==> TargetExists(v.pending[j], |v.idleMessages|)
  }

  predicate TargetExists(t: Timer, messages: nat) {
    t.action.OnMessage() ==> t.action.k < messages
  }

  /** The state record as the page builds it, over the page's markup. */
  function Init(page: Page, now: int): SessionView {
    SessionView(
      soundEnabled := false,
      currentTheme := Dark,
      galleryIndex := 0,
      activeTab := "images",
      jumpscareChance := Baseline,
      lastInteraction := now,
      soundIndicator := page.soundIndicator,
      themeIndicator := page.themeIndicator,
      themeIcon := page.themeIcon,
      bodyClasses := page.bodyClasses,
      jumpscareActive := page.jumpscareActive,
      jumpscareImage := page.jumpscareImage,
      idleMessages := [],
      audio := [],
      pending := [])
  }

  /** `playSound`: a copy of the cue plays only while sound is enabled. */
  function PlaySound(v: SessionView, cue: Cue): SessionView {
    if v.soundEnabled then v.(audio := v.audio + [Play(cue)]) else v
  }

  function SoundIndicatorFor(on: bool): string {
    if on then SoundOnText else SoundOffText
  }

  /** `toggleSound`: flips the flag, rewrites the indicator and starts or
      pauses the ambient loop. */
  function ToggleSound(v: SessionView): SessionView {
    var on := !v.soundEnabled;
    v.(soundEnabled := on,
       soundIndicator := SoundIndicatorFor(on),
       audio := v.audio + [if on then Play(AmbientCue) else Pause(AmbientCue)])
  }

  /** The first half of `toggleTheme`: the switch itself. */
  function FlipTheme(v: SessionView): SessionView {
    if v.currentTheme == Dark then
      v.(bodyClasses := v.bodyClasses - {DarkTheme} + {InfernalTheme},
         currentTheme := Infernal,
         themeIndicator := InfernalIndicatorText,
         themeIcon := SunIcon)
    else
      v.(bodyClasses := v.bodyClasses - {InfernalTheme} + {DarkTheme},
         currentTheme := Dark,
         themeIndicator := DarkIndicatorText,
         themeIcon := MoonIcon)
  }

  /** `toggleTheme`: the switch, then a mild jumpscare when the draw falls
      under 0.15. */
  function ToggleTheme(v: SessionView, draw: real): SessionView {
    var w := FlipTheme(v);
    if draw < ThemeJumpscareChance then TriggerJumpscare(w, "mild") else w
  }

  /** `triggerJumpscare`: nothing while sound is off; otherwise the image of
      the intensity, the jumpscare cue, the surface made active with its hide
      queued, and for the wild intensity the page shake with its removal
      queued. */
  function TriggerJumpscare(v: SessionView, intensity: string): SessionView {
    if !v.soundEnabled then v
    else
      var e := EffectOf(intensity);
      var w := PlaySound(v.(jumpscareImage := e.image), JumpscareCue);
      var shown := w.(jumpscareActive := true,
                      pending := w.pending + [Timer(e.hideDelay, HideJumpscare)]);
      if e.shake then
        shown.(bodyClasses := shown.bodyClasses + {Shake},
               pending := shown.pending + [Timer(ShakeDuration, RemoveShake)])
      else shown
  }

  /** `navigateGallery` over `n` slides: the cyclic step, then a mild
      jumpscare when the draw falls under the current chance. */
  function NavigateGallery(v: SessionView, dir: Direction, n: nat, draw: real): SessionView
    requires n > 0
  {
    var w := v.(galleryIndex := Stepped(v.galleryIndex, n, dir));
    if draw < w.jumpscareChance then TriggerJumpscare(w, "mild") else w
  }

  /** The listener of every monitored input event. */
  function Interact(v: SessionView, now: int): SessionView {
    v.(lastInteraction := now, jumpscareChance := Baseline)
  }

  /** `showIdleMessage`: a new message element with the drawn text, its
      fade-in and its fade-out queued. */
  function ShowIdleMessage(v: SessionView, draw: real): SessionView
    requires IsDraw(draw)
  {
    var k := |v.idleMessages|;
    v.(idleMessages := v.idleMessages + [IdleMessage(IdleMessageTexts[IdleMessageIndex(draw)], false, true)],
       pending := v.pending + [Timer(MessageShowDelay, RevealMessage(k)),
                               Timer(MessageFadeDelay, FadeMessage(k))])
  }

  predicate IsIdle(v: SessionView, now: int) {
    now - v.lastInteraction > IdleThreshold
  }

  /** The body of the ten-second idle poll. */
  function IdlePoll(v: SessionView, now: int, draw: real): SessionView
    requires IsDraw(draw)
  {
    if IsIdle(v, now) then ShowIdleMessage(v.(jumpscareChance := Escalated), draw) else v
  }

  /** The body of the thirty-second ambient poll: the first draw decides
      whether a jumpscare comes at all, the second one its intensity. */
  function AmbientPoll(v: SessionView, draw: real, intensityDraw: real): SessionView {
    if draw < AmbientJumpscareChance && v.soundEnabled then
      TriggerJumpscare(v, if intensityDraw < AmbientWildChance then "wild" else "mild")
    else v
  }

  /** The `mouseenter` listener of a download button. */
  function DownloadHover(v: SessionView, draw: real): SessionView {
    if draw < DownloadJumpscareChance then TriggerJumpscare(v, "mild") else v
  }

  /** `switchTab`, as far as the state record goes. */
  function SwitchTab(v: SessionView, tab: string): SessionView {
    v.(activeTab := tab)
  }

  /** The pending timers with the `k`-th one taken out. */
  function Without(p: seq<Timer>, k: nat): (q: seq<Timer>)
    requires k < |p|
    ensures |q| == |p| - 1
    ensures forall j :: 0 <= j < k ==> q[j] == p[j]
    ensures forall j :: k <= j < |q| ==> q[j] == p[j + 1]
  {
    p[..k] + p[k + 1..]
  }

  /** The `k`-th pending timer fires: it leaves the queue and its callback
      runs. The typewriter's own timer is run by the typewriter. */
  function RunTimer(v: SessionView, k: nat): SessionView
    requires Valid(v) && k < |v.pending| && !v.pending[k].action.TypeNextChar?
  {
    var w := v.(pending := Without(v.pending, k));
    match v.pending[k].action
    case HideJumpscare => w.(jumpscareActive := false)
    case RemoveShake => w.(bodyClasses := w.bodyClasses - {Shake})
    case RevealMessage(m) =>
      w.(idleMessages := w.idleMessages[m := w.idleMessages[m].(show := true)])
    case FadeMessage(m) =>
      w.(idleMessages := w.idleMessages[m := w.idleMessages[m].(show := false)],
         pending := w.pending + [Timer(MessageRemoveDelay, RemoveMessage(m))])
    case RemoveMessage(m) =>
      w.(idleMessages := w.idleMessages[m := w.idleMessages[m].(attached := false)])
    case TypeNextChar => v
  }

  /** What one typewriter step does to the session once the typed count has
      become `typed`: a typing cue on every third character while sound is
      on, and the next step queued after a drawn delay. */
  function TypingEffect(v: SessionView, typed: nat, draw: real): SessionView
    requires IsDraw(draw)
  {
    var w := if v.soundEnabled && CuesAt(typed) then PlaySound(v, TypingCue) else v;
    w.(pending := w.pending + [Timer(TypingDelay(draw), TypeNextChar)])
  }

  /** The typewriter's timer `k` fires: it leaves the queue. */
  function TakeTypingTimer(v: SessionView, k: nat): SessionView
    requires k < |v.pending|
  {
    v.(pending := Without(v.pending, k))
  }

  /** Everything that can happen to a session, one handler run at a time. */
  datatype Event =
    | Input(kind: InputKind, now: int)
    | IdleTick(now: int, draw: real)
    | AmbientTick(draw: real, intensityDraw: real)
    | SoundToggle
    | ThemeToggle(draw: real)
    | GalleryNav(dir: Direction, slides: nat, draw: real)
    | DownloadEnter(draw: real)
    | JumpscareClick(intensity: string)
    | EasterEggClick
    | TabClick(tab: string)
    | TimerFires(k: nat)
    | Typed(typed: nat, draw: real)
    | TypedFromTimer(k: nat, typed: nat, draw: real)
    | TypingTimerEnds(k: nat)

  /** The events the page can deliver: draws in [0, 1), a gallery with
      slides. */
  predicate WellFormed(e: Event) {
    match e
    case IdleTick(_, draw) => IsDraw(draw)
    case AmbientTick(draw, intensityDraw) => IsDraw(draw) && IsDraw(intensityDraw)
    case ThemeToggle(draw) => IsDraw(draw)
    case GalleryNav(_, slides, draw) => slides > 0 && IsDraw(draw)
    case DownloadEnter(draw) => IsDraw(draw)
    case Typed(_, draw) => IsDraw(draw)
    case TypedFromTimer(_, _, draw) => IsDraw(draw)
    case _ => true
  }

  /** One event's handler. A timer event for a timer that is not pending,
      or not of the kind the event names, does nothing. `Typed` is the step
      the observer starts; `TypedFromTimer` is a step run by the
      typewriter's own timer `k`, which leaves the queue first, and
      `TypingTimerEnds` is that timer firing once the whole text is shown. */
  function Apply(v: SessionView, e: Event): SessionView
    requires Valid(v) && WellFormed(e)
  {
    match e
    case Input(_, now) => Interact(v, now)
    case IdleTick(now, draw) => IdlePoll(v, now, draw)
    case AmbientTick(draw, intensityDraw) => AmbientPoll(v, draw, intensityDraw)
    case SoundToggle => ToggleSound(v)
    case ThemeToggle(draw) => ToggleTheme(v, draw)
    case GalleryNav(dir, slides, draw) => NavigateGallery(v, dir, slides, draw)
    case DownloadEnter(draw) => DownloadHover(v, draw)
    case JumpscareClick(intensity) => TriggerJumpscare(v, intensity)
    case EasterEggClick => TriggerJumpscare(v, "wild")
    case TabClick(tab) => SwitchTab(v, tab)
    case TimerFires(k) =>
      if k < |v.pending| && !v.pending[k].action.TypeNextChar? then RunTimer(v, k) else v
    case Typed(typed, draw) => TypingEffect(v, typed, draw)
    case TypedFromTimer(k, typed, draw) =>
      if k < |v.pending| && v.pending[k].action.TypeNextChar? then
        TypingEffect(TakeTypingTimer(v, k), typed, draw)
      else v
    case TypingTimerEnds(k) =>
      if k < |v.pending| && v.pending[k].action.TypeNextChar? then TakeTypingTimer(v, k) else v
  }

  /** `Valid` survives every handler. */
  lemma ApplyPreservesValid(v: SessionView, e: Event)
    requires Valid(v) && WellFormed(e)
    ensures Valid(Apply(v, e))
  {
    match e
    case TimerFires(k) =>
      if k < |v.pending| && !v.pending[k].action.TypeNextChar? {
        RunTimerPreservesValid(v, k);
      }
    case ThemeToggle(draw) =>
      TriggerPreservesValid(FlipTheme(v), "mild");
    case GalleryNav(dir, slides, draw) =>
      TriggerPreservesValid(v.(galleryIndex := Stepped(v.galleryIndex, slides, dir)), "mild");
    case AmbientTick(draw, intensityDraw) =>
      TriggerPreservesValid(v, if intensityDraw < AmbientWildChance then "wild" else "mild");
    case DownloadEnter(draw) =>
      TriggerPreservesValid(v, "mild");
    case JumpscareClick(intensity) =>
      TriggerPreservesValid(v, intensity);
    case EasterEggClick =>
      TriggerPreservesValid(v, "wild");
    case IdleTick(now, draw) =>
      if IsIdle(v, now) {
        ShowIdleMessagePreservesValid(v.(jumpscareChance := Escalated), draw);
      }
    case TypedFromTimer(k, typed, draw) =>
      if k < |v.pending| && v.pending[k].action.TypeNextChar? {
        TakeTypingTimerPreservesValid(v, k);
      }
    case TypingTimerEnds(k) =>
      if k < |v.pending| && v.pending[k].action.TypeNextChar? {
        TakeTypingTimerPreservesValid(v, k);
      }
    case _ =>
  }

  lemma TakeTypingTimerPreservesValid(v: SessionView, k: nat)
    requires Valid(v) && k < |v.pending|
    ensures Valid(TakeTypingTimer(v, k))
  {
    var w := TakeTypingTimer(v, k);
    forall j | 0 <= j < |w.pending|
      ensures TargetExists(w.pending[j], |w.idleMessages|)
    {
      assert w.pending[j] == v.pending[if j < k then j else j + 1];
    }
  }

  lemma TriggerPreservesValid(v: SessionView, intensity: string)
    requires Valid(v)
    ensures Valid(TriggerJumpscare(v, intensity))
  {
  }

  lemma ShowIdleMessagePreservesValid(v: SessionView, draw: real)
    requires Valid(v) && IsDraw(draw)
    ensures Valid(ShowIdleMessage(v, draw))
  {
    var w := ShowIdleMessage(v, draw);
    forall j | 0 <= j < |w.pending|
      ensures TargetExists(w.pending[j], |w.idleMessages|)
    {
      if j < |v.pending| {
        assert w.pending[j] == v.pending[j];
      }
    }
  }

  lemma RunTimerPreservesValid(v: SessionView, k: nat)
    requires Valid(v) && k < |v.pending| && !v.pending[k].action.TypeNextChar?
    ensures Valid(RunTimer(v, k))
  {
    var w := RunTimer(v, k);
    var rest := Without(v.pending, k);
    forall j | 0 <= j < |w.pending|
      ensures TargetExists(w.pending[j], |w.idleMessages|)
    {
      if j < |rest| {
        assert w.pending[j] == rest[j];
        assert rest[j] == v.pending[if j < k then j else j + 1];
      }
    }
  }

  /** The session after a sequence of events. */
  function Run(v: SessionView, es: seq<Event>): SessionView
    requires Valid(v)
    requires forall j :: 0 <= j < |es| ==> WellFormed(es[j])
    decreases |es|
  {
    if es == [] then v
    else
      ApplyPreservesValid(v, es[0]);
      Run(Apply(v, es[0]), es[1..])
  }
}
