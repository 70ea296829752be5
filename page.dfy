/** The page script's shared `state` record and the typewriter, as objects
    whose handlers update their fields in place. Each handler is proved to
    leave the object in the state the matching function of `Handlers`
    describes, and to keep `Valid`. */
module Page {
  import opened SiteState
  import Handlers

  class Session {
    // The `state` record.
    var soundEnabled: bool
    var currentTheme: Theme
    var galleryIndex: nat
    var activeTab: string
    var jumpscareChance: real
    var lastInteraction: int
    // The parts of the document the handlers write.
    var soundIndicator: string
    var themeIndicator: string
    var themeIcon: string
    var bodyClasses: set<BodyClass>
    var jumpscareActive: bool
    var jumpscareImage: string
    var idleMessages: seq<IdleMessage>
    // Audio requested so far, and the timers not yet fired.
    var audio: seq<AudioEvent>
    var pending: seq<Timer>

    function View(): Handlers.SessionView
      reads this
    {
      Handlers.SessionView(soundEnabled, currentTheme, galleryIndex, activeTab,
        jumpscareChance, lastInteraction, soundIndicator, themeIndicator, themeIcon,
        bodyClasses, jumpscareActive, jumpscareImage, idleMessages, audio, pending)
    }

    predicate Valid()
      reads this
    {
      Handlers.Valid(View())
    }

    /** The record as the page builds it when the document has loaded. */
    constructor (page: Page, now: int)
      ensures Valid() && View() == Handlers.Init(page, now)
      ensures jumpscareChance == Baseline
    {
      soundEnabled := false;
      currentTheme := Dark;
      galleryIndex := 0;
      activeTab := "images";
      jumpscareChance := Baseline;
      lastInteraction := now;
      soundIndicator := page.soundIndicator;
      themeIndicator := page.themeIndicator;
      themeIcon := page.themeIcon;
      bodyClasses := page.bodyClasses;
      jumpscareActive := page.jumpscareActive;
      jumpscareImage := page.jumpscareImage;
      idleMessages := [];
      audio := [];
      pending := [];
    }

    method PlaySound(cue: Cue)
      requires Valid()
      modifies this
      ensures Valid() && View() == Handlers.PlaySound(old(View()), cue)
    {
      if soundEnabled {
        audio := audio + [Play(cue)];
      }
    }

    method ToggleSound()
      requires Valid()
      modifies this
      ensures Valid() && View() == Handlers.ToggleSound(old(View()))
      ensures soundEnabled == !old(soundEnabled)
    {
      soundEnabled := !soundEnabled;
      soundIndicator := Handlers.SoundIndicatorFor(soundEnabled);
      if soundEnabled {
        audio := audio + [Play(AmbientCue)];
      } else {
        audio := audio + [Pause(AmbientCue)];
      }
    }

    method ToggleTheme(draw: real)
      requires Valid()
      modifies this
      ensures Valid() && View() == Handlers.ToggleTheme(old(View()), draw)
      ensures currentTheme != old(currentTheme)
    {
      if currentTheme == Dark {
        bodyClasses := bodyClasses - {DarkTheme} + {InfernalTheme};
        currentTheme := Infernal;
        themeIndicator := InfernalIndicatorText;
        themeIcon := SunIcon;
      } else {
        bodyClasses := bodyClasses - {InfernalTheme} + {DarkTheme};
        currentTheme := Dark;
        themeIndicator := DarkIndicatorText;
        themeIcon := MoonIcon;
      }
      if draw < ThemeJumpscareChance {
        TriggerJumpscare("mild");
      }
    }

    method TriggerJumpscare(intensity: string)
      requires Valid()
      modifies this
      ensures Valid() && View() == Handlers.TriggerJumpscare(old(View()), intensity)
      ensures !old(soundEnabled) ==> View() == old(View())
    {
      if !soundEnabled {
        return;
      }
      jumpscareImage := ImageFor(intensity);
      PlaySound(JumpscareCue);
      jumpscareActive := true;
      pending := pending + [Timer(HideDelay(intensity), HideJumpscare)];
      if intensity == "wild" {
        bodyClasses := bodyClasses + {Shake};
        pending := pending + [Timer(ShakeDuration, RemoveShake)];
      }
    }

    method NavigateGallery(dir: Direction, slides: nat, draw: real)
      requires Valid() && slides > 0
      modifies this
      ensures Valid() && View() == Handlers.NavigateGallery(old(View()), dir, slides, draw)
      ensures galleryIndex < slides
    {
      galleryIndex := Stepped(galleryIndex, slides, dir);
      if draw < jumpscareChance {
        TriggerJumpscare("mild");
      }
    }

    /** The listener every monitored input event runs. */
    method OnInteraction(kind: InputKind, now: int)
      requires Valid()
      modifies this
      ensures Valid() && View() == Handlers.Interact(old(View()), now)
      ensures lastInteraction == now && jumpscareChance == Baseline
    {
      lastInteraction := now;
      jumpscareChance := Baseline;
    }

    method ShowIdleMessage(draw: real)
      requires Valid() && IsDraw(draw)
      modifies this
      ensures Valid() && View() == Handlers.ShowIdleMessage(old(View()), draw)
    {
      var k := |idleMessages|;
      idleMessages := idleMessages + [IdleMessage(IdleMessageTexts[IdleMessageIndex(draw)], false, true)];
      pending := pending + [Timer(MessageShowDelay, RevealMessage(k)),
                            Timer(MessageFadeDelay, FadeMessage(k))];
      Handlers.ShowIdleMessagePreservesValid(old(View()), draw);
    }

    /** The body of the ten-second idle poll. */
    method IdlePoll(now: int, draw: real)
      requires Valid() && IsDraw(draw)
      modifies this
      ensures Valid() && View() == Handlers.IdlePoll(old(View()), now, draw)
      ensures now - old(lastInteraction) > IdleThreshold ==> jumpscareChance == Escalated
      ensures now - old(lastInteraction) <= IdleThreshold ==> View() == old(View())
    {
      if now - lastInteraction > IdleThreshold {
        jumpscareChance := Escalated;
        ShowIdleMessage(draw);
      }
    }

    /** The body of the thirty-second ambient poll. */
    method AmbientPoll(draw: real, intensityDraw: real)
      requires Valid()
      modifies this
      ensures Valid() && View() == Handlers.AmbientPoll(old(View()), draw, intensityDraw)
    {
      if draw < AmbientJumpscareChance && soundEnabled {
        TriggerJumpscare(if intensityDraw < AmbientWildChance then "wild" else "mild");
      }
    }

    /** The `mouseenter` listener of a download button. */
    method OnDownloadHover(draw: real)
      requires Valid()
      modifies this
      ensures Valid() && View() == Handlers.DownloadHover(old(View()), draw)
    {
      if draw < DownloadJumpscareChance {
        TriggerJumpscare("mild");
      }
    }

    method SwitchTab(tab: string)
      requires Valid()
      modifies this
      ensures Valid() && View() == Handlers.SwitchTab(old(View()), tab)
    {
      activeTab := tab;
    }

    /** Fires the `k`-th pending timer: it leaves the queue and its callback
        runs. */
    method RunTimer(k: nat)
      requires Valid() && k < |pending| && !pending[k].action.TypeNextChar?
      modifies this
      ensures Valid() && View() == Handlers.RunTimer(old(View()), k)
    {
      var t := pending[k];
      pending := pending[..k] + pending[k + 1..];
      match t.action {
        case HideJumpscare =>
          jumpscareActive := false;
        case RemoveShake =>
          bodyClasses := bodyClasses - {Shake};
        case RevealMessage(m) =>
          idleMessages := idleMessages[m := idleMessages[m].(show := true)];
        case FadeMessage(m) =>
          idleMessages := idleMessages[m := idleMessages[m].(show := false)];
          pending := pending + [Timer(MessageRemoveDelay, RemoveMessage(m))];
        case RemoveMessage(m) =>
          idleMessages := idleMessages[m := idleMessages[m].(attached := false)];
      }
      Handlers.RunTimerPreservesValid(old(View()), k);
    }
  }

  /** The typewriter: the text the element held, the count `i` of characters
      typed back so far, the element's current text, and whether typing has
      started. */
  class Typewriter {
    const text: string
    var i: nat
    var shown: string
    var isTyping: bool

    predicate Valid()
      reads this
    {
      i <= |text| && shown == text[..i]
    }

    /** Takes the element's text and empties the element. */
    constructor (content: string)
      ensures Valid() && text == content && i == 0 && shown == "" && !isTyping
    {
      text := content;
      i := 0;
      shown := "";
      isTyping := false;
    }

    /** `typeNextChar`: one more character of the text, a typing cue on every
        third one while sound is on, and the next step queued; nothing at all
        once the whole text is shown. */
    method Step(s: Session, draw: real)
      requires Valid() && s.Valid() && IsDraw(draw)
      modifies this, s
      ensures Valid() && s.Valid() && isTyping == old(isTyping)
      ensures old(i) < |text| ==>
        (i == old(i) + 1 && shown == text[..i] &&
         s.View() == Handlers.TypingEffect(old(s.View()), i, draw))
      ensures old(i) == |text| ==> i == old(i) && s.View() == old(s.View())
      ensures old(i) < |text| ==>
        (s.audio == old(s.audio) + [Play(TypingCue)] <==> s.soundEnabled && i % 3 == 0)
    {
      if i < |text| {
        shown := shown + [text[i]];
        i := i + 1;
        if s.soundEnabled && i % 3 == 0 {
          s.PlaySound(TypingCue);
        }
        s.pending := s.pending + [Timer(TypingDelay(draw), TypeNextChar)];
      }
    }

    /** The `IntersectionObserver` callback for one entry: the first time the
        element is half in view, typing starts. */
    method OnIntersect(s: Session, isIntersecting: bool, draw: real)
      requires Valid() && s.Valid() && IsDraw(draw)
      modifies this, s
      ensures Valid() && s.Valid() && isTyping == (old(isTyping) || isIntersecting)
      ensures old(isTyping) || !isIntersecting ==> i == old(i) && s.View() == old(s.View())
      ensures !old(isTyping) && isIntersecting && old(i) < |text| ==>
        (i == old(i) + 1 && s.View() == Handlers.TypingEffect(old(s.View()), i, draw))
      ensures !old(isTyping) && isIntersecting && old(i) == |text| ==>
        (i == old(i) && s.View() == old(s.View()))
    {
      if isIntersecting && !isTyping {
        isTyping := true;
        Step(s, draw);
      }
    }

    /** The typewriter's queued step fires: the timer leaves the session's
        queue and the next character is typed. */
    method RunStepTimer(s: Session, k: nat, draw: real)
      requires Valid() && s.Valid() && IsDraw(draw)
      requires k < |s.pending| && s.pending[k].action.TypeNextChar?
      modifies this, s
      ensures Valid() && s.Valid() && isTyping == old(isTyping)
      ensures old(i) < |text| ==>
        (i == old(i) + 1 &&
         s.View() == Handlers.TypingEffect(Handlers.TakeTypingTimer(old(s.View()), k), i, draw))
      ensures old(i) == |text| ==> i == old(i) && s.View() == Handlers.TakeTypingTimer(old(s.View()), k)
      ensures s.View() == Handlers.Apply(old(s.View()),
        if old(i) < |text| then Handlers.TypedFromTimer(k, i, draw) else Handlers.TypingTimerEnds(k))
    {
      s.pending := s.pending[..k] + s.pending[k + 1..];
      Step(s, draw);
    }
  }
}
