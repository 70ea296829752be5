/** The values of the Curupira page script: the entities its one state record
    and its DOM effects are made of, the fixed constants, and the pure
    lookups the handlers use (intensity table, durations, gallery stepping,
    idle-message choice, typing delay).

    Randomness is injected: every `Math.random()` of the page becomes a
    parameter `draw: real` with `0.0 <= draw < 1.0`; `Date.now()` becomes an
    explicit `now: int` in milliseconds. Probabilities are exact reals. */
module SiteState {

  /** The two themes `state.currentTheme` takes ('dark' and 'infernal'). */
  datatype Theme = Dark | Infernal

  /** The classes of `document.body` that the script adds or removes. */
  datatype BodyClass = DarkTheme | InfernalTheme | Shake

  /** The five audio elements of the page. */
  datatype Cue = AmbientCue | HoverCue | ClickCue | JumpscareCue | TypingCue

  /** What the page asks of an audio element: `play()` or `pause()`. */
  datatype AudioEvent = Play(cue: Cue) | Pause(cue: Cue)

  /** The monitored input events of the interaction monitor. */
  datatype InputKind = MouseMove | MouseDown | KeyPress | Scroll | TouchStart

  /** The gallery's two buttons. */
  datatype Direction = Prev | Next

  /** The callback a `setTimeout` will run; `k` names an idle-message element
      by its position in the list of messages the session has created. */
  datatype TimerAction =
    | HideJumpscare
    | RemoveShake
    | TypeNextChar
    | RevealMessage(k: nat)
    | FadeMessage(k: nat)
    | RemoveMessage(k: nat)
  {
    predicate OnMessage() {
      RevealMessage? || FadeMessage? || RemoveMessage?
    }
  }

  /** One pending one-shot timer: its delay in milliseconds and its callback.
      Timers are never cancelled. */
  datatype Timer = Timer(delay: real, action: TimerAction)

  /** An idle-message `div`: its text, whether it carries the `show` class,
      and whether it is still attached to the document body. */
  datatype IdleMessage = IdleMessage(text: string, show: bool, attached: bool)

  /** What the page's markup gives the script before any handler runs. */
  datatype Page = Page(
    bodyClasses: set<BodyClass>,
    soundIndicator: string,
    themeIndicator: string,
    themeIcon: string,
    jumpscareActive: bool,
    jumpscareImage: string)

  /** What an intensity decides in the jumpscare trigger: the image source,
      how long the surface stays visible, and whether the page shakes. */
  datatype Effect = Effect(image: string, hideDelay: real, shake: bool)

  // Probabilities and thresholds.
  const Baseline: real := 0.03
  const Escalated: real := 0.15
  const IdleThreshold: int := 30000
  const ThemeJumpscareChance: real := 0.15
  const DownloadJumpscareChance: real := 0.2
  const AmbientJumpscareChance: real := 0.01
  const AmbientWildChance: real := 0.3

  // Durations in milliseconds.
  const MildHideDelay: real := 400.0
  const WildHideDelay: real := 800.0
  const ShakeDuration: real := 1000.0
  const MessageShowDelay: real := 100.0
  const MessageFadeDelay: real := 3000.0
  const MessageRemoveDelay: real := 500.0
  const MinTypingDelay: real := 50.0
  const MaxTypingDelay: real := 150.0

  // Texts the handlers write into the page.
  const SoundOnText := "Sons Ativos"
  const SoundOffText := "Ativar Sons"
  const DarkIndicatorText := "Tema Infernal"
  const InfernalIndicatorText := "Tema Sombrio"
  const MoonIcon := "<i class=\"fas fa-moon\"></i>"
  const SunIcon := "<i class=\"fas fa-sun\"></i>"

  const MildImage := "https://i.pinimg.com/originals/7a/4f/fd/7a4ffd51a6b5503e3490c570cdac61d5.jpg"
  const MediumImage := "https://tinyurl.com/2p8s9a5z"
  const WildImage := "https://comicvine.gamespot.com/a/uploads/scale_medium/11/117763/3279195-sacizinho.jpg"

  /** The intensity-to-image table of the jumpscare trigger. */
  const ImageTable: map<string, string> :=
    map["mild" := MildImage, "medium" := MediumImage, "wild" := WildImage]

  /** The five idle messages. */
  const IdleMessageTexts: seq<string> := [
    "Ele está observando você agora...",
    "Sente os olhos nas suas costas?",
    "Não se afaste da tela...",
    "Olhe para trás...",
    "Algo se aproxima..."
  ]

  predicate IsDraw(draw: real) {
    0.0 <= draw < 1.0
  }

  /** The image shown for an intensity: its own entry in the table, and the
      mild image for any string the table does not hold. */
  function ImageFor(intensity: string): (url: string)
    ensures intensity in ImageTable ==> url == ImageTable[intensity]
    ensures intensity !in ImageTable ==> url == MildImage
    ensures url in ImageTable.Values
  {
    if intensity in ImageTable then ImageTable[intensity] else ImageTable["mild"]
  }

  /** How long the jumpscare stays visible: the wild intensity twice as long
      as every other string. */
  function HideDelay(intensity: string): (d: real)
    ensures d == WildHideDelay <==> intensity == "wild"
    ensures d == MildHideDelay <==> intensity != "wild"
  {
    if intensity == "wild" then WildHideDelay else MildHideDelay
  }

  /** Everything the trigger does that depends on the intensity. */
  function EffectOf(intensity: string): Effect {
    Effect(ImageFor(intensity), HideDelay(intensity), intensity == "wild")
  }

  /** The gallery index after one press of a navigation button over `n`
      slides. Both operands of `%` are non-negative here, so the language's
      truncating remainder and Dafny's Euclidean one agree. */
  function Stepped(i: nat, n: nat, dir: Direction): (j: nat)
    requires n > 0
    ensures j < n
    ensures i < n && dir == Prev ==> j == (if i == 0 then n - 1 else i - 1)
    ensures i < n && dir == Next ==> j == (if i == n - 1 then 0 else i + 1)
  {
    match dir
    case Prev => StepBack(i, n); (i - 1 + n) % n
    case Next => StepOn(i, n); (i + 1) % n
  }

  lemma StepBack(i: nat, n: nat)
    requires 0 < n
    ensures i < n ==> (i - 1 + n) % n == (if i == 0 then n - 1 else i - 1)
  {
    if i == 0 {
      RemainderBelow(n - 1, n);
    } else if i < n {
      RemainderAbove(i - 1 + n, n);
    }
  }

  lemma StepOn(i: nat, n: nat)
    requires 0 < n
    ensures i < n ==> (i + 1) % n == (if i == n - 1 then 0 else i + 1)
  {
    if i < n - 1 {
      RemainderBelow(i + 1, n);
    } else if i == n - 1 {
      RemainderAbove(i + 1, n);
    }
  }

  lemma RemainderBelow(x: int, n: int)
    requires 0 <= x < n
    ensures x % n == x
  {
  }

  lemma RemainderAbove(x: int, n: int)
    requires 0 < n <= x < 2 * n
    ensures x % n == x - n
  {
    assert (x - n) % n == x - n by { RemainderBelow(x - n, n); }
  }

  /** `Math.floor(draw * messages.length)`: the position of the idle message
      chosen by a draw; each of the five positions is hit by the draws in one
      fifth of [0, 1). */
  function IdleMessageIndex(draw: real): (k: nat)
    requires IsDraw(draw)
    ensures k < |IdleMessageTexts|
    ensures k as real <= draw * |IdleMessageTexts| as real < k as real + 1.0
  {
    (draw * |IdleMessageTexts| as real).Floor
  }

  /** `Math.random() * (150 - 50) + 50`: the delay before the next typed
      character. */
  function TypingDelay(draw: real): (d: real)
    requires IsDraw(draw)
    ensures MinTypingDelay <= d < MaxTypingDelay
  {
    draw * (MaxTypingDelay - MinTypingDelay) + MinTypingDelay
  }

  /** Whether the step that makes the typed count `i` issues a typing cue
      (while sound is on). */
  predicate CuesAt(i: nat) {
    i % 3 == 0
  }

  /** How many of the steps that bring the typed count from 0 up to `n` issue
      a typing cue while sound stays on. */
  function CueCount(n: nat): nat {
    if n == 0 then 0 else CueCount(n - 1) + (if CuesAt(n) then 1 else 0)
  }
}
