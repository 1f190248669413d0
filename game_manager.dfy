/**
 * GameManager: the end-of-game screen. Its state is whether the game-state
 * text is shown, what it says, and the engine's global time scale
 * (1 = running, 0 = paused).
 */
module Game {

  datatype Screen = Screen(textVisible: bool, text: string, timeScale: real)

  datatype Call = Awake | GameWon | GameOver(message: string)

  const WonMessage: string := "You won!"

  /** The text an ending call puts up. */
  function MessageOf(c: Call): string
    requires !c.Awake?
  {
    if c.GameWon? then WonMessage else c.message
  }

  /** One call on the manager. */
  function Apply(s: Screen, c: Call): (r: Screen)
    ensures r.textVisible <==> r.timeScale == 0.0
    ensures r.textVisible <==> !c.Awake?
    ensures c.Awake? ==> r.text == s.text
  {
    match c
    case Awake => s.(textVisible := false, timeScale := 1.0)
    case GameWon => Screen(true, WonMessage, 0.0)
    case GameOver(message) => Screen(true, message, 0.0)
  }

  function ApplyAll(s: Screen, cs: seq<Call>): Screen
    decreases cs
  {
    if cs == [] then s else ApplyAll(Apply(s, cs[0]), cs[1..])
  }

  /** Awake hides the text and lets time run, keeping whatever text was configured. */
  lemma AwakeEffect(s: Screen)
    ensures !Apply(s, Awake).textVisible && Apply(s, Awake).timeScale == 1.0
    ensures Apply(s, Awake).text == s.text
  {
  }

  /** GameWon and GameOver show their message and pause the game, whatever came before. */
  lemma EndingEffect(s: Screen, c: Call)
    requires !c.Awake?
    ensures Apply(s, c) == Screen(true, MessageOf(c), 0.0)
  {
  }

  /** Ending calls are idempotent. */
  lemma EndingIdempotent(s: Screen, c: Call)
    requires !c.Awake?
    ensures Apply(Apply(s, c), c) == Apply(s, c)
  {
  }

  /** After any non-empty mix of GameWon and GameOver calls the text shown is the last call's
      and the game is paused. */
  lemma {:induction false} LastEndingWins(s: Screen, cs: seq<Call>)
    requires cs != [] && forall i :: 0 <= i < |cs| ==> !cs[i].Awake?
    ensures ApplyAll(s, cs) == Screen(true, MessageOf(cs[|cs| - 1]), 0.0)
    decreases cs
  {
    if |cs| > 1 {
      LastEndingWins(Apply(s, cs[0]), cs[1..]);
    }
  }

  /**
   * The component. The text widget is a non-null reference here: Awake uses it
   * before its null check, so a missing widget fails there rather than reaching
   * the warning.
   */
  class GameManager {
    var textVisible: bool
    var text: string
    var timeScale: real

    function Model(): Screen
      reads this
    {
      Screen(textVisible, text, timeScale)
    }

    /** A manager whose widget holds the configured text and whose visibility the scene decides. */
    constructor (visible: bool, configuredText: string, timeScale: real)
      ensures Model() == Screen(visible, configuredText, timeScale)
    {
      textVisible, text, this.timeScale := visible, configuredText, timeScale;
    }

    method Awake()
      modifies this
      ensures !textVisible && timeScale == 1.0 && text == old(text)
      ensures Model() == Apply(old(Model()), Call.Awake)
    {
      textVisible := false;
      timeScale := 1.0;
      // The widget is present, so the warning branch is not taken and the text is hidden again.
      textVisible := false;
    }

    method GameWon()
      modifies this
      ensures textVisible && text == WonMessage && timeScale == 0.0
      ensures Model() == Apply(old(Model()), Call.GameWon)
    {
      textVisible := true;
      text := WonMessage;
      timeScale := 0.0;
    }

    method GameOver(message: string)
      modifies this
      ensures textVisible && text == message && timeScale == 0.0
      ensures Model() == Apply(old(Model()), Call.GameOver(message))
    {
      textVisible := true;
      text := message;
      timeScale := 0.0;
    }
  }
}
