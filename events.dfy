/**
 * Terminal input as the interface sees it: key presses with their modifier flags, pasted
 * text, resizes and ticks, and the two key predicates every screen shares. Polling the
 * terminal is outside the model; what the poll delivered is an input.
 */
module TuiEvents {
  import opened Wrappers

  datatype KeyCode = Char(c: char) | Enter | Backspace | Esc | Up | Down | Left | Right | Tab | OtherKey

  /** The modifier flags of a key press; an empty set is `KeyModifiers::NONE`. */
  datatype Modifier = Shift | Control | Alt | Super | Hyper | Meta

  datatype KeyEvent = KeyEvent(code: KeyCode, modifiers: set<Modifier>)

  datatype Event = Key(key: KeyEvent) | Paste(text: string) | Resize(width: nat, height: nat) | Tick

  /** What a terminal read can yield; focus and mouse events are the kinds the interface ignores. */
  datatype TerminalEvent =
    | TerminalKey(key: KeyEvent)
    | TerminalPaste(text: string)
    | TerminalResize(width: nat, height: nat)
    | FocusGained
    | FocusLost
    | Mouse

  const DEFAULT_TICK_RATE_MS: nat := 16

  datatype EventHandler = EventHandler(tickRateMs: nat)

  function DefaultEventHandler(): (h: EventHandler)
    ensures h.tickRateMs == DEFAULT_TICK_RATE_MS
  {
    EventHandler(DEFAULT_TICK_RATE_MS)
  }

  /**
   * `EventHandler::next`: the event the poll delivered within the tick rate, if any, turned
   * into an interface event; a quiet poll and every other kind of terminal event are a tick.
   */
  function NextEvent(polled: Option<TerminalEvent>): (e: Event)
    ensures polled.None? ==> e == Tick
    ensures polled.Some? && polled.value.TerminalKey? ==> e == Key(polled.value.key)
    ensures polled.Some? && polled.value.TerminalPaste? ==> e == Paste(polled.value.text)
    ensures polled.Some? && polled.value.TerminalResize? ==> e == Resize(polled.value.width, polled.value.height)
    ensures e.Tick? <==> polled.None? || polled.value.FocusGained? || polled.value.FocusLost? || polled.value.Mouse?
  {
    match polled
    case None => Tick
    case Some(TerminalKey(k)) => Key(k)
    case Some(TerminalPaste(t)) => Paste(t)
    case Some(TerminalResize(w, h)) => Resize(w, h)
    case Some(_) => Tick
  }

  /** `q` or `Q` with no modifier, or Ctrl+C (with Control as the only modifier). */
  predicate IsQuitKey(k: KeyEvent)
  {
    match k.code
    case Char(c) => (k.modifiers == {} && (c == 'q' || c == 'Q')) || (k.modifiers == {Control} && c == 'c')
    case _ => false
  }

  predicate IsBackKey(k: KeyEvent)
  {
    k.code == Esc
  }

  /** Exactly three key presses quit. */
  lemma {:induction false} QuitKeysExactly(k: KeyEvent)
    ensures IsQuitKey(k) <==> k == KeyEvent(Char('q'), {}) || k == KeyEvent(Char('Q'), {}) || k == KeyEvent(Char('c'), {Control})
  {
  }

  /** Ctrl+Q, a plain `c` and a shifted `Q` do not quit. */
  lemma NotQuitKeys()
    ensures !IsQuitKey(KeyEvent(Char('q'), {Control}))
    ensures !IsQuitKey(KeyEvent(Char('c'), {}))
    ensures !IsQuitKey(KeyEvent(Char('Q'), {Shift}))
  {
    assert Control in {Control};
    assert Shift in {Shift};
  }

  /** Escape is "back" whatever modifiers accompany it, and nothing else is. */
  lemma {:induction false} BackKeyIgnoresModifiers(m: set<Modifier>, code: KeyCode)
    ensures IsBackKey(KeyEvent(code, m)) <==> code == Esc
  {
  }
}
