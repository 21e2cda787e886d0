/**
 * The two document-level listeners registered at start-up that keep the
 * browser's developer tools out of reach: every context-menu event is
 * suppressed, and a key-down event is suppressed when it is F12 or one of the
 * Ctrl/Cmd+Shift+I, J, C shortcuts. Suppressing means calling
 * `preventDefault`; nothing else is affected.
 */
module DevToolsGuard {
  import opened Wrappers

  /** The fields of a key-down event the listener looks at (and Alt, which it ignores). */
  datatype KeyEvent = KeyEvent(key: string, ctrlKey: bool, metaKey: bool, shiftKey: bool, altKey: bool)

  /** An event reaching one of the two capture-phase listeners. */
  datatype DomEvent =
    | KeyDown(keyEvent: KeyEvent)
    | ContextMenu(clientX: int, clientY: int)

  /** The rule of the key-down listener that matched. */
  datatype Shortcut =
    | DevTools        // F12
    | InspectPanel    // Ctrl/Cmd+Shift+I
    | ConsolePanel    // Ctrl/Cmd+Shift+J
    | ElementPicker   // Ctrl/Cmd+Shift+C

  /** Ctrl or Cmd (meta) is held together with Shift. */
  predicate ChordHeld(e: KeyEvent) {
    (e.ctrlKey || e.metaKey) && e.shiftKey
  }

  /**
   * The first rule of the key-down listener that applies, in the order the
   * listener tests them, or None when the event passes through.
   */
  function MatchedShortcut(e: KeyEvent): (r: Option<Shortcut>)
    ensures r.Some? <==>
      e.key == "F12" || ((e.ctrlKey || e.metaKey) && e.shiftKey && e.key in {"I", "J", "C"})
    ensures r == Some(DevTools) <==> e.key == "F12"
    ensures r.Some? && r.value != DevTools ==> e.shiftKey && (e.ctrlKey || e.metaKey)
  {
    if e.key == "F12" then Some(DevTools)
    else if ChordHeld(e) && e.key == "I" then Some(InspectPanel)
    else if ChordHeld(e) && e.key == "J" then Some(ConsolePanel)
    else if ChordHeld(e) && e.key == "C" then Some(ElementPicker)
    else None
  }

  /** Whether a listener calls `preventDefault` on the event. */
  predicate DefaultPrevented(ev: DomEvent) {
    match ev
    case KeyDown(e) => MatchedShortcut(e).Some?
    case ContextMenu(_, _) => true
  }

  /** The context menu is suppressed wherever it is opened. */
  lemma ContextMenuAlwaysSuppressed(x: int, y: int)
    ensures DefaultPrevented(ContextMenu(x, y))
  {
  }

  /** F12 is suppressed whatever modifiers are held. */
  lemma F12AlwaysSuppressed(ctrl: bool, meta: bool, shift: bool, alt: bool)
    ensures DefaultPrevented(KeyDown(KeyEvent("F12", ctrl, meta, shift, alt)))
    ensures MatchedShortcut(KeyEvent("F12", ctrl, meta, shift, alt)) == Some(DevTools)
  {
  }

  /** Ctrl+Shift and Cmd+Shift with I, J and C are suppressed, each by its own rule. */
  lemma ChordsSuppressed(e: KeyEvent)
    requires ChordHeld(e)
    ensures e.key == "I" ==> MatchedShortcut(e) == Some(InspectPanel)
    ensures e.key == "J" ==> MatchedShortcut(e) == Some(ConsolePanel)
    ensures e.key == "C" ==> MatchedShortcut(e) == Some(ElementPicker)
  {
  }

  /** Cmd (meta) counts exactly as Ctrl does. */
  lemma MetaActsAsCtrl(key: string, shift: bool, alt: bool)
    ensures MatchedShortcut(KeyEvent(key, true, false, shift, alt))
         == MatchedShortcut(KeyEvent(key, false, true, shift, alt))
  {
  }

  /** Alt plays no role. */
  lemma AltIgnored(e: KeyEvent, alt: bool)
    ensures MatchedShortcut(e.(altKey := alt)) == MatchedShortcut(e)
  {
  }

  /** Without Shift, or without both Ctrl and Cmd, only F12 is suppressed. */
  lemma ChordNeedsBothModifiers(e: KeyEvent)
    requires !e.shiftKey || (!e.ctrlKey && !e.metaKey)
    ensures DefaultPrevented(KeyDown(e)) <==> e.key == "F12"
  {
  }

  /** Keys are matched case-sensitively: lower-case i, j, c and f12 pass through. */
  lemma LowerCasePasses(e: KeyEvent)
    requires e.key in {"i", "j", "c", "f12"}
    ensures !DefaultPrevented(KeyDown(e))
  {
  }

  /** Every key other than F12, I, J and C passes through, whatever is held. */
  lemma OtherKeysPass(e: KeyEvent)
    requires e.key !in {"F12", "I", "J", "C"}
    ensures !DefaultPrevented(KeyDown(e))
  {
  }
}
