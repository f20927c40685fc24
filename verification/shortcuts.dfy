/**
 * The keydown handler's decision table. Three independent tests are made on
 * each key event, each on the exact, case-sensitive key string; "modifier"
 * means the Control key or the Meta (Command) key.
 */
module Shortcuts {

  datatype KeyEvent = KeyEvent(key: string, ctrlKey: bool, metaKey: bool, shiftKey: bool)

  /** The three things the handler may do at once: cancel the default action, raise the capture alert, show the black overlay. */
  datatype KeyAction = KeyAction(preventDefault: bool, raiseAlert: bool, showOverlay: bool)

  predicate Modifier(e: KeyEvent)
  {
    e.metaKey || e.ctrlKey
  }

  /** Print and save: modifier + "p" or "s". */
  predicate IsPrintOrSave(e: KeyEvent)
  {
    Modifier(e) && (e.key == "p" || e.key == "s")
  }

  /** Copy and cut: modifier + "c" or "x". */
  predicate IsClipboard(e: KeyEvent)
  {
    Modifier(e) && (e.key == "c" || e.key == "x")
  }

  /** Screenshot keys: "PrintScreen" alone, or modifier + Shift + "3" or "4". */
  predicate IsScreenshot(e: KeyEvent)
  {
    e.key == "PrintScreen" || (Modifier(e) && e.shiftKey && (e.key == "3" || e.key == "4"))
  }

  /**
   * The response as the handler computes it: each test that fires adds its
   * effects, and the effects of the three tests are combined.
   */
  function KeyResponse(e: KeyEvent): (r: KeyAction)
    ensures r == Response(Classify(e))
  {
    KeyAction(
      preventDefault := IsPrintOrSave(e) || IsClipboard(e) || IsScreenshot(e),
      raiseAlert := IsPrintOrSave(e) || IsScreenshot(e),
      showOverlay := IsScreenshot(e))
  }

  /** The shortcuts the viewer knows, by what the user is attempting. */
  datatype Shortcut = Print | Save | Copy | Cut | PrintScreen | MacScreenshot | Unguarded

  /** A reference classification of a key event, keyed on the key string first. */
  function Classify(e: KeyEvent): (r: Shortcut)
  {
    if e.key == "PrintScreen" then PrintScreen
    else if !(e.ctrlKey || e.metaKey) then Unguarded
    else if e.key == "p" then Print
    else if e.key == "s" then Save
    else if e.key == "c" then Copy
    else if e.key == "x" then Cut
    else if (e.key == "3" || e.key == "4") && e.shiftKey then MacScreenshot
    else Unguarded
  }

  /** The decision table: what each kind of shortcut gets. */
  function Response(s: Shortcut): (r: KeyAction)
  {
    match s
    case Print | Save => KeyAction(true, true, false)
    case Copy | Cut => KeyAction(true, false, false)
    case PrintScreen | MacScreenshot => KeyAction(true, true, true)
    case Unguarded => KeyAction(false, false, false)
  }

  /** The effects nest: an overlay is always alerted, an alert is always cancelled. */
  lemma EffectsNest(e: KeyEvent)
    ensures KeyResponse(e).showOverlay ==> KeyResponse(e).raiseAlert
    ensures KeyResponse(e).raiseAlert ==> KeyResponse(e).preventDefault
  {
  }

  /** Key strings are compared exactly: upper-case letters and unmodified letters get no response. */
  lemma CaseSensitive(ctrl: bool, meta: bool, shift: bool)
    ensures KeyResponse(KeyEvent("P", ctrl, meta, shift)) == KeyAction(false, false, false)
    ensures KeyResponse(KeyEvent("S", ctrl, meta, shift)) == KeyAction(false, false, false)
    ensures KeyResponse(KeyEvent("p", false, false, shift)) == KeyAction(false, false, false)
    ensures KeyResponse(KeyEvent("printscreen", ctrl, meta, shift)) == KeyAction(false, false, false)
  {
  }
}
