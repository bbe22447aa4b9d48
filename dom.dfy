/** Optional values, used for "an element was found" / "nothing was found". */
module Wrappers {
  datatype Option<T> = None | Some(value: T)
}

/**
 * The vocabulary in which the live web page is observed.
 *
 * The scripts never reason about the page itself; they ask the browser
 * driver questions (does this selector match?, is this element displayed?,
 * does this click raise?) and branch on the answers.  Here those answers
 * are plain values handed to the model: a finder maps each locator to what
 * `find_element` would return, and predicates on element handles say what
 * `is_displayed`, `click` and the JavaScript click fallback would do.
 */
module Dom {
  /** An opaque handle to a node of the page. */
  type Element = nat

  /**
   * A selector and the locator strategy used to evaluate it.  The selector
   * string is named by its index in the query table of the module that
   * declares the locator, so that proofs never carry the strings themselves.
   */
  datatype Locator = Css(query: nat) | XPath(query: nat)

  /** What `find_element` yields: the first matching node, or the "no such element" condition. */
  datatype Lookup = Missing | Found(el: Element)

  /** The interactions the scripts perform on the page, in the order performed. */
  datatype Act =
    | Click(el: Element)         // element.click()
    | ScriptClick(el: Element)   // execute_script("arguments[0].click();", el)
    | NavigateBack               // driver.back()
    | Blur                       // document.activeElement.blur()
    | ClickBody                  // document.body.click()

  /** What a page interaction observes about element handles. */
  datatype Behaviour = Behaviour(
    shown: Element -> bool,             // is_displayed()
    clickRaises: Element -> bool,       // element.click() raises
    scriptClickRaises: Element -> bool) // the JavaScript click raises

  /** The outcome of a direct click followed, if it raised, by the JavaScript click. */
  datatype Clicked = Clicked(acts: seq<Act>, ok: bool)

  /**
   * The direct-then-programmatic click used throughout the scripts: a direct
   * click, and only when it raises, a JavaScript click on the same element.
   */
  function ClickWithFallback(b: Behaviour, e: Element): (c: Clicked)
    ensures c.ok <==> !b.clickRaises(e) || !b.scriptClickRaises(e)
    ensures |c.acts| >= 1 && c.acts[0] == Click(e)
    ensures |c.acts| == 2 <==> b.clickRaises(e)
    ensures |c.acts| <= 2 && (|c.acts| == 2 ==> c.acts[1] == ScriptClick(e))
  {
    if !b.clickRaises(e) then Clicked([Click(e)], true)
    else Clicked([Click(e), ScriptClick(e)], !b.scriptClickRaises(e))
  }
}
