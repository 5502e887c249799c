/** The theme toggle (script.js:7-21): a click flips the page's light mode
    and relabels the button with the mode a further click would switch to. */
module Theme {

  /** The button text for a given mode (script.js:15-19). */
  function Label(lightMode: bool): (r: string)
    ensures r == "Dark Mode" <==> lightMode
    ensures r == "Light Mode" <==> !lightMode
  {
    if lightMode then "Dark Mode" else "Light Mode"
  }

  /** What a user sees: whether `light-mode` is on the body, and the label. */
  datatype ThemeView = ThemeView(lightMode: bool, buttonText: string)

  /** One click: the mode flips, the label follows the new mode. */
  function AfterClick(v: ThemeView): (w: ThemeView)
    ensures w.lightMode == !v.lightMode
    ensures w.buttonText == "Dark Mode" <==> w.lightMode
    ensures w.buttonText == "Dark Mode" || w.buttonText == "Light Mode"
  {
    ThemeView(!v.lightMode, Label(!v.lightMode))
  }

  /** `n` clicks in a row. */
  function AfterClicks(v: ThemeView, n: nat): ThemeView
    decreases n
  {
    if n == 0 then v else AfterClicks(AfterClick(v), n - 1)
  }

  /** Two clicks restore the mode; they restore the label too exactly when
      the label already matched the mode (the markup's initial text need
      not). */
  lemma TwoClicksRestore(v: ThemeView)
    ensures AfterClick(AfterClick(v)).lightMode == v.lightMode
    ensures AfterClick(AfterClick(v)) == v <==> v.buttonText == Label(v.lightMode)
  {
  }

  /** After `n` clicks the mode is flipped exactly when `n` is odd, and after
      at least one click the label matches the mode. */
  lemma {:induction false} ClicksParity(v: ThemeView, n: nat)
    ensures AfterClicks(v, n).lightMode == (if n % 2 == 0 then v.lightMode else !v.lightMode)
    ensures n >= 1 ==> AfterClicks(v, n).buttonText == Label(AfterClicks(v, n).lightMode)
    decreases n
  {
    if n >= 1 {
      ClicksParity(AfterClick(v), n - 1);
    }
  }

  class ThemeToggle {
    /** Whether the body's class list holds `light-mode`. */
    var lightMode: bool
    /** The toggle button's `textContent`. */
    var buttonText: string

    /** The page as its markup starts it. */
    constructor (lightMode: bool, buttonText: string)
      ensures this.lightMode == lightMode && this.buttonText == buttonText
    {
      this.lightMode := lightMode;
      this.buttonText := buttonText;
    }

    function View(): ThemeView
      reads this
    {
      ThemeView(lightMode, buttonText)
    }

    /** The click handler (script.js:10-20). */
    method Click()
      modifies this
      ensures View() == AfterClick(old(View()))
    {
      lightMode := !lightMode;
      if lightMode {
        buttonText := "Dark Mode";
      } else {
        buttonText := "Light Mode";
      }
    }
  }
}
