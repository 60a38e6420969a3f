/**
 * The settings panel's show/hide behaviour. Two listeners share the
 * `isVisible` flag: one on the settings button flips it, one on the whole
 * document hides the panel when a click lands outside both the panel and
 * the button. A click on the button reaches the button's listener first
 * and then bubbles up to the document's listener, which leaves it alone.
 * A click on an element nested inside the button (an icon, say) reaches
 * the button's listener the same way, but the document's listener only
 * spares the button element itself, so it hides the panel again at once.
 *
 * `Panel` is the state the listeners see (the flag and the panel's inline
 * `display` style); the functions give the effect of one click and of a
 * run of clicks, and the class `SettingsPanel` updates that state in place.
 */
module SettingsPanels {

  /** Where a click lands: on the button element, on an element inside it, inside the panel, or anywhere else. */
  datatype Target = SettingsButton | InsideButton | InsidePanel | Elsewhere

  /** The click bubbles through the settings button, so the button's listener runs. */
  predicate ReachesButton(target: Target)
  {
    target == SettingsButton || target == InsideButton
  }

  datatype Panel = Panel(isVisible: bool, display: string)

  const Block: string := "block"
  const Hidden: string := "none"

  /** The panel shows exactly when the flag says it is visible. */
  predicate Synced(p: Panel)
  {
    p.display == Block <==> p.isVisible
  }

  /** The button's listener: flips the flag and shows or hides the panel to match. */
  function OnButtonClick(p: Panel): (q: Panel)
    ensures q.isVisible == !p.isVisible
    ensures Synced(q)
  {
    var visible := !p.isVisible;
    Panel(visible, if visible then Block else Hidden)
  }

  /**
   * The document's listener: a click whose target is neither inside the
   * panel nor the button element itself hides the panel.
   */
  function OnDocumentClick(p: Panel, target: Target): (q: Panel)
    ensures target == Elsewhere || target == InsideButton ==> !q.isVisible && q.display == Hidden
    ensures target.InsidePanel? || target.SettingsButton? ==> q == p
  {
    if target != InsidePanel && target != SettingsButton then Panel(false, Hidden) else p
  }

  /** One click: the button's listener when the click bubbles through the button, then the document's. */
  function Click(p: Panel, target: Target): (q: Panel)
    ensures target == SettingsButton ==> q.isVisible == !p.isVisible && Synced(q)
    ensures target == InsideButton ==> !q.isVisible && q.display == Hidden
    ensures target == Elsewhere ==> !q.isVisible && q.display == Hidden
    ensures target == InsidePanel ==> q == p
  {
    var afterButton := if ReachesButton(target) then OnButtonClick(p) else p;
    OnDocumentClick(afterButton, target)
  }

  /** The state after a run of clicks, in order. */
  function Run(p: Panel, targets: seq<Target>): Panel
    decreases |targets|
  {
    if targets == [] then p else Run(Click(p, targets[0]), targets[1..])
  }

  /** Two clicks on the button bring the flag back to where it was. */
  lemma ButtonTwiceRestores(p: Panel)
    ensures Click(Click(p, SettingsButton), SettingsButton).isVisible == p.isVisible
  {
  }

  /** One more click after a run acts on the state the run left. */
  lemma {:induction false} RunAppend(p: Panel, targets: seq<Target>, t: Target)
    ensures Run(p, targets + [t]) == Click(Run(p, targets), t)
    decreases |targets|
  {
    if targets == [] {
      assert [t][1..] == [];
    } else {
      assert (targets + [t])[1..] == targets[1..] + [t];
      RunAppend(Click(p, targets[0]), targets[1..], t);
    }
  }

  /** Once the display matches the flag, no run of clicks separates them again. */
  lemma {:induction false} RunKeepsSynced(p: Panel, targets: seq<Target>)
    requires Synced(p)
    ensures Synced(Run(p, targets))
    decreases |targets|
  {
    if targets != [] {
      RunKeepsSynced(Click(p, targets[0]), targets[1..]);
    }
  }

  /**
   * Whatever came before, a run that ends with a click elsewhere, or on an
   * element inside the button, leaves the panel hidden.
   */
  lemma RunEndingOutsideCloses(p: Panel, targets: seq<Target>, last: Target)
    requires last == Elsewhere || last == InsideButton
    ensures !Run(p, targets + [last]).isVisible
    ensures Run(p, targets + [last]).display == Hidden
  {
    RunAppend(p, targets, last);
  }

  /** The panel's state as the two listeners share it. */
  class SettingsPanel {
    var isVisible: bool
    var display: string

    function State(): Panel
      reads this
    {
      Panel(isVisible, display)
    }

    /** Listeners are attached with the panel hidden; its display is whatever the page set. */
    constructor (initialDisplay: string)
      ensures State() == Panel(false, initialDisplay)
    {
      isVisible := false;
      display := initialDisplay;
    }

    method HandleButtonClick()
      modifies this
      ensures State() == OnButtonClick(old(State()))
    {
      isVisible := !isVisible;
      display := if isVisible then Block else Hidden;
    }

    method HandleDocumentClick(target: Target)
      modifies this
      ensures State() == OnDocumentClick(old(State()), target)
    {
      if target != InsidePanel && target != SettingsButton {
        isVisible := false;
        display := Hidden;
      }
    }

    /** Dispatches one click to the listeners in the order the browser runs them. */
    method Dispatch(target: Target)
      modifies this
      ensures State() == Click(old(State()), target)
    {
      if ReachesButton(target) {
        HandleButtonClick();
      }
      HandleDocumentClick(target);
    }
  }

  /**
   * Sets the panel up when both the button and the panel exist on the page;
   * otherwise does nothing and there is no panel.
   */
  method Initialize(hasButton: bool, hasPanel: bool, initialDisplay: string) returns (panel: SettingsPanel?)
    ensures panel == null <==> !hasButton || !hasPanel
    ensures panel != null ==> fresh(panel) && panel.State() == Panel(false, initialDisplay)
  {
    if !hasButton || !hasPanel {
      return null;
    }
    panel := new SettingsPanel(initialDisplay);
  }
}
