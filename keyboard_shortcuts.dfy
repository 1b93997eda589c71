/**
  The keyboard-shortcuts panel (DayPickerKeyboardShortcuts): the list of shortcuts it
  shows, the key trap on its close button, and the toggle button that opens it. Opening
  and closing change the calendar's state; those steps are in DayPickerState.
*/
module KeyboardShortcuts {

  /** The phrase table the panel reads (the localization strings are opaque values). */
  datatype Phrases = Phrases(
    enterKey: string, selectFocusedDate: string,
    leftArrowRightArrow: string, moveFocusByOneDay: string,
    upArrowDownArrow: string, moveFocusByOneWeek: string,
    pageUpPageDown: string, moveFocusByOneMonth: string,
    homeEnd: string, moveFocustoStartAndEndOfWeek: string,
    escape: string, returnFocusToInput: string,
    questionMark: string, openThisPanel: string,
    showKeyboardShortcutsPanel: string, hideKeyboardShortcutsPanel: string)

  /** One line of the panel: the key symbol, its label and what it does. */
  datatype ShortcutRow = ShortcutRow(unicode: string, keyLabel: string, action: string)

  /** The key symbols of the panel, in the order it lists them. */
  const ShortcutSymbols: seq<string> := ["↵", "←/→", "↑/↓", "PgUp/PgDn", "Home/End", "Esc", "?"]

  /** The keys whose press on the close button closes the panel. */
  const CloseKeys: set<string> := {"Enter", " ", "Spacebar", "Escape"}

  /** The keys left to the browser so that the shortcut list can scroll. */
  const ScrollKeys: set<string> := {"ArrowUp", "ArrowDown"}

  /** The keys blocked entirely, so that neither focus nor the calendar beneath moves. */
  const TrappedKeys: set<string> := {"Tab", "Home", "End", "PageUp", "PageDown", "ArrowLeft", "ArrowRight"}

  /** getKeyboardShortcuts: the seven rows of the panel, in a fixed order. */
  function GetKeyboardShortcuts(p: Phrases): (rows: seq<ShortcutRow>)
    ensures |rows| == |ShortcutSymbols| == 7
    ensures forall i :: 0 <= i < |rows| ==> rows[i].unicode == ShortcutSymbols[i]
    ensures rows[0].keyLabel == p.enterKey && rows[0].action == p.selectFocusedDate
    ensures rows[1].keyLabel == p.leftArrowRightArrow && rows[1].action == p.moveFocusByOneDay
    ensures rows[2].keyLabel == p.upArrowDownArrow && rows[2].action == p.moveFocusByOneWeek
    ensures rows[3].keyLabel == p.pageUpPageDown && rows[3].action == p.moveFocusByOneMonth
    ensures rows[4].keyLabel == p.homeEnd && rows[4].action == p.moveFocustoStartAndEndOfWeek
    ensures rows[5].keyLabel == p.escape && rows[5].action == p.returnFocusToInput
    ensures rows[6].keyLabel == p.questionMark && rows[6].action == p.openThisPanel
  {
    [
      ShortcutRow("↵", p.enterKey, p.selectFocusedDate),
      ShortcutRow("←/→", p.leftArrowRightArrow, p.moveFocusByOneDay),
      ShortcutRow("↑/↓", p.upArrowDownArrow, p.moveFocusByOneWeek),
      ShortcutRow("PgUp/PgDn", p.pageUpPageDown, p.moveFocusByOneMonth),
      ShortcutRow("Home/End", p.homeEnd, p.moveFocustoStartAndEndOfWeek),
      ShortcutRow("Esc", p.escape, p.returnFocusToInput),
      ShortcutRow("?", p.questionMark, p.openThisPanel)
    ]
  }

  /** What a key press on the panel's close button does to the event and the panel. */
  datatype PanelKeyResponse = PanelKeyResponse(stopsPropagation: bool, preventsDefault: bool, closesPanel: bool)

  /** onKeyDown of the close button: the focus trap. */
  function PanelKeyDown(key: string): (r: PanelKeyResponse)
    ensures r.stopsPropagation
    ensures r.closesPanel <==> key in CloseKeys
    ensures r.preventsDefault <==> key in TrappedKeys
    ensures key in ScrollKeys ==> !r.closesPanel && !r.preventsDefault
  {
    match key
    case "Enter" | " " | "Spacebar" | "Escape" => PanelKeyResponse(true, false, true)
    case "ArrowUp" | "ArrowDown" => PanelKeyResponse(true, false, false)
    case "Tab" | "Home" | "End" | "PageUp" | "PageDown" | "ArrowLeft" | "ArrowRight" =>
      PanelKeyResponse(true, true, false)
    case _ => PanelKeyResponse(true, false, false)
  }

  /** The spoken label of the toggle button. */
  function ToggleButtonText(shown: bool, p: Phrases): (text: string)
    ensures shown ==> text == p.hideKeyboardShortcutsPanel
    ensures !shown ==> text == p.showKeyboardShortcutsPanel
  {
    if shown then p.hideKeyboardShortcutsPanel else p.showKeyboardShortcutsPanel
  }

  /** What a key press on the toggle (show) button does. */
  datatype ShowButtonKeyResponse = ShowButtonKeyResponse(preventsDefault: bool, opensPanel: bool)

  /**
    onKeyDown of the toggle button: Enter only cancels the default action, the key
    named 'Space' opens the panel, any other key does nothing.
  */
  function ShowButtonKeyDown(key: string): (r: ShowButtonKeyResponse)
    ensures r.preventsDefault <==> key == "Enter"
    ensures r.opensPanel <==> key == "Space"
  {
    if key == "Enter" then ShowButtonKeyResponse(true, false)
    else if key == "Space" then ShowButtonKeyResponse(false, true)
    else ShowButtonKeyResponse(false, false)
  }

  /** The component instance: it keeps the rows it renders and rebuilds them when the phrases change. */
  class DayPickerKeyboardShortcuts {
    var phrases: Phrases
    var keyboardShortcuts: seq<ShortcutRow>

    ghost predicate Valid()
      reads this
    {
      keyboardShortcuts == GetKeyboardShortcuts(phrases)
    }

    constructor (phrases: Phrases)
      ensures Valid() && this.phrases == phrases
    {
      this.phrases := phrases;
      keyboardShortcuts := GetKeyboardShortcuts(phrases);
    }

    /** componentWillReceiveProps: new phrases bring new rows. */
    method ReceivePhrases(next: Phrases)
      requires Valid()
      modifies this
      ensures Valid() && phrases == next
    {
      if next != phrases {
        keyboardShortcuts := GetKeyboardShortcuts(next);
      }
      phrases := next;
    }
  }
}
