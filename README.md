# react-dates: the calendar's navigation and focus engine, in Dafny

This project models the keyboard and month-navigation core of the react-dates date
pickers and proves properties of it.

- **DayPicker** shows `numberOfMonths` consecutive months starting at `currentMonth`.
  It keeps a buffer `calendarMonthWeeks` with the number of grid rows of the hidden month
  before the window, of each visible month and of the hidden month after it. The buffer
  sizes the calendar and the vertical slide offsets. A month change is a transition: the
  prev/next buttons, the keyboard or the month and year captions start it
  (`monthTransition`, `translationValue`), and `updateStateAfterMonthTransition` commits
  it later. The commit moves the month, shifts the buffer and settles the keyboard focus.
  Until then the focus waits in `nextFocusedDate`. The keyboard-shortcuts panel stores a
  close callback when it opens and runs it once when it closes.
- **DayPickerKeyboardShortcuts** is the panel's focus trap (which keys close the panel,
  which pass through, which are blocked), its table of seven shortcuts, and its toggle
  button.
- **DateInput** is the text field. It diverts a typed `?` to the parent. It hands Tab,
  Shift-Tab, ArrowDown and `?` to the parent, behind a 300 ms throttle that drops
  modifier keys. It drops typed text once the parent displays a value, and it decides its
  shown text, its `readOnly` attribute and when it takes DOM focus.

Layout:

- `dates.dfy` (module `Dates`): dates as a month index (year * 12 + month) and a day. The
  date services the picker calls (moment's day, week and month arithmetic and the
  week-count utility) are a `Calendar` record of functions passed in.
- `rate_limit.dfy` (`RateLimit`): lodash's leading-edge throttle, with the clock as a
  parameter and a last-fired timestamp.
- `keys.dfy` (`Keys`): the modifier-key names.
- `keyboard_shortcuts.dfy` (`KeyboardShortcuts`): the panel component.
- `day_picker_state.dfy` (`DayPickerState`): DayPicker's state as a record and every
  handler as a pure step function, with the lemmas.
- `day_picker.dfy` (`DayPickerComponent`): the `DayPicker` class. Its fields are the
  component's state and instance fields. Every handler is proved to produce exactly the
  step function's result, and to keep the buffer on the months around `currentMonth`.
  Where the code has one of the two bugs listed under "## Findings", the class runs the
  corrected step (`FinalKeyDown`, `ReceiveProps`). The code as written is the pair of
  pure functions `FinalKeyDownAsWritten` and `ReceivePropsAsWritten`.
- `date_input.dfy` (`DateInputComponent`): the text field's rules and the `DateInput`
  class.

Callbacks the components fire (`onPrevMonthClick`, `onBlur`, `onChange`, ...) are recorded,
oldest first, in a `notices` log. So are the focus moves that the panel's close
callbacks make (`FocusMoved`). Other DOM focus calls are handled differently; see
"## Left out".

The model follows the code where it does more than the code's comments and names
suggest:

- Starting a transition while one is running is not refused: `onPrevMonthClick` and
  `onNextMonthClick` overwrite `monthTransition`, and the commit then applies only the
  later transition (`DayPickerState.LaterTransitionReplacesEarlier`).
- Starting a transition clears `focusedDate` at once (DayPicker.jsx:451, :515). The
  comment at DayPicker.jsx:416-418 speaks only of holding the new date back until the
  commit. `DayPickerState.NavigationKeyRule` states the clearing.

Assumptions:

- `isDayVisible(day, month, n)` holds when the day's month lies in the `n` months from
  `month`. DayPicker never passes `enableOutsideDays` to it.
- The modifier-key set `MODIFIER_KEY_NAMES` is `Shift`, `Control`, `Alt` and `Meta`.
  `constants.js` is not part of this model.
- Lemmas that need calendar facts take `WellBehaved(cal)`: moving by up to a week (or to
  the start or end of the week) changes the month by at most one in that direction, and
  adding k months adds k to the month index.

## Model

| member | source | states |
|---|---|---|
| Dates.MonthOfYear | src/components/DayPicker.jsx:597-598 | `.month()` is the 0-based month of the year, congruent to the month index modulo 12 |
| Dates.MonthOfYearDecidesNearbyMonths | src/components/DayPicker.jsx:597-600 | for dates less than a year apart, comparing months of the year decides as comparing whole months does |
| Dates.MonthOfYearIgnoresTheYear | src/components/DayPicker.jsx:597-600 | dates twelve months apart have the same month of the year |
| RateLimit.FireCount | src/components/DayPicker.jsx:203 | counts the calls of a series that fire under the `ShouldFire`/`AfterCall` rule `Throttle.Call` follows, at most one per call; what fires is stated by `WithinWindowNoneFire`, `BurstFiresOnce` and `SpacedCallsAllFire` |
| RateLimit.WithinWindowNoneFire | src/components/DateInput.jsx:92 | calls within `wait` of the last call that fired are all dropped |
| RateLimit.BurstFiresOnce | src/components/DayPicker.jsx:203 | a burst inside one window, led by a call that fires, fires exactly once (leading edge only, nothing trailing) |
| RateLimit.SpacedCallsAllFire | src/components/DateInput.jsx:92 | calls at least `wait` apart all fire |
| RateLimit.Throttle.constructor | src/components/DayPicker.jsx:203 | a new throttle has the given wait and has never fired |
| RateLimit.Throttle.Call | src/components/DateInput.jsx:92 | a call fires iff nothing fired yet or `wait` has passed since the last firing; only firing calls move the timestamp |
| KeyboardShortcuts.GetKeyboardShortcuts | src/components/DayPickerKeyboardShortcuts.jsx:35-73 | exactly seven rows in the order ↵, ←/→, ↑/↓, PgUp/PgDn, Home/End, Esc, ?, each with its label and action phrase |
| KeyboardShortcuts.PanelKeyDown | src/components/DayPickerKeyboardShortcuts.jsx:98-134 | propagation always stopped; the panel closes iff the key is Enter, ' ', 'Spacebar' or Escape; default prevented iff the key is Tab, Home, End, PageUp, PageDown, ArrowLeft or ArrowRight; ArrowUp/ArrowDown do neither |
| KeyboardShortcuts.ToggleButtonText | src/components/DayPickerKeyboardShortcuts.jsx:169-171 | the "hide" phrase while the panel is shown, the "show" phrase otherwise |
| KeyboardShortcuts.ShowButtonKeyDown | src/components/DayPickerKeyboardShortcuts.jsx:191-197 | default prevented iff the key is Enter; the panel opens iff the key is 'Space' |
| KeyboardShortcuts.DayPickerKeyboardShortcuts.constructor | src/components/DayPickerKeyboardShortcuts.jsx:76-86 | the stored rows are the table for the given phrases |
| KeyboardShortcuts.DayPickerKeyboardShortcuts.ReceivePhrases | src/components/DayPickerKeyboardShortcuts.jsx:88-92 | after new phrases arrive the stored rows are the table for them |
| DayPickerState.WeeksFrom | src/components/DayPicker.jsx:568-579 | `count` entries, entry i being the week count of month `month + i` |
| DayPickerState.ConsistentIsWellFormed | src/components/DayPicker.jsx:568-579 | a buffer for the current month has length numberOfMonths + 2 and entry i is Weeks(currentMonth - 1 + i) |
| DayPickerState.ShiftForwardIsRecompute | src/components/DayPicker.jsx:673-678 | tail of the buffer plus the new hidden month equals the buffer recomputed for the next month |
| DayPickerState.ShiftBackwardIsRecompute | src/components/DayPicker.jsx:667-672 | the new hidden month plus the buffer without its last entry equals the buffer recomputed for the previous month |
| DayPickerState.MaxOr0 | src/components/DayPicker.jsx:444 | `Math.max(0, ...xs)`: non-negative, at least every entry, and 0 or one of the entries |
| DayPickerState.HorizontalSlideIsOneMonthWidth | src/components/DayPicker.jsx:432-504 | horizontally a prev slide is one month width from the resting offset (sign flipped under RTL), and a next slide is the same distance the other way |
| DayPickerState.VerticalSlideIsMonthHeight | src/components/DayPicker.jsx:432-504 | vertically a prev slide is the height of the hidden month before the window, a next slide minus the height of the first visible month |
| DayPickerState.FirstVisibleIndex | src/components/DayPicker.jsx:529-543 | the first visible slot is one of 0, 1, 2, and always 0 in the vertically scrollable layout |
| DayPickerState.FirstVisibleIndexIsCommittedMonth | src/components/DayPicker.jsx:529-543 | during a transition the first visible slot holds the month that is first after the commit (0 for prev, 2 for next, 1 otherwise) |
| DayPickerState.GetFocusedDay | src/components/DayPicker.jsx:545-558 | a visible day proposed by getFirstFocusableDay is returned; otherwise the first of the month; with at least one month shown the result is always visible |
| DayPickerState.Initial | src/components/DayPicker.jsx:165-194 | the constructor's state: today's month when hidden, else initialVisibleMonth, with the buffer for that month; the focused date is the first of the month, or getFirstFocusableDay's proposal taken without a visibility check, or none when hidden and unfocused; `InitialIsConsistent` states it |
| DayPickerState.InitialIsConsistent | src/components/DayPicker.jsx:165-194 | the constructor shows initialVisibleMonth (today when hidden) with no transition, nothing pending, mouse mode, and the buffer built for that month; the focused date is none when hidden and unfocused, the (visible) first of the month without getFirstFocusableDay, else its unchecked proposal |
| DayPickerState.ReceivePropsAsWrittenLosesBuffer | src/components/DayPicker.jsx:245-252 | as written, showing a hidden picker can leave the buffer describing months other than the new current month |
| DayPickerState.ReceivePropsAsWritten | src/components/DayPicker.jsx:235-286 | componentWillReceiveProps as written: on first show it sets `currentMonth` and `hasSetInitialVisibleMonth` without rebuilding the buffer; `ReceivePropsAsWrittenLosesBuffer` shows the consequence |
| DayPickerState.ReceivePropsPreservesConsistency | src/components/DayPicker.jsx:245-252 | the corrected handler takes initialVisibleMonth on first show and keeps the buffer on the current month |
| DayPickerState.ReceivePropsFocusRule | src/components/DayPicker.jsx:260-279 | gaining focus focuses getFocusedDay(currentMonth) in keyboard mode and makes onBlur the panel's close callback when the panel comes along; losing focus clears the focused date |
| DayPickerState.ContainerNeverFocusedAfterReceiveProps | src/components/DayPicker.jsx:311-318 | the container-focus condition of componentDidUpdate is never met right after componentWillReceiveProps |
| DayPickerState.ShouldFocusContainer | src/components/DayPicker.jsx:311-318 | componentDidUpdate focuses the container iff focus arrived and no date is focused; `ContainerNeverFocusedAfterReceiveProps` shows it never holds after a props update |
| DayPickerState.CommitNextShiftsBuffer | src/components/DayPicker.jsx:673-678 | a next commit advances the month by one, appends the new hidden month to the tail of the buffer, keeps its length, and equals a recomputation |
| DayPickerState.CommitPrevShiftsBuffer | src/components/DayPicker.jsx:667-672 | a prev commit moves the month back by one, prepends the new hidden month to the buffer without its last entry, and equals a recomputation |
| DayPickerState.Commit | src/components/DayPicker.jsx:644-697 | updateStateAfterMonthTransition: no-op when no transition runs, else move the month, shift the buffer, fire one callback and settle the focus; stated by `CommitSettles`, `CommitResolvesFocus`, `CommitPreservesConsistency` and the two shift lemmas |
| DayPickerState.CommitPreservesConsistency | src/components/DayPicker.jsx:663-682 | every commit leaves the buffer on the months around the new current month |
| DayPickerState.CommitSettles | src/components/DayPicker.jsx:663-697 | a commit with no transition changes nothing; otherwise it ends with no transition, no pending focus and the resting offset; committing twice is committing once |
| DayPickerState.CommitResolvesFocus | src/components/DayPicker.jsx:685-690 | the focus becomes the pending date if any; else getFocusedDay(newMonth) when there was no focused date and no mouse use; else none |
| DayPickerState.TransitionHeightIsCommittedHeight | src/components/DayPicker.jsx:426-518 | the height set when a prev or next transition starts is the height of the window after its commit |
| DayPickerState.PrevMonthClick | src/components/DayPicker.jsx:426-454 | the prev transition's start: its offset (`HorizontalSlideIsOneMonthWidth`, `VerticalSlideIsMonthHeight`), its height (`TransitionHeightIsCommittedHeight`), the cleared focus and the pending date |
| DayPickerState.NextMonthClick | src/components/DayPicker.jsx:486-518 | the next transition's start, stated by the same lemmas as the prev one |
| DayPickerState.NextThenPrevRestoresWindow | src/components/DayPicker.jsx:667-678 | a committed next then a committed prev (or the reverse) restores the current month and the buffer |
| DayPickerState.LaterTransitionReplacesEarlier | src/components/DayPicker.jsx:448-453 | a transition started while another runs overwrites it; the commit moves by the later one only |
| DayPickerState.PageMovesByOne | src/components/DayPicker.jsx:663-678 | one completed page moves the month by one and keeps the buffer consistent |
| DayPickerState.PageAll | src/components/DayPicker.jsx:663-678 | any series of completed pages keeps the buffer consistent |
| DayPickerState.PageAllMovesByNet | src/components/DayPicker.jsx:663-678 | any series of completed pages moves the month by the number of next steps minus prev steps; with as many of each the month and buffer are restored |
| DayPickerState.CloseRunsCallbackOnce | src/components/DayPicker.jsx:740-758 | closing after opening runs the stored callback once and hides the panel; a second close runs nothing |
| DayPickerState.PanelKeysStayInPanel | src/components/DayPickerKeyboardShortcuts.jsx:98-134 | keys in the panel never move the month, buffer, transition or focus; closing keys run the callback exactly once; other keys change nothing |
| DayPickerState.ShowButtonRoundTrip | src/components/DayPickerKeyboardShortcuts.jsx:136-141 | the toggle button opens the panel so that closing it moves focus back to the button |
| DayPickerState.NavigationTargetAsWritten | src/components/DayPicker.jsx:350-398 | the eight navigation keys have a candidate; Up, Left, Home and PageUp check a prev transition, the rest a next one, even under RTL |
| DayPickerState.NavigationTarget | src/components/DayPicker.jsx:350-398 | corrected: the same candidates, with the direction following the date under RTL; equal to the code in left-to-right layout |
| DayPickerState.NavigationTargetOfKey | src/components/DayPicker.jsx:350-398 | Up/Down ∓1 week, Left/Right ∓1 day (swapped under RTL), Home/End start/end of week, PageUp/PageDown ∓1 month; other keys have no candidate |
| DayPickerState.NavigationDateMovesOneMonth | src/components/DayPicker.jsx:350-398 | under a well-behaved calendar, earlier-moving keys land in the same or previous month, the others in the same or next month |
| DayPickerState.MonthOfYearComparisonIsSound | src/components/DayPicker.jsx:597-600 | for every navigation candidate the year-blind month comparison agrees with comparing whole months |
| DayPickerState.KeyDownWithoutFocus | src/components/DayPicker.jsx:331-336 | with no focused date a keydown only sets withMouseInteractions to false and prevents nothing |
| DayPickerState.NavigationKeyRule | src/components/DayPicker.jsx:593-621 | a transition starts iff the candidate is in another month and hidden; then the focus is cleared and the candidate is pending; otherwise the candidate is focused and nothing else moves |
| DayPickerState.PanelKeysOfTheCalendar | src/components/DayPicker.jsx:400-410 | '?' opens the panel with a callback that refocuses the element active at the time; Escape closes an open panel, else calls onBlur |
| DayPickerState.FinalKeyDownAsWritten | src/components/DayPicker.jsx:331-424 | onFinalKeyDown as written, with the transition direction taken from the key; `ArrowLeftUnderRtlLosesFocus` shows it losing the focus under RTL |
| DayPickerState.FinalKeyDownPrevents | src/components/DayPicker.jsx:350-398 | preventDefault is called iff a date is focused and the key is one of the eight navigation keys; `DayPicker.OnFinalKeyDown` returns exactly this |
| DayPickerState.KeyboardFocusStaysVisible | src/components/DayPicker.jsx:350-423 | corrected: from a settled window with a visible focused date, after any navigation key and its commit the focused date is visible |
| DayPickerState.ArrowLeftUnderRtlLosesFocus | src/components/DayPicker.jsx:355-363 | as written, under RTL ArrowLeft on the last visible day shows the previous month and focuses a day outside the window |
| DayPickerState.PagingPastTheWindowEdge | src/components/DayPicker.jsx:380-388 | one month shown, focus on its last day: ArrowRight starts a next transition with the focus held back, and the commit shows the next month focusing its first day |
| DayPickerState.NoDayFocusDuringTransition | src/components/DayPicker.jsx:909-911 | no day takes DOM focus while a transition runs; after the commit it does iff the picker has focus |
| DayPickerState.SelectMonthIsConsistent | src/components/DayPicker.jsx:456-484 | month and year selection rebuild the buffer for the chosen month; the commit keeps it and focuses the chosen month |
| DayPickerState.SelectMonth | src/components/DayPicker.jsx:456-484 | onMonthChange and onYearChange: jump to the chosen month with a rebuilt buffer and that month pending as focus; `SelectMonthIsConsistent` states it |
| DayPickerComponent.DayPicker.constructor | src/components/DayPicker.jsx:165-219 | the new object is in the initial state, with a fresh 200 ms throttle that has never fired |
| DayPickerComponent.DayPicker.SetCalendarMonthWeeks | src/components/DayPicker.jsx:568-579 | the loop builds exactly the buffer of the months around `month` |
| DayPickerComponent.DayPicker.AdjustDayPickerHeight | src/components/DayPicker.jsx:714-725 | the stored height becomes the month height plus the padding of 23 |
| DayPickerComponent.DayPicker.CalculateAndSetDayPickerHeight | src/components/DayPicker.jsx:727-738 | horizontally, the stored height is that of the visible months; otherwise unchanged |
| DayPickerComponent.DayPicker.OnKeyDown | src/components/DayPicker.jsx:324-329 | propagation stopped; modifier keys never reach the handler and leave the throttle alone; other keys reach it iff the throttle fires |
| DayPickerComponent.DayPicker.OnFinalKeyDown | src/components/DayPicker.jsx:331-424 | the new state is the corrected keyboard step; default prevented iff there is a focused date and the key navigates |
| DayPickerComponent.DayPicker.NavigateFrom | src/components/DayPicker.jsx:350-398 | each navigation case moves the focus to the key's target, or starts the transition that holds it back |
| DayPickerComponent.DayPicker.FocusCandidate | src/components/DayPicker.jsx:419-423 | the candidate is pending behind a transition or focused at once, as the transition rule says |
| DayPickerComponent.DayPicker.MaybeTransitionNextMonth | src/components/DayPicker.jsx:593-606 | reports whether the candidate is in another month and hidden, and starts a next transition exactly then |
| DayPickerComponent.DayPicker.MaybeTransitionPrevMonth | src/components/DayPicker.jsx:608-621 | reports whether the candidate is in another month and hidden, and starts a prev transition exactly then |
| DayPickerComponent.DayPicker.OnPrevMonthClick | src/components/DayPicker.jsx:426-454 | starts a prev transition with its offset and height, clearing the focus and storing the pending date |
| DayPickerComponent.DayPicker.OnNextMonthClick | src/components/DayPicker.jsx:486-518 | starts a next transition with its offset and height, clearing the focus and storing the pending date |
| DayPickerComponent.DayPicker.SetTransitionState | src/components/DayPicker.jsx:448-453 | the transition's kind, offset and pending focus are stored, the focused date is cleared, and nothing else changes |
| DayPickerComponent.DayPicker.OnMonthChange | src/components/DayPicker.jsx:456-469 | jumps to the chosen month with a rebuilt buffer and that month pending as focus |
| DayPickerComponent.DayPicker.OnYearChange | src/components/DayPicker.jsx:471-484 | jumps to the chosen month with a rebuilt buffer and that month pending as focus |
| DayPickerComponent.DayPicker.UpdateStateAfterMonthTransition | src/components/DayPicker.jsx:644-712 | performs the commit and keeps the buffer consistent |
| DayPickerComponent.DayPicker.CommitMonth | src/components/DayPicker.jsx:663-682 | the new month, the shifted buffer and the one callback the transition fires |
| DayPickerComponent.DayPicker.SettleTransition | src/components/DayPicker.jsx:692-697 | the window rests on the new month at the resting offset, with the resolved focus and nothing pending |
| DayPickerComponent.DayPicker.OpenKeyboardShortcutsPanel | src/components/DayPicker.jsx:740-745 | shows the panel and stores the close callback |
| DayPickerComponent.DayPicker.CloseKeyboardShortcutsPanel | src/components/DayPicker.jsx:747-758 | runs the stored callback, clears it and hides the panel |
| DayPickerComponent.DayPicker.KeyboardShortcutsPanelKeyDown | src/components/DayPickerKeyboardShortcuts.jsx:98-134 | the panel's response, and a close exactly for the closing keys |
| DayPickerComponent.DayPicker.ShowKeyboardShortcutsButtonClick | src/components/DayPickerKeyboardShortcuts.jsx:136-141 | opens the panel with the refocus-the-button callback |
| DayPickerComponent.DayPicker.ShowKeyboardShortcutsButtonKeyDown | src/components/DayPickerKeyboardShortcuts.jsx:191-197 | the button's response, opening the panel exactly for 'Space' |
| DayPickerComponent.DayPicker.MultiplyScrollableMonths | src/components/DayPicker.jsx:623-632 | one more screenful and one onMultiplyScrollableMonths call |
| DayPickerComponent.DayPicker.SetMonthTitleHeight | src/components/DayPicker.jsx:560-566 | stores the title height and re-sizes the horizontal container |
| DayPickerComponent.DayPicker.OnMouseUp | src/components/DayPicker.jsx:1002 | marks the last interaction as mouse |
| DayPickerComponent.DayPicker.ComponentWillReceiveProps | src/components/DayPicker.jsx:235-286 | performs the corrected props step and reports componentDidUpdate's container-focus decision |
| DayPickerComponent.DayPicker.ApplyFocusProps | src/components/DayPicker.jsx:260-285 | the focus, close-callback and title-height updates for the new props |
| DateInputComponent.ChangeStep | src/components/DateInput.jsx:116-128 | text ending in '?' fires only onKeyDownQuestionMark and keeps the stored text; any other text is stored and passed to onChange |
| DateInputComponent.ChangesNeverStoreQuestionMark | src/components/DateInput.jsx:123-127 | over any series of changes the stored text never ends in '?', and each change fires exactly its one callback |
| DateInputComponent.LastPlainTextIsStored | src/components/DateInput.jsx:123-127 | after a series of changes the field holds the last text not ending in '?' |
| DateInputComponent.AllQuestionMarksKeepText | src/components/DateInput.jsx:123-124 | changes whose texts all end in '?' leave the stored text alone |
| DateInputComponent.FinalKeyDownOutcome | src/components/DateInput.jsx:137-158 | at most one callback: Shift-Tab, Tab, ArrowDown or '?' to their handlers, nothing for other keys; default prevented iff '?' |
| DateInputComponent.QuestionMarkEitherWay | src/components/DateInput.jsx:116-158 | a '?' reaches the parent the same way as a keydown and as a change, and never enters the text |
| DateInputComponent.ClearedDateString | src/components/DateInput.jsx:99-105 | the typed text is cleared iff it and the incoming displayValue are both non-empty, and is otherwise kept |
| DateInputComponent.DisplayedValue | src/components/DateInput.jsx:189 | displayValue if non-empty, else the typed text; empty iff both are |
| DateInputComponent.ReceivedDisplayValueWins | src/components/DateInput.jsx:99-105 | once the parent displays a value the field shows it and holds no typed text; otherwise it keeps showing the typed text |
| DateInputComponent.ReadOnlyAttribute | src/components/DateInput.jsx:229 | the boolean prop when given, else the touch-device flag |
| DateInputComponent.ShouldFocusInput | src/components/DateInput.jsx:107-114 | focus only when `focused` and `isFocused` both hold and one of them changed |
| DateInputComponent.FocusRequestedOnce | src/components/DateInput.jsx:107-114 | focus is requested when both flags become set, and not again while they stay set |
| DateInputComponent.DateInput.constructor | src/components/DateInput.jsx:81-93 | empty text, not touch, no callbacks, and a fresh 300 ms throttle |
| DateInputComponent.DateInput.ComponentDidMount | src/components/DateInput.jsx:95-97 | records the touch-device flag and nothing else |
| DateInputComponent.DateInput.OnChange | src/components/DateInput.jsx:116-128 | performs the change step and keeps the stored text free of a trailing '?' |
| DateInputComponent.DateInput.OnKeyDown | src/components/DateInput.jsx:130-135 | propagation stopped; modifier keys never dispatched; other keys dispatched iff the throttle fires |
| DateInputComponent.DateInput.OnFinalKeyDown | src/components/DateInput.jsx:137-158 | fires the dispatch's callbacks and reports its preventDefault |
| DateInputComponent.DateInput.ReceiveProps | src/components/DateInput.jsx:99-114 | applies the clearing rule, stores the props and reports whether to focus the input |

## Left out

- Rendering: every `render` body, the style tables, the week headers and the navigation
  buttons' icons. CalendarDay, DayPickerNavigation, KeyboardShortcutRow and the two
  picker inputs are not part of this model.
- DOM effects:
  - The panel's close callbacks are recorded as `FocusMoved` or `BlurRequested` notices, and Escape's `onBlur` as `BlurRequested`.
  - The container focus of DayPicker's componentDidUpdate (DayPicker.jsx:316) and the input focus of DateInput's componentDidUpdate (DateInput.jsx:112) are returned as booleans (`ShouldFocusContainer`, `ShouldFocusInput`), not logged.
  - The panel's `handleFocus`, which moves focus into the open panel (DayPickerKeyboardShortcuts.jsx:94-95, :151-157), is not modelled.
  - The toggle button's mouse-up `e.currentTarget.blur()` (DayPickerKeyboardShortcuts.jsx:198-200) is not modelled.
  - `getActiveElement()` is the `active` parameter.
  - The blur of a focused day after a mouse-driven commit (DayPicker.jsx:698-710) is not modelled.
  - The inline `style.height` write and the `hasSetHeight` timeout in `adjustDayPickerHeight` are not modelled. The stored height is.
- Timers and measurements: the calendar-info width timeout of `componentWillUpdate`,
  `calculateDimension`, and DayPicker's `isTouchDevice` state are not modelled.
  DateInput's touch flag is a parameter of `ComponentDidMount`.
- Dates: moment, `getNumberOfCalendarMonthWeeks`, `isDayVisible` and
  `getCalendarMonthWidth` are not part of this model. They are the `Calendar` record, the
  visibility rule above, and the `calendarMonthWidth` configuration value.
  `getFirstDayOfWeek` (the locale default when the prop is null) is the configuration
  value `firstDayOfWeek`.
- The float offsets 0.00001 and 0.0001 of month and year selection are kept only as which
  selection they belong to (`MonthSelectionNudge`, `YearSelectionNudge`).
- Props other than `hidden`, `isFocused`, `showKeyboardShortcuts`, `initialVisibleMonth`
  and a change of `renderMonthText` are fixed configuration. A changed `daySize`
  (DayPicker.jsx:254-258) is not modelled.
- lodash `throttle` is modelled by its leading-edge behaviour with an explicit clock, not
  by its timer internals. The clock is assumed monotone: lodash also fires when the
  clock goes backwards, and `ShouldFire` does not.
- Optional callbacks (`onPrevMonthClick`, `onMultiplyScrollableMonths`, ...) are logged
  as called; a missing one would be a no-op.
- The toggle button's `'Space'` branch is modelled as written. Browsers report the space
  bar as `' '`, so in practice the button opens through its native click.
- DayPickerState.ShowButtonKeyDownStep: models only the button's own handler. The handler
  does not stop propagation, and the button sits inside the region whose keydown is
  DayPicker's (DayPicker.jsx:1001). So Escape or `?` pressed on the button also reach
  `onFinalKeyDown`; that bubbling is not modelled.
- DayPickerComponent.DayPicker.OnFinalKeyDown: runs the corrected `FinalKeyDown`, where the
  transition direction follows the date under RTL. The code as written
  (DayPicker.jsx:355-363, :380-388) is `DayPickerState.FinalKeyDownAsWritten`; the class
  does not model it.
- DayPickerComponent.DayPicker.NavigateFrom: uses the corrected `KeyTarget`. The code's
  branch choice under RTL is `DayPickerState.NavigationTargetAsWritten`.
- DayPickerComponent.DayPicker.ComponentWillReceiveProps: rebuilds the buffer on first
  show, which DayPicker.jsx:245-252 does not. The code as written is
  `DayPickerState.ReceivePropsAsWritten`.
- DayPickerState.FirstVisibleIndexIsCommittedMonth: covers the layouts that are not
  vertically scrollable. For the scrollable layout, `FirstVisibleIndex` itself states
  that the slot is 0.
- DayPickerState.KeyboardFocusStaysVisible: stated from a settled window (no transition
  running). A keydown during a transition usually finds no focused date. But gaining
  focus through props during a transition sets one (DayPicker.jsx:272-275), and that
  case is not covered.

## Findings

| source | as written | input that shows it | evidently intended | confidence | as-written member | corrected member |
|---|---|---|---|---|---|---|
| src/components/DayPicker.jsx:245-252 | the first time a hidden picker is shown, `currentMonth` becomes `initialVisibleMonth()` but `calendarMonthWeeks` is not rebuilt | mounted hidden in October 2026, shown with initialVisibleMonth February 2026 (Sunday weeks): the buffer keeps Sep/Oct/Nov 2026 (5 rows each) while February 2026 needs 4, so heights and vertical offsets are wrong. A prev or next commit shifts the stale buffer and adds only one fresh entry, so the buffer is right again only after a month or year selection rebuilds it, or after numberOfMonths + 2 commits in one direction | rebuild the buffer whenever `currentMonth` is set, as the other handlers do | medium — not executed | DayPickerState.ReceivePropsAsWrittenLosesBuffer | DayPickerState.ReceivePropsPreservesConsistency |
| src/components/DayPicker.jsx:355-363 | under RTL, ArrowLeft moves the candidate one day later but calls `maybeTransitionPrevMonth`; ArrowRight (380-388) moves one day earlier but calls `maybeTransitionNextMonth` | isRTL, one month shown (January 2026), focus on January 31, ArrowLeft: a prev transition starts, the commit shows December 2025 and focuses February 1, 2026, outside the window | pick the transition from the direction the date moves | medium — not executed | DayPickerState.ArrowLeftUnderRtlLosesFocus | DayPickerState.KeyboardFocusStaysVisible |
