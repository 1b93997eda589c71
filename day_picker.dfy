/**
  The DayPicker component as an object. Its fields are the component's state and the
  instance fields it updates (calendarMonthWeeks, calendarMonthGridHeight,
  hasSetInitialVisibleMonth); each handler is proved to leave the object in the state
  the matching step function of DayPickerState computes, and to keep the buffer of
  week counts on the months around the current month.
*/
module DayPickerComponent {
  import opened Wrappers
  import opened Dates
  import opened Keys
  import opened RateLimit
  import opened DayPickerState
  import KeyboardShortcuts

  /** The throttle interval of the calendar's keydown handler, in milliseconds. */
  const KeyDownWait: int := 200

  class DayPicker {
    const cfg: Config
    const throttledKeyDown: Throttle

    var currentMonth: int
    var calendarMonthWeeks: seq<nat>
    var monthTransition: Transition
    var translationValue: Translation
    var focusedDate: Option<Date>
    var nextFocusedDate: Option<Date>
    var withMouseInteractions: bool
    var showKeyboardShortcuts: bool
    var onKeyboardShortcutsPanelClose: Option<PanelCloseCallback>
    var scrollableMonthMultiple: nat
    var monthTitleHeight: Option<int>
    var calendarMonthGridHeight: int
    var hasSetInitialVisibleMonth: bool
    /** The `isFocused` prop last received. */
    var isFocused: bool
    /** The callbacks fired so far, oldest first. */
    var notices: seq<Notice>

    /** The object's fields as a state record. */
    function State(): PickerState
      reads this
    {
      PickerState(currentMonth, calendarMonthWeeks, monthTransition, translationValue, focusedDate,
                  nextFocusedDate, withMouseInteractions, showKeyboardShortcuts,
                  onKeyboardShortcutsPanelClose, scrollableMonthMultiple, monthTitleHeight,
                  calendarMonthGridHeight, hasSetInitialVisibleMonth, isFocused, notices)
    }

    ghost predicate Valid()
      reads this
    {
      Consistent(cfg, State()) && throttledKeyDown.wait == KeyDownWait
    }

    constructor(cfg: Config, p: MountProps)
      ensures Valid() && State() == Initial(cfg, p)
      ensures fresh(throttledKeyDown) && throttledKeyDown.lastFired == None
    {
      this.cfg := cfg;
      var month := if p.hidden then p.today else p.initialVisibleMonth;
      var focused := Some(StartOfMonth(month));
      if cfg.getFirstFocusableDay.Some? {
        focused := cfg.getFirstFocusableDay.value(month);
      }
      currentMonth := month;
      monthTransition := NoTransition;
      translationValue := RestingTranslation(cfg);
      scrollableMonthMultiple := 1;
      focusedDate := if !p.hidden || p.isFocused then focused else None;
      nextFocusedDate := None;
      showKeyboardShortcuts := p.showKeyboardShortcuts;
      onKeyboardShortcutsPanelClose := Some(DoNothing);
      withMouseInteractions := true;
      monthTitleHeight := None;
      hasSetInitialVisibleMonth := !p.hidden;
      calendarMonthGridHeight := 0;
      isFocused := p.isFocused;
      notices := [];
      calendarMonthWeeks := [];
      throttledKeyDown := new Throttle(KeyDownWait);
      new;
      SetCalendarMonthWeeks(month);
    }

    /** setCalendarMonthWeeks: the week counts of the month before `month` and the next numberOfMonths + 1. */
    method SetCalendarMonthWeeks(month: int)
      modifies this`calendarMonthWeeks
      ensures calendarMonthWeeks == MonthWeeks(cfg, month)
    {
      calendarMonthWeeks := [];
      var m := month - 1;
      var firstDayOfWeek := cfg.firstDayOfWeek;
      for i := 0 to cfg.numberOfMonths + 2
        invariant m == month - 1 + i
        invariant |calendarMonthWeeks| == i
        invariant forall j :: 0 <= j < i ==> calendarMonthWeeks[j] == Weeks(cfg, month - 1 + j)
      {
        var numberOfWeeks := cfg.cal.weeksInMonth(m, firstDayOfWeek);
        calendarMonthWeeks := calendarMonthWeeks + [numberOfWeeks];
        m := m + 1;
      }
    }

    /** adjustDayPickerHeight: the container's height is the month height plus padding. */
    method AdjustDayPickerHeight(newMonthHeight: int)
      modifies this`calendarMonthGridHeight
      ensures State() == old(State()).(calendarMonthGridHeight := newMonthHeight + MonthPadding)
    {
      var monthHeight := newMonthHeight + MonthPadding;
      if monthHeight != calendarMonthGridHeight {
        calendarMonthGridHeight := monthHeight;
      }
    }

    /** calculateAndSetDayPickerHeight: size the container for the visible months (horizontal layout only). */
    method CalculateAndSetDayPickerHeight()
      requires |calendarMonthWeeks| == cfg.numberOfMonths + 2
      modifies this`calendarMonthGridHeight
      ensures State() == old(State()).(calendarMonthGridHeight :=
                GridHeightFor(cfg, monthTitleHeight, calendarMonthWeeks, 1, old(calendarMonthGridHeight)))
    {
      var visibleCalendarWeeks := calendarMonthWeeks[1..cfg.numberOfMonths + 1];
      var calendarMonthWeeksHeight := MaxOr0(visibleCalendarWeeks) * (cfg.daySize - 1);
      var newMonthHeight := TitleHeightOr0(monthTitleHeight) + calendarMonthWeeksHeight + 1;
      if cfg.orientation == Horizontal {
        AdjustDayPickerHeight(newMonthHeight);
      }
    }

    /** The region's keydown: always stops propagation; non-modifier keys go through the 200 ms throttle. */
    method OnKeyDown(key: string, now: int, active: Option<Element>) returns (stopsPropagation: bool, preventsDefault: bool)
      requires Valid()
      modifies this, throttledKeyDown
      ensures Valid() && stopsPropagation
      ensures
        var fires := !IsModifierKey(key) && ShouldFire(KeyDownWait, old(throttledKeyDown.lastFired), now);
        && State() == (if fires then FinalKeyDown(cfg, old(State()), key, active) else old(State()))
        && preventsDefault == (fires && FinalKeyDownPrevents(old(State()), key))
        && throttledKeyDown.lastFired
           == (if IsModifierKey(key) then old(throttledKeyDown.lastFired)
               else AfterCall(KeyDownWait, old(throttledKeyDown.lastFired), now))
    {
      stopsPropagation := true;
      preventsDefault := false;
      if !IsModifierKey(key) {
        var fire := throttledKeyDown.Call(now);
        if fire {
          preventsDefault := OnFinalKeyDown(key, active);
        }
      }
    }

    /** onFinalKeyDown, with the direction of each navigation key following the candidate date. */
    method OnFinalKeyDown(key: string, active: Option<Element>) returns (preventsDefault: bool)
      requires Valid()
      modifies this
      ensures Valid()
      ensures State() == FinalKeyDown(cfg, old(State()), key, active)
      ensures preventsDefault == FinalKeyDownPrevents(old(State()), key)
    {
      withMouseInteractions := false;
      preventsDefault := false;
      if focusedDate.None? {
        return;
      }
      if key in NavigationKeys {
        preventsDefault := true;
        NavigateFrom(key);
      } else if key == "?" {
        OpenKeyboardShortcutsPanel(RestoreFocus(active));
      } else if key == "Escape" {
        if showKeyboardShortcuts {
          CloseKeyboardShortcutsPanel();
        } else {
          notices := notices + [BlurRequested];
        }
      }
    }

    /** The eight navigation cases of onFinalKeyDown's switch, from the focused date. */
    method NavigateFrom(key: string)
      requires Valid() && focusedDate.Some? && key in NavigationKeys
      modifies this
      ensures Valid()
      ensures State() == MoveFocus(cfg, old(State()), KeyTarget(cfg, old(State()), key).value)
    {
      var f := focusedDate.value;
      var cal := cfg.cal;
      NavigationTargetOfKey(cal, cfg.isRTL, key, f);
      if key == "ArrowUp" {
        FocusCandidate(NavTarget(cal.addDays(f, -7), Backward));
      } else if key == "ArrowLeft" {
        if cfg.isRTL {
          FocusCandidate(NavTarget(cal.addDays(f, 1), Forward));
        } else {
          FocusCandidate(NavTarget(cal.addDays(f, -1), Backward));
        }
      } else if key == "Home" {
        FocusCandidate(NavTarget(cal.startOfWeek(f), Backward));
      } else if key == "PageUp" {
        FocusCandidate(NavTarget(cal.addMonths(f, -1), Backward));
      } else if key == "ArrowDown" {
        FocusCandidate(NavTarget(cal.addDays(f, 7), Forward));
      } else if key == "ArrowRight" {
        if cfg.isRTL {
          FocusCandidate(NavTarget(cal.addDays(f, -1), Backward));
        } else {
          FocusCandidate(NavTarget(cal.addDays(f, 1), Forward));
        }
      } else if key == "End" {
        FocusCandidate(NavTarget(cal.endOfWeek(f), Forward));
      } else if key == "PageDown" {
        FocusCandidate(NavTarget(cal.addMonths(f, 1), Forward));
      }
    }

    /**
      A navigation key's candidate: maybeTransitionPrevMonth or maybeTransitionNextMonth,
      then, when no transition started, focus the candidate.
    */
    method FocusCandidate(t: NavTarget)
      requires Valid() && focusedDate.Some?
      modifies this
      ensures Valid()
      ensures State() == MoveFocus(cfg, old(State()), t)
    {
      var didTransitionMonth;
      if t.direction == Backward {
        didTransitionMonth := MaybeTransitionPrevMonth(t.date);
      } else {
        didTransitionMonth := MaybeTransitionNextMonth(t.date);
      }
      if !didTransitionMonth {
        focusedDate := Some(t.date);
      }
    }

    /** maybeTransitionNextMonth: start a next transition when the candidate is in another month and hidden. */
    method MaybeTransitionNextMonth(newFocusedDate: Date) returns (didTransition: bool)
      requires Valid() && focusedDate.Some?
      modifies this
      ensures Valid()
      ensures didTransition == StartsTransition(cfg, old(State()), old(focusedDate).value, newFocusedDate)
      ensures State() == if didTransition then NextMonthClick(cfg, old(State()), Some(newFocusedDate)) else old(State())
    {
      var isNewFocusedDateVisible := IsDayVisible(newFocusedDate, currentMonth, cfg.numberOfMonths);
      if MonthOfYear(newFocusedDate) != MonthOfYear(focusedDate.value) && !isNewFocusedDateVisible {
        OnNextMonthClick(Some(newFocusedDate));
        return true;
      }
      return false;
    }

    /** maybeTransitionPrevMonth: start a prev transition when the candidate is in another month and hidden. */
    method MaybeTransitionPrevMonth(newFocusedDate: Date) returns (didTransition: bool)
      requires Valid() && focusedDate.Some?
      modifies this
      ensures Valid()
      ensures didTransition == StartsTransition(cfg, old(State()), old(focusedDate).value, newFocusedDate)
      ensures State() == if didTransition then PrevMonthClick(cfg, old(State()), Some(newFocusedDate)) else old(State())
    {
      var isNewFocusedDateVisible := IsDayVisible(newFocusedDate, currentMonth, cfg.numberOfMonths);
      if MonthOfYear(newFocusedDate) != MonthOfYear(focusedDate.value) && !isNewFocusedDateVisible {
        OnPrevMonthClick(Some(newFocusedDate));
        return true;
      }
      return false;
    }

    /** onPrevMonthClick: slide towards the earlier month and hold the focus back until the commit. */
    method OnPrevMonthClick(next: Option<Date>)
      requires Valid()
      modifies this
      ensures Valid()
      ensures State() == PrevMonthClick(cfg, old(State()), next)
    {
      var translation: Translation;
      if cfg.orientation == Vertical || cfg.orientation == VerticalScrollable {
        var calendarMonthWeeksHeight := calendarMonthWeeks[0] * (cfg.daySize - 1);
        translation := Pixels(TitleHeightOr0(monthTitleHeight) + calendarMonthWeeksHeight + 1);
      } else {
        translation := Pixels(cfg.calendarMonthWidth);
        if cfg.isRTL {
          translation := Pixels(-2 * cfg.calendarMonthWidth);
        }
        var visibleCalendarWeeks := calendarMonthWeeks[..cfg.numberOfMonths];
        var calendarMonthWeeksHeight := MaxOr0(visibleCalendarWeeks) * (cfg.daySize - 1);
        AdjustDayPickerHeight(TitleHeightOr0(monthTitleHeight) + calendarMonthWeeksHeight + 1);
      }
      SetTransitionState(currentMonth, PrevTransition, translation, next);
    }

    /** onNextMonthClick: slide towards the later month and hold the focus back until the commit. */
    method OnNextMonthClick(next: Option<Date>)
      requires Valid()
      modifies this
      ensures Valid()
      ensures State() == NextMonthClick(cfg, old(State()), next)
    {
      var translation: Translation;
      if cfg.orientation == Vertical || cfg.orientation == VerticalScrollable {
        var calendarMonthWeeksHeight := calendarMonthWeeks[1] * (cfg.daySize - 1);
        translation := Pixels(-(TitleHeightOr0(monthTitleHeight) + calendarMonthWeeksHeight + 1));
      } else {
        translation := Pixels(-cfg.calendarMonthWidth);
        if cfg.isRTL {
          translation := Pixels(0);
        }
        var visibleCalendarWeeks := calendarMonthWeeks[2..cfg.numberOfMonths + 2];
        var calendarMonthWeeksHeight := MaxOr0(visibleCalendarWeeks) * (cfg.daySize - 1);
        AdjustDayPickerHeight(TitleHeightOr0(monthTitleHeight) + calendarMonthWeeksHeight + 1);
      }
      SetTransitionState(currentMonth, NextTransition, translation, next);
    }

    /**
      The setState that starts a transition: onPrevMonthClick and onNextMonthClick keep
      the current month, onMonthChange and onYearChange move it to the chosen one.
    */
    method SetTransitionState(month: int, t: Transition, translation: Translation, next: Option<Date>)
      modifies this`currentMonth, this`monthTransition, this`translationValue
      modifies this`focusedDate, this`nextFocusedDate
      ensures State() == old(State()).(currentMonth := month, monthTransition := t,
                                       translationValue := translation,
                                       focusedDate := None, nextFocusedDate := next)
    {
      monthTransition := t;
      translationValue := translation;
      focusedDate := None;
      nextFocusedDate := next;
      currentMonth := month;
    }

    /** onMonthChange: jump to the month picked from the caption. */
    method OnMonthChange(month: Date)
      requires Valid()
      modifies this
      ensures Valid()
      ensures State() == SelectMonth(cfg, old(State()), month, MonthSelection)
    {
      SetCalendarMonthWeeks(month.monthIndex);
      CalculateAndSetDayPickerHeight();
      SetTransitionState(month.monthIndex, MonthSelection, MonthSelectionNudge, Some(month));
    }

    /** onYearChange: jump to the month of the year picked from the caption. */
    method OnYearChange(month: Date)
      requires Valid()
      modifies this
      ensures Valid()
      ensures State() == SelectMonth(cfg, old(State()), month, YearSelection)
    {
      SetCalendarMonthWeeks(month.monthIndex);
      CalculateAndSetDayPickerHeight();
      SetTransitionState(month.monthIndex, YearSelection, YearSelectionNudge, Some(month));
    }

    /** updateStateAfterMonthTransition: commit the running transition. */
    method UpdateStateAfterMonthTransition()
      requires Valid()
      modifies this`currentMonth, this`calendarMonthWeeks, this`monthTransition, this`translationValue
      modifies this`nextFocusedDate, this`focusedDate, this`notices
      ensures Valid()
      ensures State() == Commit(cfg, old(State()))
    {
      if monthTransition == NoTransition {
        return;
      }
      var newMonth := CommitMonth();
      var newFocusedDate := ResolveFocus(cfg, newMonth, nextFocusedDate, focusedDate, withMouseInteractions);
      SettleTransition(newMonth, newFocusedDate);
    }

    /** The closing setState of updateStateAfterMonthTransition: the window rests on `newMonth`. */
    method SettleTransition(newMonth: int, newFocusedDate: Option<Date>)
      modifies this`currentMonth, this`monthTransition, this`translationValue
      modifies this`nextFocusedDate, this`focusedDate
      ensures State() == old(State()).(currentMonth := newMonth, monthTransition := NoTransition,
                                       translationValue := RestingTranslation(cfg),
                                       nextFocusedDate := None, focusedDate := newFocusedDate)
    {
      currentMonth := newMonth;
      monthTransition := NoTransition;
      translationValue := RestingTranslation(cfg);
      nextFocusedDate := None;
      focusedDate := newFocusedDate;
    }

    /**
      The month part of updateStateAfterMonthTransition: fire the transition's callback
      with the new month and shift the buffer for a prev or next transition.
    */
    method CommitMonth() returns (newMonth: int)
      requires |calendarMonthWeeks| == cfg.numberOfMonths + 2
      modifies this`notices, this`calendarMonthWeeks
      ensures newMonth == CommittedMonth(currentMonth, monthTransition)
      ensures calendarMonthWeeks == CommittedWeeks(cfg, old(calendarMonthWeeks), monthTransition, newMonth)
      ensures notices == old(notices) + [CommitNotice(monthTransition, newMonth)]
      ensures Consistent(cfg, old(State())) && monthTransition != NoTransition ==>
                calendarMonthWeeks == MonthWeeks(cfg, newMonth)
    {
      if Consistent(cfg, State()) && monthTransition != NoTransition {
        CommitPreservesConsistency(cfg, State());
      }
      newMonth := currentMonth;
      var firstDayOfWeek := cfg.firstDayOfWeek;
      if monthTransition == PrevTransition {
        newMonth := newMonth - 1;
        notices := notices + [PrevMonthCommitted(newMonth)];
        var numberOfWeeks := cfg.cal.weeksInMonth(newMonth - 1, firstDayOfWeek);
        calendarMonthWeeks := [numberOfWeeks] + calendarMonthWeeks[..|calendarMonthWeeks| - 1];
      } else if monthTransition == NextTransition {
        newMonth := newMonth + 1;
        notices := notices + [NextMonthCommitted(newMonth)];
        var numberOfWeeks := cfg.cal.weeksInMonth(newMonth + cfg.numberOfMonths, firstDayOfWeek);
        calendarMonthWeeks := calendarMonthWeeks[1..] + [numberOfWeeks];
      } else if monthTransition == MonthSelection {
        notices := notices + [MonthChangeCommitted(newMonth)];
      } else {
        notices := notices + [YearChangeCommitted(newMonth)];
      }
    }

    /** openKeyboardShortcutsPanel. */
    method OpenKeyboardShortcutsPanel(onClose: PanelCloseCallback)
      requires Valid()
      modifies this
      ensures Valid()
      ensures State() == OpenPanel(old(State()), onClose)
    {
      showKeyboardShortcuts := true;
      onKeyboardShortcutsPanelClose := Some(onClose);
    }

    /** closeKeyboardShortcutsPanel. */
    method CloseKeyboardShortcutsPanel()
      requires Valid()
      modifies this
      ensures Valid()
      ensures State() == ClosePanel(old(State()))
    {
      notices := notices + CloseCallbackNotices(onKeyboardShortcutsPanelClose);
      onKeyboardShortcutsPanelClose := None;
      showKeyboardShortcuts := false;
    }

    /** The panel's keydown, whose close handler is this picker's closeKeyboardShortcutsPanel. */
    method KeyboardShortcutsPanelKeyDown(key: string) returns (response: KeyboardShortcuts.PanelKeyResponse)
      requires Valid()
      modifies this
      ensures Valid()
      ensures response == KeyboardShortcuts.PanelKeyDown(key)
      ensures State() == PanelKeyDownStep(old(State()), key)
    {
      response := KeyboardShortcuts.PanelKeyDown(key);
      if response.closesPanel {
        CloseKeyboardShortcutsPanel();
      }
    }

    /** A click on the panel's toggle button. */
    method ShowKeyboardShortcutsButtonClick()
      requires Valid()
      modifies this
      ensures Valid()
      ensures State() == ShowButtonClick(old(State()))
    {
      OpenKeyboardShortcutsPanel(RefocusShowButton);
    }

    /** A keydown on the panel's toggle button. */
    method ShowKeyboardShortcutsButtonKeyDown(key: string) returns (response: KeyboardShortcuts.ShowButtonKeyResponse)
      requires Valid()
      modifies this
      ensures Valid()
      ensures response == KeyboardShortcuts.ShowButtonKeyDown(key)
      ensures State() == ShowButtonKeyDownStep(old(State()), key)
    {
      response := KeyboardShortcuts.ShowButtonKeyDown(key);
      if response.opensPanel {
        ShowKeyboardShortcutsButtonClick();
      }
    }

    /** multiplyScrollableMonths. */
    method MultiplyScrollableMonths()
      requires Valid()
      modifies this
      ensures Valid()
      ensures State() == DayPickerState.MultiplyScrollableMonths(old(State()))
    {
      notices := notices + [ScrollableMonthsMultiplied];
      scrollableMonthMultiple := scrollableMonthMultiple + 1;
    }

    /** setMonthTitleHeight, then calculateAndSetDayPickerHeight. */
    method SetMonthTitleHeight(height: int)
      requires Valid()
      modifies this
      ensures Valid()
      ensures State() == DayPickerState.SetMonthTitleHeight(cfg, old(State()), height)
    {
      monthTitleHeight := Some(height);
      CalculateAndSetDayPickerHeight();
    }

    /** The region's onMouseUp. */
    method OnMouseUp()
      requires Valid()
      modifies this
      ensures Valid()
      ensures State() == MouseUp(old(State()))
    {
      withMouseInteractions := true;
    }

    /**
      componentWillReceiveProps, recomputing the buffer when the current month is set on
      first show; then componentDidUpdate's decision whether to focus the container.
    */
    method ComponentWillReceiveProps(p: NextProps) returns (focusContainer: bool)
      requires Valid()
      modifies this
      ensures Valid()
      ensures State() == ReceiveProps(cfg, old(State()), p)
      ensures focusContainer == ShouldFocusContainer(old(isFocused), State())
    {
      ghost var s := State();
      ReceivePropsPreservesConsistency(cfg, s, p);
      var month := currentMonth;
      var wasFocused := isFocused;
      if !p.hidden && !hasSetInitialVisibleMonth {
        hasSetInitialVisibleMonth := true;
        currentMonth := p.initialVisibleMonth;
        SetCalendarMonthWeeks(p.initialVisibleMonth);
      }
      assert State() == ShowInitialMonth(cfg, s, p);
      ApplyFocusProps(p, month);
      focusContainer := !wasFocused && isFocused && focusedDate.None?;
    }

    /** The focus and month-title part of componentWillReceiveProps; `month` is the current month before it. */
    method ApplyFocusProps(p: NextProps, month: int)
      modifies this
      ensures State() == ReceiveFocusProps(cfg, old(State()), p, month)
    {
      if p.isFocused != isFocused {
        if p.isFocused {
          var focused := GetFocusedDay(cfg, month);
          var onClose := onKeyboardShortcutsPanelClose;
          if p.showKeyboardShortcuts {
            onClose := Some(CallOnBlur);
          }
          showKeyboardShortcuts := p.showKeyboardShortcuts;
          onKeyboardShortcutsPanelClose := onClose;
          focusedDate := Some(focused);
          withMouseInteractions := false;
        } else {
          focusedDate := None;
        }
      }
      if p.renderMonthTextChanged {
        monthTitleHeight := None;
      }
      isFocused := p.isFocused;
    }
  }
}
