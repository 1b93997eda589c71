/**
  The navigation and focus engine of DayPicker as a state record and one pure step
  function per handler. Each step returns the state the component holds once the
  handler's setState calls have been applied; the DayPicker class in
  DayPickerComponent is proved to perform exactly these steps.

  Callbacks the component fires (onPrevMonthClick, onBlur, the panel's close
  callback, ...) are recorded as `Notice` values at the end of `notices`; moving DOM
  focus appears there as a focus intent.
*/
module DayPickerState {
  import opened Wrappers
  import opened Dates
  import KeyboardShortcuts

  /** MONTH_PADDING: added to a month's height to give the transition container's height. */
  const MonthPadding: int := 23

  datatype Orientation = Horizontal | Vertical | VerticalScrollable

  /** monthTransition: null, 'prev', 'next', 'month_selection' or 'year_selection'. */
  datatype Transition = NoTransition | PrevTransition | NextTransition | MonthSelection | YearSelection

  /**
    translationValue: a pixel offset, or the two tiny non-zero numbers that month and
    year selection use only to force a re-render, kept here by which one they are.
  */
  datatype Translation = Pixels(px: int) | MonthSelectionNudge | YearSelectionNudge

  /** An element that can receive DOM focus. */
  datatype Element = ShowShortcutsButton | PageElement(id: nat)

  /** The stored onKeyboardShortcutsPanelClose callback. */
  datatype PanelCloseCallback =
    | DoNothing                              // the initial `onKeyboardShortcutsPanelClose() {}`
    | RestoreFocus(target: Option<Element>)  // refocus the element active when '?' was pressed
    | RefocusShowButton                      // set by a click on the panel's toggle button
    | CallOnBlur                             // the `onBlur` prop, when the panel was opened from the input

  /** A callback fired, or a focus intent emitted, by the component. */
  datatype Notice =
    | PrevMonthCommitted(month: int)
    | NextMonthCommitted(month: int)
    | MonthChangeCommitted(month: int)
    | YearChangeCommitted(month: int)
    | BlurRequested
    | FocusMoved(target: Element)
    | ScrollableMonthsMultiplied

  /**
    The props the engine reads and never changes. `calendarMonthWidth` is
    getCalendarMonthWidth(daySize); `firstDayOfWeek` is the prop, or the locale's
    first day when the prop is null.
  */
  datatype Config = Config(
    numberOfMonths: nat,
    orientation: Orientation,
    isRTL: bool,
    daySize: int,
    firstDayOfWeek: int,
    calendarMonthWidth: int,
    getFirstFocusableDay: Option<int -> Option<Date>>,
    cal: Calendar)

  /** The component's state, plus its instance fields calendarMonthWeeks and hasSetInitialVisibleMonth. */
  datatype PickerState = PickerState(
    currentMonth: int,
    calendarMonthWeeks: seq<nat>,
    monthTransition: Transition,
    translationValue: Translation,
    focusedDate: Option<Date>,
    nextFocusedDate: Option<Date>,
    withMouseInteractions: bool,
    showKeyboardShortcuts: bool,
    onKeyboardShortcutsPanelClose: Option<PanelCloseCallback>,
    scrollableMonthMultiple: nat,
    monthTitleHeight: Option<int>,
    calendarMonthGridHeight: int,
    hasSetInitialVisibleMonth: bool,
    isFocused: bool,
    notices: seq<Notice>)

  predicate IsHorizontal(cfg: Config)
  {
    cfg.orientation == Horizontal
  }

  predicate IsVertical(cfg: Config)
  {
    cfg.orientation == Vertical || cfg.orientation == VerticalScrollable
  }

  // ---------------------------------------------------------------------------
  // The week-count buffer

  /** Number of grid rows of the month with index `month`. */
  function Weeks(cfg: Config, month: int): nat
  {
    cfg.cal.weeksInMonth(month, cfg.firstDayOfWeek)
  }

  /** The week counts of `count` consecutive months, the first being `month`. */
  function WeeksFrom(cfg: Config, month: int, count: nat): (r: seq<nat>)
    ensures |r| == count
    ensures forall i :: 0 <= i < count ==> r[i] == Weeks(cfg, month + i)
    decreases count
  {
    if count == 0 then [] else [Weeks(cfg, month)] + WeeksFrom(cfg, month + 1, count - 1)
  }

  /**
    What setCalendarMonthWeeks(currentMonth) computes: one entry for the hidden month
    before the window, one per visible month, one for the hidden month after it.
  */
  function MonthWeeks(cfg: Config, currentMonth: int): seq<nat>
  {
    WeeksFrom(cfg, currentMonth - 1, cfg.numberOfMonths + 2)
  }

  /** `slice(1)` of a JavaScript array. */
  function Tail(b: seq<nat>): seq<nat>
  {
    if b == [] then [] else b[1..]
  }

  /** `slice(0, -1)` of a JavaScript array. */
  function DropLast(b: seq<nat>): seq<nat>
  {
    if b == [] then [] else b[..|b| - 1]
  }

  /** The buffer has the length the handlers index into. */
  predicate WellFormed(cfg: Config, s: PickerState)
  {
    |s.calendarMonthWeeks| == cfg.numberOfMonths + 2
  }

  /** The buffer describes the months around the current month. */
  predicate Consistent(cfg: Config, s: PickerState)
  {
    s.calendarMonthWeeks == MonthWeeks(cfg, s.currentMonth)
  }

  lemma ConsistentIsWellFormed(cfg: Config, s: PickerState)
    requires Consistent(cfg, s)
    ensures WellFormed(cfg, s)
    ensures forall i :: 0 <= i < |s.calendarMonthWeeks| ==>
      s.calendarMonthWeeks[i] == Weeks(cfg, s.currentMonth - 1 + i)
  {
  }

  /** Shifting the buffer forward by one slot gives what a recomputation for the next month gives. */
  lemma ShiftForwardIsRecompute(cfg: Config, month: int)
    ensures Tail(MonthWeeks(cfg, month)) + [Weeks(cfg, month + 1 + cfg.numberOfMonths)]
            == MonthWeeks(cfg, month + 1)
  {
    var b, c := MonthWeeks(cfg, month), MonthWeeks(cfg, month + 1);
    var shifted := Tail(b) + [Weeks(cfg, month + 1 + cfg.numberOfMonths)];
    assert |shifted| == |c|;
    forall i | 0 <= i < |c| ensures shifted[i] == c[i] {
      if i < |c| - 1 {
        assert shifted[i] == b[i + 1];
      }
    }
  }

  /** Shifting the buffer back by one slot gives what a recomputation for the previous month gives. */
  lemma ShiftBackwardIsRecompute(cfg: Config, month: int)
    ensures [Weeks(cfg, month - 2)] + DropLast(MonthWeeks(cfg, month)) == MonthWeeks(cfg, month - 1)
  {
    var b, c := MonthWeeks(cfg, month), MonthWeeks(cfg, month - 1);
    var shifted := [Weeks(cfg, month - 2)] + DropLast(b);
    assert |shifted| == |c|;
    forall i | 0 <= i < |c| ensures shifted[i] == c[i] {
      if i > 0 {
        assert shifted[i] == b[i - 1];
      }
    }
  }

  // ---------------------------------------------------------------------------
  // Offsets and heights

  /** A null monthTitleHeight counts as 0 in the pixel arithmetic, as JavaScript's `+` makes it. */
  function TitleHeightOr0(title: Option<int>): int
  {
    if title.Some? then title.value else 0
  }

  /** The pixel height of a month with `weeks` rows: title, rows of daySize - 1 pixels, a border. */
  function MonthHeight(cfg: Config, title: Option<int>, weeks: int): int
  {
    TitleHeightOr0(title) + weeks * (cfg.daySize - 1) + 1
  }

  /** `Math.max(0, ...xs)`. */
  function MaxOr0(xs: seq<int>): (r: int)
    ensures r >= 0
    ensures forall i :: 0 <= i < |xs| ==> xs[i] <= r
    ensures r == 0 || r in xs
  {
    if xs == [] then 0
    else
      var rest := MaxOr0(xs[1..]);
      assert forall i :: 1 <= i < |xs| ==> xs[i] == xs[1..][i - 1];
      if xs[0] > rest then xs[0] else rest
  }

  /** The height of the `numberOfMonths` months whose buffer entries start at `start`. */
  function WindowHeight(cfg: Config, title: Option<int>, b: seq<nat>, start: nat): int
    requires start + cfg.numberOfMonths <= |b|
  {
    TitleHeightOr0(title) + MaxOr0(b[start..start + cfg.numberOfMonths]) * (cfg.daySize - 1) + 1
  }

  /**
    calendarMonthGridHeight after adjustDayPickerHeight for that window, which only the
    horizontal layout does.
  */
  function GridHeightFor(cfg: Config, title: Option<int>, b: seq<nat>, start: nat, current: int): int
    requires start + cfg.numberOfMonths <= |b|
  {
    if IsHorizontal(cfg) then WindowHeight(cfg, title, b, start) + MonthPadding else current
  }

  /** translationValue when no transition is running. */
  function RestingTranslation(cfg: Config): Translation
  {
    Pixels(if cfg.isRTL && IsHorizontal(cfg) then -cfg.calendarMonthWidth else 0)
  }

  /** translationValue set by onPrevMonthClick. */
  function PrevTranslation(cfg: Config, title: Option<int>, b: seq<nat>): Translation
    requires |b| >= 2
  {
    if IsVertical(cfg) then Pixels(MonthHeight(cfg, title, b[0]))
    else Pixels(if cfg.isRTL then -2 * cfg.calendarMonthWidth else cfg.calendarMonthWidth)
  }

  /** translationValue set by onNextMonthClick. */
  function NextTranslation(cfg: Config, title: Option<int>, b: seq<nat>): Translation
    requires |b| >= 2
  {
    if IsVertical(cfg) then Pixels(-MonthHeight(cfg, title, b[1]))
    else Pixels(if cfg.isRTL then 0 else -cfg.calendarMonthWidth)
  }

  /**
    Horizontally, a transition slides the grid one month width away from its resting
    place, towards the right for earlier months in left-to-right layout and towards
    the left under right-to-left layout; a next transition slides the other way.
  */
  lemma HorizontalSlideIsOneMonthWidth(cfg: Config, title: Option<int>, b: seq<nat>)
    requires IsHorizontal(cfg) && |b| >= 2
    ensures PrevTranslation(cfg, title, b).px - RestingTranslation(cfg).px
            == (if cfg.isRTL then -cfg.calendarMonthWidth else cfg.calendarMonthWidth)
    ensures NextTranslation(cfg, title, b).px - RestingTranslation(cfg).px
            == -(PrevTranslation(cfg, title, b).px - RestingTranslation(cfg).px)
  {
  }

  /**
    Vertically, a prev transition slides down by the height of the hidden month before
    the window, a next transition up by the height of the first visible month.
  */
  lemma VerticalSlideIsMonthHeight(cfg: Config, s: PickerState)
    requires IsVertical(cfg) && Consistent(cfg, s)
    ensures PrevTranslation(cfg, s.monthTitleHeight, s.calendarMonthWeeks)
            == Pixels(MonthHeight(cfg, s.monthTitleHeight, Weeks(cfg, s.currentMonth - 1)))
    ensures NextTranslation(cfg, s.monthTitleHeight, s.calendarMonthWeeks)
            == Pixels(-MonthHeight(cfg, s.monthTitleHeight, Weeks(cfg, s.currentMonth)))
  {
    ConsistentIsWellFormed(cfg, s);
  }

  /** getFirstVisibleIndex: the buffer slot of the month shown first while the grid is drawn. */
  function FirstVisibleIndex(orientation: Orientation, t: Transition): (r: nat)
    ensures r <= 2
    ensures orientation == VerticalScrollable ==> r == 0
  {
    if orientation == VerticalScrollable then 0
    else if t == PrevTransition then 0
    else if t == NextTransition then 2
    else 1
  }

  // ---------------------------------------------------------------------------
  // Focus

  /**
    getFocusedDay(newMonth): the day getFirstFocusableDay proposes if it proposes a
    visible one, else the first day of the month.
  */
  function GetFocusedDay(cfg: Config, newMonth: int): (r: Date)
    ensures cfg.numberOfMonths >= 1 ==> IsDayVisible(r, newMonth, cfg.numberOfMonths)
    ensures r == StartOfMonth(newMonth)
            || (cfg.getFirstFocusableDay.Some? && cfg.getFirstFocusableDay.value(newMonth) == Some(r))
    ensures cfg.getFirstFocusableDay.None? ==> r == StartOfMonth(newMonth)
    ensures cfg.getFirstFocusableDay.Some? && cfg.getFirstFocusableDay.value(newMonth).Some?
            && IsDayVisible(cfg.getFirstFocusableDay.value(newMonth).value, newMonth, cfg.numberOfMonths)
            ==> r == cfg.getFirstFocusableDay.value(newMonth).value
  {
    var proposed := if cfg.getFirstFocusableDay.Some? then cfg.getFirstFocusableDay.value(newMonth) else None;
    if proposed.None? || !IsDayVisible(proposed.value, newMonth, cfg.numberOfMonths)
    then StartOfMonth(newMonth)
    else proposed.value
  }

  /** The focus a commit leaves behind. */
  function ResolveFocus(cfg: Config, newMonth: int, next: Option<Date>, focused: Option<Date>,
                        withMouseInteractions: bool): Option<Date>
  {
    if next.Some? then next
    else if focused.None? && !withMouseInteractions then Some(GetFocusedDay(cfg, newMonth))
    else None
  }

  // ---------------------------------------------------------------------------
  // Mounting and props

  /** The props read at construction. `today` is the month of moment(). */
  datatype MountProps = MountProps(
    hidden: bool,
    isFocused: bool,
    showKeyboardShortcuts: bool,
    today: int,
    initialVisibleMonth: int)

  /** The state the constructor sets up, with the buffer setCalendarMonthWeeks builds. */
  function Initial(cfg: Config, p: MountProps): PickerState
  {
    var currentMonth := if p.hidden then p.today else p.initialVisibleMonth;
    var focusedDate :=
      if cfg.getFirstFocusableDay.Some? then cfg.getFirstFocusableDay.value(currentMonth)
      else Some(StartOfMonth(currentMonth));
    PickerState(
      currentMonth := currentMonth,
      calendarMonthWeeks := MonthWeeks(cfg, currentMonth),
      monthTransition := NoTransition,
      translationValue := RestingTranslation(cfg),
      focusedDate := if !p.hidden || p.isFocused then focusedDate else None,
      nextFocusedDate := None,
      withMouseInteractions := true,
      showKeyboardShortcuts := p.showKeyboardShortcuts,
      onKeyboardShortcutsPanelClose := Some(DoNothing),
      scrollableMonthMultiple := 1,
      monthTitleHeight := None,
      calendarMonthGridHeight := 0,
      hasSetInitialVisibleMonth := !p.hidden,
      isFocused := p.isFocused,
      notices := [])
  }

  /**
    The constructor's state: the buffer matches the month, nothing is pending, and the
    focused date is the first of the month, or getFirstFocusableDay's proposal taken
    without a visibility check, or none for a hidden, unfocused picker.
  */
  lemma InitialIsConsistent(cfg: Config, p: MountProps)
    ensures Consistent(cfg, Initial(cfg, p))
    ensures Initial(cfg, p).monthTransition == NoTransition
    ensures Initial(cfg, p).currentMonth == (if p.hidden then p.today else p.initialVisibleMonth)
    ensures Initial(cfg, p).nextFocusedDate.None? && Initial(cfg, p).withMouseInteractions
    ensures p.hidden && !p.isFocused ==> Initial(cfg, p).focusedDate.None?
    ensures (!p.hidden || p.isFocused) && cfg.getFirstFocusableDay.None? ==>
      && Initial(cfg, p).focusedDate == Some(StartOfMonth(Initial(cfg, p).currentMonth))
      && (cfg.numberOfMonths >= 1 ==>
            IsDayVisible(Initial(cfg, p).focusedDate.value, Initial(cfg, p).currentMonth, cfg.numberOfMonths))
    ensures (!p.hidden || p.isFocused) && cfg.getFirstFocusableDay.Some? ==>
      Initial(cfg, p).focusedDate == cfg.getFirstFocusableDay.value(Initial(cfg, p).currentMonth)
  {
  }

  /** The props componentWillReceiveProps looks at. */
  datatype NextProps = NextProps(
    hidden: bool,
    isFocused: bool,
    showKeyboardShortcuts: bool,
    initialVisibleMonth: int,
    renderMonthTextChanged: bool)

  /**
    componentWillReceiveProps as written: the first time the picker is shown it takes
    initialVisibleMonth as its current month but leaves calendarMonthWeeks as it was.
  */
  function ReceivePropsAsWritten(cfg: Config, s: PickerState, p: NextProps): PickerState
  {
    var shown :=
      if !p.hidden && !s.hasSetInitialVisibleMonth
      then s.(hasSetInitialVisibleMonth := true, currentMonth := p.initialVisibleMonth)
      else s;
    ReceiveFocusProps(cfg, shown, p, s.currentMonth)
  }

  /**
    componentWillReceiveProps with the buffer recomputed when the current month is set
    on first show, as every other change of currentMonth does.
  */
  function ReceiveProps(cfg: Config, s: PickerState, p: NextProps): PickerState
  {
    ReceiveFocusProps(cfg, ShowInitialMonth(cfg, s, p), p, s.currentMonth)
  }

  /** The first part of the corrected componentWillReceiveProps: set the initial month on first show. */
  function ShowInitialMonth(cfg: Config, s: PickerState, p: NextProps): PickerState
  {
    if !p.hidden && !s.hasSetInitialVisibleMonth
    then s.(hasSetInitialVisibleMonth := true, currentMonth := p.initialVisibleMonth,
            calendarMonthWeeks := MonthWeeks(cfg, p.initialVisibleMonth))
    else s
  }

  /**
    The rest of componentWillReceiveProps. Its setState calls are batched, so it takes
    the current month from before the handler (`month`), not from `shown`.
  */
  function ReceiveFocusProps(cfg: Config, shown: PickerState, p: NextProps, month: int): PickerState
  {
    var focus :=
      if p.isFocused == shown.isFocused then shown
      else if p.isFocused then
        shown.(showKeyboardShortcuts := p.showKeyboardShortcuts,
               onKeyboardShortcutsPanelClose :=
                 if p.showKeyboardShortcuts then Some(CallOnBlur) else shown.onKeyboardShortcutsPanelClose,
               focusedDate := Some(GetFocusedDay(cfg, month)),
               withMouseInteractions := false)
      else shown.(focusedDate := None);
    var titled := if p.renderMonthTextChanged then focus.(monthTitleHeight := None) else focus;
    titled.(isFocused := p.isFocused)
  }

  /** Showing the picker the first time, as written, can leave the buffer describing other months. */
  lemma ReceivePropsAsWrittenLosesBuffer()
    ensures exists cfg: Config, s: PickerState, p: NextProps ::
      Consistent(cfg, s) && !Consistent(cfg, ReceivePropsAsWritten(cfg, s, p))
  {
    // Mounted hidden in October 2026; shown with initialVisibleMonth February 2026.
    // With Sunday as the first day of the week, February 2026 fills 4 rows, the months
    // around it 5.
    var october, february := 2026 * 12 + 9, 2026 * 12 + 1;
    var cal := Calendar(
      (d: Date, k: int) => d, (d: Date, k: int) => d, (d: Date) => d, (d: Date) => d,
      (m: int, first: int) => if m == february then 4 else 5);
    var cfg := Config(1, Horizontal, false, 39, 0, 300, None, cal);
    var s := Initial(cfg, MountProps(true, false, false, october, february));
    var p := NextProps(false, false, false, february, false);
    var after := ReceivePropsAsWritten(cfg, s, p);
    assert after.currentMonth == february;
    assert after.calendarMonthWeeks[1] == 5;
    assert MonthWeeks(cfg, february)[1] == 4;
  }

  /** The corrected componentWillReceiveProps keeps the buffer on the current month. */
  lemma ReceivePropsPreservesConsistency(cfg: Config, s: PickerState, p: NextProps)
    requires Consistent(cfg, s)
    ensures Consistent(cfg, ReceiveProps(cfg, s, p))
    ensures !p.hidden && !s.hasSetInitialVisibleMonth ==>
      ReceiveProps(cfg, s, p).currentMonth == p.initialVisibleMonth
  {
  }

  /**
    Gaining focus through props always gives a focused date, and losing it clears the
    date; the panel's close callback becomes onBlur when the panel comes with the focus.
  */
  lemma ReceivePropsFocusRule(cfg: Config, s: PickerState, p: NextProps)
    ensures p.isFocused && !s.isFocused ==>
      ReceiveProps(cfg, s, p).focusedDate == Some(GetFocusedDay(cfg, s.currentMonth))
      && !ReceiveProps(cfg, s, p).withMouseInteractions
      && ReceiveProps(cfg, s, p).showKeyboardShortcuts == p.showKeyboardShortcuts
      && (p.showKeyboardShortcuts ==> ReceiveProps(cfg, s, p).onKeyboardShortcutsPanelClose == Some(CallOnBlur))
    ensures !p.isFocused && s.isFocused ==> ReceiveProps(cfg, s, p).focusedDate == None
    ensures p.isFocused == s.isFocused ==> ReceiveProps(cfg, s, p).focusedDate == s.focusedDate
  {
  }

  /** componentDidUpdate's rule: focus the calendar container when focus arrives with no focused date. */
  predicate ShouldFocusContainer(prevIsFocused: bool, s: PickerState)
  {
    !prevIsFocused && s.isFocused && s.focusedDate.None?
  }

  /**
    Since focus arriving through props always sets a focused date, that rule never
    fires after componentWillReceiveProps.
  */
  lemma ContainerNeverFocusedAfterReceiveProps(cfg: Config, s: PickerState, p: NextProps)
    ensures !ShouldFocusContainer(s.isFocused, ReceiveProps(cfg, s, p))
  {
  }

  // ---------------------------------------------------------------------------
  // Transitions

  /** onPrevMonthClick(nextFocusedDate): start a prev transition holding the focus back. */
  function PrevMonthClick(cfg: Config, s: PickerState, nextFocusedDate: Option<Date>): PickerState
    requires WellFormed(cfg, s)
  {
    s.(monthTransition := PrevTransition,
       translationValue := PrevTranslation(cfg, s.monthTitleHeight, s.calendarMonthWeeks),
       focusedDate := None,
       nextFocusedDate := nextFocusedDate,
       calendarMonthGridHeight :=
         GridHeightFor(cfg, s.monthTitleHeight, s.calendarMonthWeeks, 0, s.calendarMonthGridHeight))
  }

  /** onNextMonthClick(nextFocusedDate): start a next transition holding the focus back. */
  function NextMonthClick(cfg: Config, s: PickerState, nextFocusedDate: Option<Date>): PickerState
    requires WellFormed(cfg, s)
  {
    s.(monthTransition := NextTransition,
       translationValue := NextTranslation(cfg, s.monthTitleHeight, s.calendarMonthWeeks),
       focusedDate := None,
       nextFocusedDate := nextFocusedDate,
       calendarMonthGridHeight :=
         GridHeightFor(cfg, s.monthTitleHeight, s.calendarMonthWeeks, 2, s.calendarMonthGridHeight))
  }

  /** onMonthChange / onYearChange: jump to `month`, which also becomes the pending focus. */
  function SelectMonth(cfg: Config, s: PickerState, month: Date, kind: Transition): PickerState
    requires kind == MonthSelection || kind == YearSelection
  {
    var b := MonthWeeks(cfg, month.monthIndex);
    s.(calendarMonthWeeks := b,
       calendarMonthGridHeight := GridHeightFor(cfg, s.monthTitleHeight, b, 1, s.calendarMonthGridHeight),
       monthTransition := kind,
       translationValue := if kind == MonthSelection then MonthSelectionNudge else YearSelectionNudge,
       focusedDate := None,
       nextFocusedDate := Some(month),
       currentMonth := month.monthIndex)
  }

  /** The current month once a transition of kind `t` is committed. */
  function CommittedMonth(currentMonth: int, t: Transition): int
  {
    if t == PrevTransition then currentMonth - 1
    else if t == NextTransition then currentMonth + 1
    else currentMonth
  }

  /** updateStateAfterMonthTransition: the commit at the end of a transition. */
  function Commit(cfg: Config, s: PickerState): PickerState
  {
    if s.monthTransition == NoTransition then s
    else
      var t := s.monthTransition;
      var newMonth := CommittedMonth(s.currentMonth, t);
      s.(currentMonth := newMonth,
         calendarMonthWeeks := CommittedWeeks(cfg, s.calendarMonthWeeks, t, newMonth),
         monthTransition := NoTransition,
         translationValue := RestingTranslation(cfg),
         nextFocusedDate := None,
         focusedDate := ResolveFocus(cfg, newMonth, s.nextFocusedDate, s.focusedDate, s.withMouseInteractions),
         notices := s.notices + [CommitNotice(t, newMonth)])
  }

  /** The buffer after committing a transition of kind `t` that ends on `newMonth`. */
  function CommittedWeeks(cfg: Config, b: seq<nat>, t: Transition, newMonth: int): seq<nat>
  {
    if t == PrevTransition then [Weeks(cfg, newMonth - 1)] + DropLast(b)
    else if t == NextTransition then Tail(b) + [Weeks(cfg, newMonth + cfg.numberOfMonths)]
    else b
  }

  /** The callback a commit of kind `t` fires (onPrevMonthClick, onNextMonthClick, onMonthChange, onYearChange). */
  function CommitNotice(t: Transition, newMonth: int): Notice
  {
    if t == PrevTransition then PrevMonthCommitted(newMonth)
    else if t == NextTransition then NextMonthCommitted(newMonth)
    else if t == MonthSelection then MonthChangeCommitted(newMonth)
    else YearChangeCommitted(newMonth)
  }

  /** A next commit moves the window one month on and shifts the buffer by one slot, keeping its length. */
  lemma CommitNextShiftsBuffer(cfg: Config, s: PickerState)
    requires s.monthTransition == NextTransition && WellFormed(cfg, s)
    ensures Commit(cfg, s).currentMonth == s.currentMonth + 1
    ensures Commit(cfg, s).calendarMonthWeeks
            == s.calendarMonthWeeks[1..] + [Weeks(cfg, s.currentMonth + 1 + cfg.numberOfMonths)]
    ensures WellFormed(cfg, Commit(cfg, s))
    ensures Consistent(cfg, s) ==> Commit(cfg, s).calendarMonthWeeks == MonthWeeks(cfg, s.currentMonth + 1)
  {
    if Consistent(cfg, s) {
      ShiftForwardIsRecompute(cfg, s.currentMonth);
    }
  }

  /** A prev commit moves the window one month back and shifts the buffer the other way. */
  lemma CommitPrevShiftsBuffer(cfg: Config, s: PickerState)
    requires s.monthTransition == PrevTransition && WellFormed(cfg, s)
    ensures Commit(cfg, s).currentMonth == s.currentMonth - 1
    ensures Commit(cfg, s).calendarMonthWeeks
            == [Weeks(cfg, s.currentMonth - 2)] + s.calendarMonthWeeks[..|s.calendarMonthWeeks| - 1]
    ensures WellFormed(cfg, Commit(cfg, s))
    ensures Consistent(cfg, s) ==> Commit(cfg, s).calendarMonthWeeks == MonthWeeks(cfg, s.currentMonth - 1)
  {
    if Consistent(cfg, s) {
      ShiftBackwardIsRecompute(cfg, s.currentMonth);
    }
  }

  /** Every commit leaves the buffer describing the months around the new current month. */
  lemma CommitPreservesConsistency(cfg: Config, s: PickerState)
    requires Consistent(cfg, s)
    ensures Consistent(cfg, Commit(cfg, s))
  {
    if s.monthTransition == NextTransition {
      CommitNextShiftsBuffer(cfg, s);
    } else if s.monthTransition == PrevTransition {
      CommitPrevShiftsBuffer(cfg, s);
    }
  }

  /**
    A commit with no transition changes nothing; any other commit ends with no
    transition, no pending focus and the grid at rest, so committing twice is
    committing once.
  */
  lemma CommitSettles(cfg: Config, s: PickerState)
    ensures s.monthTransition == NoTransition ==> Commit(cfg, s) == s
    ensures s.monthTransition != NoTransition ==>
      && Commit(cfg, s).monthTransition == NoTransition
      && Commit(cfg, s).nextFocusedDate == None
      && Commit(cfg, s).translationValue == RestingTranslation(cfg)
    ensures Commit(cfg, Commit(cfg, s)) == Commit(cfg, s)
  {
  }

  /**
    The focus a commit settles on: the pending date when there is one; else, with no
    focused date and keyboard use, the focused day of the new month; else none.
  */
  lemma CommitResolvesFocus(cfg: Config, s: PickerState)
    requires s.monthTransition != NoTransition
    ensures s.nextFocusedDate.Some? ==> Commit(cfg, s).focusedDate == s.nextFocusedDate
    ensures s.nextFocusedDate.None? && s.focusedDate.None? && !s.withMouseInteractions ==>
      Commit(cfg, s).focusedDate == Some(GetFocusedDay(cfg, Commit(cfg, s).currentMonth))
    ensures s.nextFocusedDate.None? && (s.focusedDate.Some? || s.withMouseInteractions) ==>
      Commit(cfg, s).focusedDate == None
  {
  }

  /**
    While the grid is drawn for a transition, the first visible slot of the buffer holds
    the month that is first once the transition is committed.
  */
  lemma FirstVisibleIndexIsCommittedMonth(cfg: Config, s: PickerState)
    requires Consistent(cfg, s) && cfg.numberOfMonths >= 1 && cfg.orientation != VerticalScrollable
    ensures FirstVisibleIndex(cfg.orientation, s.monthTransition) < |s.calendarMonthWeeks|
    ensures s.calendarMonthWeeks[FirstVisibleIndex(cfg.orientation, s.monthTransition)]
            == Weeks(cfg, Commit(cfg, s).currentMonth)
  {
    ConsistentIsWellFormed(cfg, s);
  }

  /**
    The height set before a prev or next transition is the height of the window once the
    transition is committed: the buffer measures the incoming month beforehand.
  */
  lemma TransitionHeightIsCommittedHeight(cfg: Config, s: PickerState, next: Option<Date>)
    requires Consistent(cfg, s)
    ensures WindowHeight(cfg, s.monthTitleHeight, s.calendarMonthWeeks, 0)
            == WindowHeight(cfg, s.monthTitleHeight, Commit(cfg, PrevMonthClick(cfg, s, next)).calendarMonthWeeks, 1)
    ensures WindowHeight(cfg, s.monthTitleHeight, s.calendarMonthWeeks, 2)
            == WindowHeight(cfg, s.monthTitleHeight, Commit(cfg, NextMonthClick(cfg, s, next)).calendarMonthWeeks, 1)
  {
    var b, n := s.calendarMonthWeeks, cfg.numberOfMonths;
    ConsistentIsWellFormed(cfg, s);
    CommitPrevShiftsBuffer(cfg, PrevMonthClick(cfg, s, next));
    CommitNextShiftsBuffer(cfg, NextMonthClick(cfg, s, next));
    var bp := Commit(cfg, PrevMonthClick(cfg, s, next)).calendarMonthWeeks;
    var bn := Commit(cfg, NextMonthClick(cfg, s, next)).calendarMonthWeeks;
    assert bp[1..1 + n] == b[0..n];
    assert bn[1..1 + n] == b[2..2 + n];
  }

  /** A next commit followed by a prev commit brings back the month and the buffer, and the other way round. */
  lemma NextThenPrevRestoresWindow(cfg: Config, s: PickerState, x: Option<Date>, y: Option<Date>)
    requires Consistent(cfg, s)
    ensures
      var n := Commit(cfg, NextMonthClick(cfg, s, x));
      WellFormed(cfg, n)
      && Commit(cfg, PrevMonthClick(cfg, n, y)).currentMonth == s.currentMonth
      && Commit(cfg, PrevMonthClick(cfg, n, y)).calendarMonthWeeks == s.calendarMonthWeeks
    ensures
      var p := Commit(cfg, PrevMonthClick(cfg, s, x));
      WellFormed(cfg, p)
      && Commit(cfg, NextMonthClick(cfg, p, y)).currentMonth == s.currentMonth
      && Commit(cfg, NextMonthClick(cfg, p, y)).calendarMonthWeeks == s.calendarMonthWeeks
  {
    ConsistentIsWellFormed(cfg, s);
    var n := Commit(cfg, NextMonthClick(cfg, s, x));
    CommitNextShiftsBuffer(cfg, NextMonthClick(cfg, s, x));
    CommitPrevShiftsBuffer(cfg, PrevMonthClick(cfg, n, y));
    var p := Commit(cfg, PrevMonthClick(cfg, s, x));
    CommitPrevShiftsBuffer(cfg, PrevMonthClick(cfg, s, x));
    CommitNextShiftsBuffer(cfg, NextMonthClick(cfg, p, y));
  }

  /**
    Starting a transition while another runs does not queue it: the later one replaces
    the earlier, and the commit moves the window by the later one alone.
  */
  lemma LaterTransitionReplacesEarlier(cfg: Config, s: PickerState, x: Option<Date>, y: Option<Date>)
    requires Consistent(cfg, s)
    ensures
      var both := PrevMonthClick(cfg, NextMonthClick(cfg, s, x), y);
      && both.monthTransition == PrevTransition && both.nextFocusedDate == y
      && Commit(cfg, both).currentMonth == s.currentMonth - 1
      && Commit(cfg, both).calendarMonthWeeks == MonthWeeks(cfg, s.currentMonth - 1)
  {
    ConsistentIsWellFormed(cfg, s);
    CommitPrevShiftsBuffer(cfg, PrevMonthClick(cfg, NextMonthClick(cfg, s, x), y));
  }

  /** A paging step of the navigation buttons: start the transition and let it complete. */
  datatype Direction = Backward | Forward

  function Page(cfg: Config, s: PickerState, d: Direction): PickerState
    requires WellFormed(cfg, s)
  {
    if d == Backward then Commit(cfg, PrevMonthClick(cfg, s, None))
    else Commit(cfg, NextMonthClick(cfg, s, None))
  }

  /** +1 for a forward step, -1 for a backward one. */
  function Step(d: Direction): int
  {
    if d == Forward then 1 else -1
  }

  /** One completed page moves the current month by one and keeps the buffer consistent. */
  lemma PageMovesByOne(cfg: Config, s: PickerState, d: Direction)
    requires Consistent(cfg, s)
    ensures WellFormed(cfg, s)
    ensures Page(cfg, s, d).currentMonth == s.currentMonth + Step(d)
    ensures Consistent(cfg, Page(cfg, s, d))
  {
    ConsistentIsWellFormed(cfg, s);
    if d == Backward {
      CommitPrevShiftsBuffer(cfg, PrevMonthClick(cfg, s, None));
    } else {
      CommitNextShiftsBuffer(cfg, NextMonthClick(cfg, s, None));
    }
  }

  /** Forward steps minus backward steps. */
  function NetMonths(ds: seq<Direction>): int
  {
    if ds == [] then 0 else Step(ds[0]) + NetMonths(ds[1..])
  }

  /** Paging through `ds`, each transition completing before the next begins. */
  function PageAll(cfg: Config, s: PickerState, ds: seq<Direction>): (r: PickerState)
    requires Consistent(cfg, s)
    ensures Consistent(cfg, r)
    decreases |ds|
  {
    if ds == [] then s
    else
      PageMovesByOne(cfg, s, ds[0]);
      PageAll(cfg, Page(cfg, s, ds[0]), ds[1..])
  }

  /**
    Any sequence of completed prev and next transitions moves the current month by the
    number of next steps minus prev steps and leaves the buffer as a recomputation would;
    with as many of each, the window is back where it started.
  */
  lemma {:induction false} PageAllMovesByNet(cfg: Config, s: PickerState, ds: seq<Direction>)
    requires Consistent(cfg, s)
    ensures PageAll(cfg, s, ds).currentMonth == s.currentMonth + NetMonths(ds)
    ensures PageAll(cfg, s, ds).calendarMonthWeeks == MonthWeeks(cfg, s.currentMonth + NetMonths(ds))
    ensures NetMonths(ds) == 0 ==> PageAll(cfg, s, ds).calendarMonthWeeks == s.calendarMonthWeeks
    decreases |ds|
  {
    if ds != [] {
      PageMovesByOne(cfg, s, ds[0]);
      var t := Page(cfg, s, ds[0]);
      assert PageAll(cfg, s, ds) == PageAll(cfg, t, ds[1..]);
      PageAllMovesByNet(cfg, t, ds[1..]);
    }
  }

  // ---------------------------------------------------------------------------
  // The keyboard shortcuts panel

  /** openKeyboardShortcutsPanel(onCloseCallBack). */
  function OpenPanel(s: PickerState, onClose: PanelCloseCallback): PickerState
  {
    s.(showKeyboardShortcuts := true, onKeyboardShortcutsPanelClose := Some(onClose))
  }

  /** What running a stored close callback does. */
  function CloseCallbackNotices(c: Option<PanelCloseCallback>): seq<Notice>
  {
    if c.None? then []
    else match c.value
      case DoNothing => []
      case RestoreFocus(target) => if target.Some? then [FocusMoved(target.value)] else []
      case RefocusShowButton => [FocusMoved(ShowShortcutsButton)]
      case CallOnBlur => [BlurRequested]
  }

  /** closeKeyboardShortcutsPanel: run the stored callback, clear it, hide the panel. */
  function ClosePanel(s: PickerState): PickerState
  {
    s.(notices := s.notices + CloseCallbackNotices(s.onKeyboardShortcutsPanelClose),
       onKeyboardShortcutsPanelClose := None,
       showKeyboardShortcuts := false)
  }

  /**
    Closing runs the callback stored at opening exactly once: a second close finds no
    callback and fires nothing more.
  */
  lemma CloseRunsCallbackOnce(s: PickerState, onClose: PanelCloseCallback)
    ensures ClosePanel(OpenPanel(s, onClose)).notices == s.notices + CloseCallbackNotices(Some(onClose))
    ensures !ClosePanel(OpenPanel(s, onClose)).showKeyboardShortcuts
    ensures ClosePanel(ClosePanel(OpenPanel(s, onClose))).notices == ClosePanel(OpenPanel(s, onClose)).notices
  {
  }

  /** The panel's key trap wired to this picker's closeKeyboardShortcutsPanel. */
  function PanelKeyDownStep(s: PickerState, key: string): PickerState
  {
    if KeyboardShortcuts.PanelKeyDown(key).closesPanel then ClosePanel(s) else s
  }

  /**
    Keys pressed in the panel never reach the calendar: they leave month, buffer,
    transition and focus alone; the closing keys close the panel with exactly one run
    of its callback, every other key changes nothing.
  */
  lemma PanelKeysStayInPanel(s: PickerState, key: string)
    ensures
      var r := PanelKeyDownStep(s, key);
      r.currentMonth == s.currentMonth && r.calendarMonthWeeks == s.calendarMonthWeeks
      && r.monthTransition == s.monthTransition && r.focusedDate == s.focusedDate
      && r.nextFocusedDate == s.nextFocusedDate
    ensures key in KeyboardShortcuts.CloseKeys ==>
      PanelKeyDownStep(s, key).notices == s.notices + CloseCallbackNotices(s.onKeyboardShortcutsPanelClose)
      && !PanelKeyDownStep(s, key).showKeyboardShortcuts
    ensures key !in KeyboardShortcuts.CloseKeys ==> PanelKeyDownStep(s, key) == s
  {
  }

  /** onShowKeyboardShortcutsButtonClick: open the panel so that closing it refocuses the button. */
  function ShowButtonClick(s: PickerState): PickerState
  {
    OpenPanel(s, RefocusShowButton)
  }

  /** The toggle button's keydown: the key named 'Space' acts as a click. */
  function ShowButtonKeyDownStep(s: PickerState, key: string): PickerState
  {
    if KeyboardShortcuts.ShowButtonKeyDown(key).opensPanel then ShowButtonClick(s) else s
  }

  /** Opening from the toggle button and closing again hands focus back to the button. */
  lemma ShowButtonRoundTrip(s: PickerState)
    ensures ShowButtonClick(s).showKeyboardShortcuts
    ensures ClosePanel(ShowButtonClick(s)).notices == s.notices + [FocusMoved(ShowShortcutsButton)]
  {
  }

  // ---------------------------------------------------------------------------
  // Keyboard navigation

  /** The keys that move the focused date. */
  const NavigationKeys: set<string> :=
    {"ArrowUp", "ArrowDown", "ArrowLeft", "ArrowRight", "Home", "End", "PageUp", "PageDown"}

  /** A candidate date and the transition that brings it into view if it is hidden. */
  datatype NavTarget = NavTarget(date: Date, direction: Direction)

  /** The candidate date of a navigation key, before any direction is chosen for it. */
  function NavigationDate(cal: Calendar, isRTL: bool, key: string, d: Date): Date
  {
    match key
    case "ArrowUp" => cal.addDays(d, -7)
    case "ArrowDown" => cal.addDays(d, 7)
    case "ArrowLeft" => cal.addDays(d, if isRTL then 1 else -1)
    case "ArrowRight" => cal.addDays(d, if isRTL then -1 else 1)
    case "Home" => cal.startOfWeek(d)
    case "End" => cal.endOfWeek(d)
    case "PageUp" => cal.addMonths(d, -1)
    case _ => cal.addMonths(d, 1)
  }

  /**
    onFinalKeyDown's switch as written: the direction follows the key, so under
    right-to-left layout ArrowLeft (one day later) checks for a prev transition and
    ArrowRight (one day earlier) for a next one.
  */
  function NavigationTargetAsWritten(cal: Calendar, isRTL: bool, key: string, d: Date): (t: Option<NavTarget>)
    ensures t.Some? <==> key in NavigationKeys
    ensures t.Some? ==> t.value.date == NavigationDate(cal, isRTL, key, d)
    ensures t.Some? ==> (t.value.direction == Backward <==> key in {"ArrowUp", "ArrowLeft", "Home", "PageUp"})
  {
    if key !in NavigationKeys then None
    else
      var back := key == "ArrowUp" || key == "ArrowLeft" || key == "Home" || key == "PageUp";
      Some(NavTarget(NavigationDate(cal, isRTL, key, d), if back then Backward else Forward))
  }

  /** The keys whose candidate is earlier in time than the focused date. */
  function EarlierKeys(isRTL: bool): set<string>
  {
    if isRTL then {"ArrowUp", "ArrowRight", "Home", "PageUp"} else {"ArrowUp", "ArrowLeft", "Home", "PageUp"}
  }

  /**
    The navigation keys with the direction following the date: under right-to-left
    layout ArrowLeft checks for a next transition and ArrowRight for a prev one.
  */
  function NavigationTarget(cal: Calendar, isRTL: bool, key: string, d: Date): (t: Option<NavTarget>)
    ensures t.Some? <==> key in NavigationKeys
    ensures t.Some? ==> t.value.date == NavigationDate(cal, isRTL, key, d)
    ensures t.Some? ==> (t.value.direction == Backward <==> key in EarlierKeys(isRTL))
    ensures !isRTL ==> t == NavigationTargetAsWritten(cal, isRTL, key, d)
  {
    if key !in NavigationKeys then None
    else Some(NavTarget(NavigationDate(cal, isRTL, key, d), if key in EarlierKeys(isRTL) then Backward else Forward))
  }

  /** Under a well-behaved calendar, candidates of the earlier keys are at most a month back, the others a month on. */
  lemma NavigationDateMovesOneMonth(cal: Calendar, isRTL: bool, key: string, d: Date)
    requires WellBehaved(cal) && key in NavigationKeys
    ensures key in EarlierKeys(isRTL) ==>
      d.monthIndex - 1 <= NavigationDate(cal, isRTL, key, d).monthIndex <= d.monthIndex
    ensures key !in EarlierKeys(isRTL) ==>
      d.monthIndex <= NavigationDate(cal, isRTL, key, d).monthIndex <= d.monthIndex + 1
  {
  }

  /**
    maybeTransitionPrevMonth / maybeTransitionNextMonth: a transition is needed when the
    candidate's month of the year differs from the focused date's and it is not visible.
  */
  predicate StartsTransition(cfg: Config, s: PickerState, focused: Date, candidate: Date)
  {
    MonthOfYear(candidate) != MonthOfYear(focused)
    && !IsDayVisible(candidate, s.currentMonth, cfg.numberOfMonths)
  }

  /**
    For the candidates of the navigation keys, the source's year-blind month comparison
    decides as a comparison of whole months would.
  */
  lemma MonthOfYearComparisonIsSound(cal: Calendar, isRTL: bool, key: string, d: Date)
    requires WellBehaved(cal) && key in NavigationKeys
    ensures
      var c := NavigationDate(cal, isRTL, key, d);
      MonthOfYear(c) != MonthOfYear(d) <==> c.monthIndex != d.monthIndex
  {
    NavigationDateMovesOneMonth(cal, isRTL, key, d);
    MonthOfYearDecidesNearbyMonths(NavigationDate(cal, isRTL, key, d), d);
  }

  /**
    A navigation key with candidate t.date: maybeTransitionPrevMonth or
    maybeTransitionNextMonth as t.direction says, then focus the candidate if no
    transition started.
  */
  function MoveFocus(cfg: Config, s: PickerState, t: NavTarget): PickerState
    requires WellFormed(cfg, s) && s.focusedDate.Some?
  {
    if StartsTransition(cfg, s, s.focusedDate.value, t.date) then
      if t.direction == Backward then PrevMonthClick(cfg, s, Some(t.date))
      else NextMonthClick(cfg, s, Some(t.date))
    else s.(focusedDate := Some(t.date))
  }

  /** The target of each navigation key, key by key. */
  lemma NavigationTargetOfKey(cal: Calendar, isRTL: bool, key: string, d: Date)
    ensures key == "ArrowUp" ==> NavigationTarget(cal, isRTL, key, d) == Some(NavTarget(cal.addDays(d, -7), Backward))
    ensures key == "ArrowDown" ==> NavigationTarget(cal, isRTL, key, d) == Some(NavTarget(cal.addDays(d, 7), Forward))
    ensures key == "ArrowLeft" ==>
      NavigationTarget(cal, isRTL, key, d)
      == Some(if isRTL then NavTarget(cal.addDays(d, 1), Forward) else NavTarget(cal.addDays(d, -1), Backward))
    ensures key == "ArrowRight" ==>
      NavigationTarget(cal, isRTL, key, d)
      == Some(if isRTL then NavTarget(cal.addDays(d, -1), Backward) else NavTarget(cal.addDays(d, 1), Forward))
    ensures key == "Home" ==> NavigationTarget(cal, isRTL, key, d) == Some(NavTarget(cal.startOfWeek(d), Backward))
    ensures key == "End" ==> NavigationTarget(cal, isRTL, key, d) == Some(NavTarget(cal.endOfWeek(d), Forward))
    ensures key == "PageUp" ==> NavigationTarget(cal, isRTL, key, d) == Some(NavTarget(cal.addMonths(d, -1), Backward))
    ensures key == "PageDown" ==> NavigationTarget(cal, isRTL, key, d) == Some(NavTarget(cal.addMonths(d, 1), Forward))
    ensures key !in NavigationKeys ==> NavigationTarget(cal, isRTL, key, d) == None
  {
  }

  /** onFinalKeyDown, given the navigation target of the key. */
  function FinalKeyDownWith(cfg: Config, s: PickerState, key: string, active: Option<Element>,
                            target: Option<NavTarget>): PickerState
    requires WellFormed(cfg, s)
  {
    var s1 := s.(withMouseInteractions := false);
    if s.focusedDate.None? then s1
    else if target.Some? then MoveFocus(cfg, s1, target.value)
    else if key == "?" then OpenPanel(s1, RestoreFocus(active))
    else if key == "Escape" then
      if s.showKeyboardShortcuts then ClosePanel(s1) else s1.(notices := s1.notices + [BlurRequested])
    else s1
  }

  /** The navigation target of `key` from the state's focused date. */
  function KeyTarget(cfg: Config, s: PickerState, key: string): Option<NavTarget>
  {
    if s.focusedDate.Some? then NavigationTarget(cfg.cal, cfg.isRTL, key, s.focusedDate.value) else None
  }

  /** onFinalKeyDown as written: the key decides the direction. */
  function FinalKeyDownAsWritten(cfg: Config, s: PickerState, key: string, active: Option<Element>): PickerState
    requires WellFormed(cfg, s)
  {
    FinalKeyDownWith(cfg, s, key, active,
      if s.focusedDate.Some? then NavigationTargetAsWritten(cfg.cal, cfg.isRTL, key, s.focusedDate.value) else None)
  }

  /** onFinalKeyDown with the direction following the candidate date. `active` is getActiveElement(). */
  function FinalKeyDown(cfg: Config, s: PickerState, key: string, active: Option<Element>): PickerState
    requires WellFormed(cfg, s)
  {
    FinalKeyDownWith(cfg, s, key, active, KeyTarget(cfg, s, key))
  }

  /** Whether onFinalKeyDown calls preventDefault. */
  predicate FinalKeyDownPrevents(s: PickerState, key: string)
  {
    s.focusedDate.Some? && key in NavigationKeys
  }

  /** A keydown with no focused date only records that the keyboard is in use. */
  lemma KeyDownWithoutFocus(cfg: Config, s: PickerState, key: string, active: Option<Element>)
    requires WellFormed(cfg, s) && s.focusedDate.None?
    ensures FinalKeyDown(cfg, s, key, active) == s.(withMouseInteractions := false)
    ensures !FinalKeyDownPrevents(s, key)
  {
  }

  /**
    The transition rule of a navigation key: with candidate c, a transition starts iff c
    is in another month of the year and not visible; then the focus is held back as the
    pending date c; otherwise c is focused at once and nothing else moves.
  */
  lemma NavigationKeyRule(cfg: Config, s: PickerState, key: string, active: Option<Element>)
    requires WellFormed(cfg, s) && s.focusedDate.Some? && key in NavigationKeys
    ensures
      var f := s.focusedDate.value;
      var t := NavigationTarget(cfg.cal, cfg.isRTL, key, f).value;
      var r := FinalKeyDown(cfg, s, key, active);
      && t.date == NavigationDate(cfg.cal, cfg.isRTL, key, f)
      && (StartsTransition(cfg, s, f, t.date) ==>
            && r.monthTransition == (if t.direction == Backward then PrevTransition else NextTransition)
            && r.focusedDate == None && r.nextFocusedDate == Some(t.date))
      && (!StartsTransition(cfg, s, f, t.date) ==>
            r == s.(withMouseInteractions := false, focusedDate := Some(t.date)))
      && !r.withMouseInteractions
      && r.currentMonth == s.currentMonth && r.calendarMonthWeeks == s.calendarMonthWeeks
  {
  }

  /** '?' opens the panel so that closing refocuses the element active at the time; Escape closes it or blurs. */
  lemma PanelKeysOfTheCalendar(cfg: Config, s: PickerState, active: Option<Element>)
    requires WellFormed(cfg, s) && s.focusedDate.Some?
    ensures FinalKeyDown(cfg, s, "?", active)
            == OpenPanel(s.(withMouseInteractions := false), RestoreFocus(active))
    ensures s.showKeyboardShortcuts ==>
      FinalKeyDown(cfg, s, "Escape", active) == ClosePanel(s.(withMouseInteractions := false))
    ensures !s.showKeyboardShortcuts ==>
      FinalKeyDown(cfg, s, "Escape", active).notices == s.notices + [BlurRequested]
  {
    assert "?" !in NavigationKeys && "Escape" !in NavigationKeys;
  }

  /**
    With the direction following the date, focus never leaves the window: if the focused
    date is visible, the keyboard's candidate is visible at once or, when it starts a
    transition, once that transition is committed.
  */
  lemma KeyboardFocusStaysVisible(cfg: Config, s: PickerState, key: string, active: Option<Element>)
    requires Consistent(cfg, s) && WellBehaved(cfg.cal) && cfg.numberOfMonths >= 1
    requires s.monthTransition == NoTransition
    requires s.focusedDate.Some? && IsDayVisible(s.focusedDate.value, s.currentMonth, cfg.numberOfMonths)
    requires key in NavigationKeys
    ensures
      var r := Commit(cfg, FinalKeyDown(cfg, s, key, active));
      r.focusedDate.Some? && IsDayVisible(r.focusedDate.value, r.currentMonth, cfg.numberOfMonths)
  {
    var f := s.focusedDate.value;
    MonthOfYearComparisonIsSound(cfg.cal, cfg.isRTL, key, f);
    NavigationDateMovesOneMonth(cfg.cal, cfg.isRTL, key, f);
    FocusStaysVisibleStep(cfg, s, key, active);
  }

  /** The step of KeyboardFocusStaysVisible once the calendar's facts about the candidate are known. */
  lemma FocusStaysVisibleStep(cfg: Config, s: PickerState, key: string, active: Option<Element>)
    requires Consistent(cfg, s) && cfg.numberOfMonths >= 1 && s.monthTransition == NoTransition
    requires s.focusedDate.Some? && IsDayVisible(s.focusedDate.value, s.currentMonth, cfg.numberOfMonths)
    requires key in NavigationKeys
    requires
      var f := s.focusedDate.value;
      var c := NavigationDate(cfg.cal, cfg.isRTL, key, f);
      && (MonthOfYear(c) != MonthOfYear(f) <==> c.monthIndex != f.monthIndex)
      && (key in EarlierKeys(cfg.isRTL) ==> f.monthIndex - 1 <= c.monthIndex <= f.monthIndex)
      && (key !in EarlierKeys(cfg.isRTL) ==> f.monthIndex <= c.monthIndex <= f.monthIndex + 1)
    ensures
      var r := Commit(cfg, FinalKeyDown(cfg, s, key, active));
      r.focusedDate.Some? && IsDayVisible(r.focusedDate.value, r.currentMonth, cfg.numberOfMonths)
  {
    ConsistentIsWellFormed(cfg, s);
    var f := s.focusedDate.value;
    var t := NavigationTarget(cfg.cal, cfg.isRTL, key, f).value;
    var c := t.date;
    var k := FinalKeyDown(cfg, s, key, active);
    if StartsTransition(cfg, s, f, c) {
      if t.direction == Backward {
        assert k == PrevMonthClick(cfg, s.(withMouseInteractions := false), Some(c));
        assert c.monthIndex == s.currentMonth - 1;
      } else {
        assert k == NextMonthClick(cfg, s.(withMouseInteractions := false), Some(c));
        assert c.monthIndex == s.currentMonth + cfg.numberOfMonths;
      }
    } else {
      assert k == s.(withMouseInteractions := false, focusedDate := Some(c));
      assert IsDayVisible(c, s.currentMonth, cfg.numberOfMonths);
    }
  }

  /**
    As written, under right-to-left layout ArrowLeft on the last visible day moves the
    window back a month while the focus moves to the next month, out of sight.
  */
  lemma ArrowLeftUnderRtlLosesFocus()
    ensures exists cfg: Config, s: PickerState ::
      && WellBehaved(cfg.cal) && Consistent(cfg, s) && cfg.numberOfMonths >= 1
      && s.monthTransition == NoTransition
      && s.focusedDate.Some? && IsDayVisible(s.focusedDate.value, s.currentMonth, cfg.numberOfMonths)
      && var r := Commit(cfg, FinalKeyDownAsWritten(cfg, s, "ArrowLeft", None));
         r.focusedDate.Some? && !IsDayVisible(r.focusedDate.value, r.currentMonth, cfg.numberOfMonths)
  {
    // One visible month, January 2026, focus on January 31; a calendar of 31-day months
    // whose weeks never cross a month boundary.
    var january := 2026 * 12;
    var cal := Calendar(
      (d: Date, k: int) =>
        if k > 0 && d.dayOfMonth + k > 31 then Date(d.monthIndex + 1, d.dayOfMonth + k - 31)
        else if k < 0 && d.dayOfMonth + k < 1 then Date(d.monthIndex - 1, d.dayOfMonth + k + 31)
        else Date(d.monthIndex, d.dayOfMonth + k),
      (d: Date, k: int) => Date(d.monthIndex + k, d.dayOfMonth),
      (d: Date) => d, (d: Date) => d,
      (m: int, first: int) => 5);
    var cfg := Config(1, Horizontal, true, 39, 0, 300, None, cal);
    var s0 := Initial(cfg, MountProps(false, false, false, january, january));
    var s := s0.(focusedDate := Some(Date(january, 31)));
    assert WellBehaved(cal);
    assert cal.addDays(Date(january, 31), 1) == Date(january + 1, 1);
    var k := FinalKeyDownAsWritten(cfg, s, "ArrowLeft", None);
    assert k.monthTransition == PrevTransition && k.nextFocusedDate == Some(Date(january + 1, 1));
    var r := Commit(cfg, k);
    assert r.currentMonth == january - 1 && r.focusedDate == Some(Date(january + 1, 1));
  }

  /**
    The paging scenario: one visible month, January, focus on January 31. ArrowRight
    starts a next transition and holds the focus back; the commit shows February and
    focuses February 1.
  */
  lemma PagingPastTheWindowEdge(cfg: Config, s: PickerState)
    requires Consistent(cfg, s) && cfg.numberOfMonths == 1 && !cfg.isRTL
    requires s.focusedDate.Some? && s.focusedDate.value.monthIndex == s.currentMonth
    requires cfg.cal.addDays(s.focusedDate.value, 1) == StartOfMonth(s.currentMonth + 1)
    ensures FinalKeyDown(cfg, s, "ArrowRight", None).monthTransition == NextTransition
    ensures FinalKeyDown(cfg, s, "ArrowRight", None).focusedDate == None
    ensures Commit(cfg, FinalKeyDown(cfg, s, "ArrowRight", None)).currentMonth == s.currentMonth + 1
    ensures Commit(cfg, FinalKeyDown(cfg, s, "ArrowRight", None)).focusedDate
            == Some(StartOfMonth(s.currentMonth + 1))
  {
    var f := s.focusedDate.value;
    var c := StartOfMonth(s.currentMonth + 1);
    assert MonthOfYear(c) != MonthOfYear(f) by {
      MonthOfYearDecidesNearbyMonths(c, f);
    }
  }

  // ---------------------------------------------------------------------------
  // Smaller handlers

  /** The region's onMouseUp. */
  function MouseUp(s: PickerState): PickerState
  {
    s.(withMouseInteractions := true)
  }

  /** multiplyScrollableMonths: one more screenful of months in the scrollable layout. */
  function MultiplyScrollableMonths(s: PickerState): PickerState
  {
    s.(scrollableMonthMultiple := s.scrollableMonthMultiple + 1,
       notices := s.notices + [ScrollableMonthsMultiplied])
  }

  /** setMonthTitleHeight, followed by calculateAndSetDayPickerHeight. */
  function SetMonthTitleHeight(cfg: Config, s: PickerState, height: int): PickerState
    requires WellFormed(cfg, s)
  {
    s.(monthTitleHeight := Some(height),
       calendarMonthGridHeight :=
         GridHeightFor(cfg, Some(height), s.calendarMonthWeeks, 1, s.calendarMonthGridHeight))
  }

  /** isCalendarMonthGridAnimating. */
  predicate IsAnimating(s: PickerState)
  {
    s.monthTransition != NoTransition
  }

  /** shouldFocusDate: a day takes DOM focus only when no animation runs and the picker has focus. */
  predicate ShouldFocusDate(s: PickerState)
  {
    !IsAnimating(s) && s.isFocused
  }

  /** A started transition keeps the days from taking DOM focus until it is committed. */
  lemma NoDayFocusDuringTransition(cfg: Config, s: PickerState, next: Option<Date>)
    requires WellFormed(cfg, s)
    ensures !ShouldFocusDate(PrevMonthClick(cfg, s, next)) && !ShouldFocusDate(NextMonthClick(cfg, s, next))
    ensures ShouldFocusDate(Commit(cfg, NextMonthClick(cfg, s, next))) == s.isFocused
  {
  }

  /** Jumping to a month or year recomputes the buffer for it and defers focus to it. */
  lemma SelectMonthIsConsistent(cfg: Config, s: PickerState, month: Date, kind: Transition)
    requires kind == MonthSelection || kind == YearSelection
    ensures Consistent(cfg, SelectMonth(cfg, s, month, kind))
    ensures Commit(cfg, SelectMonth(cfg, s, month, kind)).currentMonth == month.monthIndex
    ensures Commit(cfg, SelectMonth(cfg, s, month, kind)).focusedDate == Some(month)
    ensures Consistent(cfg, Commit(cfg, SelectMonth(cfg, s, month, kind)))
  {
  }
}
