/**
  The text field of the date pickers (DateInput): what typing does to its text, how
  keys are handed to the parent, which text it shows, and when it is read-only or takes
  DOM focus. The callbacks it calls on its parent are recorded as `InputNotice` values.
*/
module DateInputComponent {
  import opened Wrappers
  import opened Keys
  import opened RateLimit

  /** The throttle interval of the field's keydown handler, in milliseconds. */
  const KeyDownWait: int := 300

  /** The props the model reads. `readOnly` is null (None) unless the parent sets it. */
  datatype InputProps = InputProps(displayValue: string, focused: bool, isFocused: bool, readOnly: Option<bool>)

  /** A callback on the parent. */
  datatype InputNotice =
    | Changed(text: string)   // onChange(dateString)
    | ShiftTabPressed         // onKeyDownShiftTab
    | TabPressed              // onKeyDownTab
    | ArrowDownPressed        // onKeyDownArrowDown
    | QuestionMarkPressed     // onKeyDownQuestionMark

  predicate EndsWithQuestionMark(text: string)
  {
    |text| > 0 && text[|text| - 1] == '?'
  }

  /** The field's text and the callbacks fired, after an event. */
  datatype ChangeOutcome = ChangeOutcome(dateString: string, notices: seq<InputNotice>)

  /**
    onChange with new text `text`: a text ending in '?' (Safari may deliver the '?'
    keystroke as a change) calls onKeyDownQuestionMark and leaves the stored text alone;
    any other text is stored and passed to onChange.
  */
  function ChangeStep(dateString: string, text: string): (r: ChangeOutcome)
    ensures |r.notices| == 1
    ensures r.notices == [QuestionMarkPressed] <==> EndsWithQuestionMark(text)
    ensures EndsWithQuestionMark(text) ==> r.dateString == dateString
    ensures !EndsWithQuestionMark(text) ==> r.dateString == text && r.notices == [Changed(text)]
  {
    if EndsWithQuestionMark(text) then ChangeOutcome(dateString, [QuestionMarkPressed])
    else ChangeOutcome(text, [Changed(text)])
  }

  /** A series of change events, oldest first. */
  function ChangeAll(dateString: string, texts: seq<string>): ChangeOutcome
    decreases |texts|
  {
    if texts == [] then ChangeOutcome(dateString, [])
    else
      var first := ChangeStep(dateString, texts[0]);
      var rest := ChangeAll(first.dateString, texts[1..]);
      ChangeOutcome(rest.dateString, first.notices + rest.notices)
  }

  /**
    Over any series of change events the stored text never comes to end in '?', each
    event fires exactly one callback, and that callback is onKeyDownQuestionMark for the
    texts ending in '?' and onChange with the text itself for all others.
  */
  lemma {:induction false} ChangesNeverStoreQuestionMark(dateString: string, texts: seq<string>)
    requires !EndsWithQuestionMark(dateString)
    ensures !EndsWithQuestionMark(ChangeAll(dateString, texts).dateString)
    ensures |ChangeAll(dateString, texts).notices| == |texts|
    ensures forall i :: 0 <= i < |texts| ==>
      ChangeAll(dateString, texts).notices[i]
      == (if EndsWithQuestionMark(texts[i]) then QuestionMarkPressed else Changed(texts[i]))
    decreases |texts|
  {
    if texts != [] {
      var first := ChangeStep(dateString, texts[0]);
      ChangesNeverStoreQuestionMark(first.dateString, texts[1..]);
      var rest := ChangeAll(first.dateString, texts[1..]);
      forall i | 1 <= i < |texts|
        ensures ChangeAll(dateString, texts).notices[i] == rest.notices[i - 1]
      {
      }
    }
  }

  /** The last text not ending in '?' is what the field holds after a series of change events. */
  lemma {:induction false} LastPlainTextIsStored(dateString: string, texts: seq<string>, k: nat)
    requires k < |texts| && !EndsWithQuestionMark(texts[k])
    requires forall i :: k < i < |texts| ==> EndsWithQuestionMark(texts[i])
    ensures ChangeAll(dateString, texts).dateString == texts[k]
    decreases |texts|
  {
    var first := ChangeStep(dateString, texts[0]);
    if k == 0 {
      AllQuestionMarksKeepText(first.dateString, texts[1..]);
    } else {
      LastPlainTextIsStored(first.dateString, texts[1..], k - 1);
    }
  }

  /** Change events whose texts all end in '?' leave the stored text as it was. */
  lemma {:induction false} AllQuestionMarksKeepText(dateString: string, texts: seq<string>)
    requires forall i :: 0 <= i < |texts| ==> EndsWithQuestionMark(texts[i])
    ensures ChangeAll(dateString, texts).dateString == dateString
    decreases |texts|
  {
    if texts != [] {
      AllQuestionMarksKeepText(dateString, texts[1..]);
    }
  }

  /** The response of onFinalKeyDown. */
  datatype KeyOutcome = KeyOutcome(preventsDefault: bool, notices: seq<InputNotice>)

  /** onFinalKeyDown: Tab (with or without Shift), ArrowDown and '?' go to the parent. */
  function FinalKeyDownOutcome(key: string, shiftKey: bool): (r: KeyOutcome)
    ensures |r.notices| <= 1
    ensures r.preventsDefault <==> key == "?"
    ensures r.notices == [] <==> key != "Tab" && key != "ArrowDown" && key != "?"
    ensures key == "Tab" ==> r.notices == [if shiftKey then ShiftTabPressed else TabPressed]
    ensures key == "ArrowDown" ==> r.notices == [ArrowDownPressed]
    ensures key == "?" ==> r.notices == [QuestionMarkPressed]
  {
    if key == "Tab" then KeyOutcome(false, [if shiftKey then ShiftTabPressed else TabPressed])
    else if key == "ArrowDown" then KeyOutcome(false, [ArrowDownPressed])
    else if key == "?" then KeyOutcome(true, [QuestionMarkPressed])
    else KeyOutcome(false, [])
  }

  /** The '?' reaches the parent the same way whether it arrives as a keydown or as a change. */
  lemma QuestionMarkEitherWay(dateString: string, text: string, shiftKey: bool)
    ensures FinalKeyDownOutcome("?", shiftKey).notices == ChangeStep(dateString, text + "?").notices
    ensures ChangeStep(dateString, text + "?").dateString == dateString
  {
    assert EndsWithQuestionMark(text + "?");
  }

  /**
    componentWillReceiveProps: typed text is dropped once the parent displays a value,
    and kept otherwise.
  */
  function ClearedDateString(dateString: string, displayValue: string): (r: string)
    ensures r == dateString || r == ""
    ensures r != dateString <==> dateString != "" && displayValue != ""
  {
    if dateString != "" && displayValue != "" then "" else dateString
  }

  /** The text shown: `displayValue || dateString || ''`. */
  function DisplayedValue(displayValue: string, dateString: string): (v: string)
    ensures v == "" <==> displayValue == "" && dateString == ""
    ensures displayValue != "" ==> v == displayValue
    ensures displayValue == "" ==> v == dateString
  {
    if displayValue != "" then displayValue else dateString
  }

  /**
    Once new props carrying a display value arrive, the field shows that value and holds
    no typed text; with no display value it keeps showing what was typed.
  */
  lemma ReceivedDisplayValueWins(dateString: string, next: InputProps)
    ensures next.displayValue != "" ==>
      ClearedDateString(dateString, next.displayValue) == ""
      && DisplayedValue(next.displayValue, ClearedDateString(dateString, next.displayValue)) == next.displayValue
    ensures next.displayValue == "" ==>
      DisplayedValue(next.displayValue, ClearedDateString(dateString, next.displayValue)) == dateString
  {
  }

  /** The input's readOnly attribute: the prop when it is a boolean, else whether the device is touch. */
  function ReadOnlyAttribute(readOnly: Option<bool>, isTouchDevice: bool): (r: bool)
    ensures readOnly.Some? ==> r == readOnly.value
    ensures readOnly.None? ==> r == isTouchDevice
  {
    if readOnly.Some? then readOnly.value else isTouchDevice
  }

  /** componentDidUpdate: focus the input when `focused` or `isFocused` changed and both now hold. */
  function ShouldFocusInput(prev: InputProps, next: InputProps): (r: bool)
    ensures r ==> next.focused && next.isFocused
    ensures r ==> prev.focused != next.focused || prev.isFocused != next.isFocused
    ensures next.focused && next.isFocused && !(prev.focused && prev.isFocused) ==> r
  {
    (prev.focused != next.focused || prev.isFocused != next.isFocused) && next.focused && next.isFocused
  }

  /** Focus is requested at most once for a stretch of updates that keep both flags set. */
  lemma FocusRequestedOnce(a: InputProps, b: InputProps, c: InputProps)
    requires b.focused && b.isFocused && c.focused == b.focused && c.isFocused == b.isFocused
    ensures !ShouldFocusInput(b, c)
    ensures !(a.focused && a.isFocused) ==> ShouldFocusInput(a, b)
  {
  }

  class DateInput {
    const throttledKeyDown: Throttle
    var dateString: string
    var isTouchDevice: bool
    var props: InputProps
    /** The callbacks fired so far, oldest first. */
    var notices: seq<InputNotice>

    /** The stored text never ends in '?' (the change handler diverts that keystroke). */
    ghost predicate Valid()
      reads this
    {
      throttledKeyDown.wait == KeyDownWait && !EndsWithQuestionMark(dateString)
    }

    constructor(props: InputProps)
      ensures Valid()
      ensures dateString == "" && !isTouchDevice && this.props == props && notices == []
      ensures fresh(throttledKeyDown) && throttledKeyDown.lastFired == None
    {
      dateString := "";
      isTouchDevice := false;
      this.props := props;
      notices := [];
      throttledKeyDown := new Throttle(KeyDownWait);
    }

    /** componentDidMount: record whether the device is a touch device. */
    method ComponentDidMount(touch: bool)
      requires Valid()
      modifies this
      ensures Valid()
      ensures isTouchDevice == touch
      ensures dateString == old(dateString) && props == old(props) && notices == old(notices)
    {
      isTouchDevice := touch;
    }

    /** onChange. */
    method OnChange(text: string)
      requires Valid()
      modifies this
      ensures Valid()
      ensures dateString == ChangeStep(old(dateString), text).dateString
      ensures notices == old(notices) + ChangeStep(old(dateString), text).notices
      ensures props == old(props) && isTouchDevice == old(isTouchDevice)
    {
      if |text| > 0 && text[|text| - 1] == '?' {
        notices := notices + [QuestionMarkPressed];
      } else {
        dateString := text;
        notices := notices + [Changed(text)];
      }
    }

    /** onKeyDown: always stops propagation; non-modifier keys go through the 300 ms throttle. */
    method OnKeyDown(key: string, shiftKey: bool, now: int) returns (stopsPropagation: bool, preventsDefault: bool)
      requires Valid()
      modifies this, throttledKeyDown
      ensures Valid() && stopsPropagation
      ensures
        var fires := !IsModifierKey(key) && ShouldFire(KeyDownWait, old(throttledKeyDown.lastFired), now);
        && notices == old(notices) + (if fires then FinalKeyDownOutcome(key, shiftKey).notices else [])
        && preventsDefault == (fires && FinalKeyDownOutcome(key, shiftKey).preventsDefault)
        && throttledKeyDown.lastFired
           == (if IsModifierKey(key) then old(throttledKeyDown.lastFired)
               else AfterCall(KeyDownWait, old(throttledKeyDown.lastFired), now))
      ensures dateString == old(dateString) && props == old(props) && isTouchDevice == old(isTouchDevice)
    {
      stopsPropagation := true;
      preventsDefault := false;
      if !IsModifierKey(key) {
        var fire := throttledKeyDown.Call(now);
        if fire {
          preventsDefault := OnFinalKeyDown(key, shiftKey);
        }
      }
    }

    /** onFinalKeyDown. */
    method OnFinalKeyDown(key: string, shiftKey: bool) returns (preventsDefault: bool)
      modifies this`notices
      ensures notices == old(notices) + FinalKeyDownOutcome(key, shiftKey).notices
      ensures preventsDefault == FinalKeyDownOutcome(key, shiftKey).preventsDefault
    {
      preventsDefault := false;
      if key == "Tab" {
        if shiftKey {
          notices := notices + [ShiftTabPressed];
        } else {
          notices := notices + [TabPressed];
        }
      } else if key == "ArrowDown" {
        notices := notices + [ArrowDownPressed];
      } else if key == "?" {
        preventsDefault := true;
        notices := notices + [QuestionMarkPressed];
      }
    }

    /** componentWillReceiveProps, then componentDidUpdate's decision whether to focus the input. */
    method ReceiveProps(next: InputProps) returns (focusInput: bool)
      requires Valid()
      modifies this
      ensures Valid()
      ensures dateString == ClearedDateString(old(dateString), next.displayValue)
      ensures props == next
      ensures focusInput == ShouldFocusInput(old(props), next)
      ensures notices == old(notices) && isTouchDevice == old(isTouchDevice)
    {
      if dateString != "" && next.displayValue != "" {
        dateString := "";
      }
      var prev := props;
      props := next;
      focusInput := (prev.focused != next.focused || prev.isFocused != next.isFocused)
                    && next.focused && next.isFocused;
    }

    /** The input's value. */
    function Value(): string
      reads this
    {
      DisplayedValue(props.displayValue, dateString)
    }

    /** The input's readOnly attribute. */
    function IsReadOnly(): bool
      reads this
    {
      ReadOnlyAttribute(props.readOnly, isTouchDevice)
    }
  }
}
