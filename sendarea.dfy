/**
 * The full-page send area (src/components/SendArea.tsx): the character limit
 * with its warning, the submit guard, the keyboard handler and the rule that
 * disables the send button. The parent's `inputValue` and the history object
 * are fields here: `onInputChange` assigns the former, and `addToHistory`
 * appends to the list of values handed to the latter.
 */
module SendArea {
  import opened Wrappers
  import opened Strings
  import opened InputRules

  const DefaultMaxChars := 200

  /** `props.maxChars ?? DEFAULT_MAX_CHARS`: an explicit 0 or negative limit stays. */
  function Limit(maxChars: Option<int>): (r: int)
    ensures maxChars.None? ==> r == DefaultMaxChars
    ensures maxChars.Some? ==> r == maxChars.value
  {
    maxChars.GetOr(DefaultMaxChars)
  }

  predicate OverLimit(value: string, maxChars: Option<int>)
  {
    |value| > Limit(maxChars)
  }

  /** The warning shown over the limit: the configured message, or the built-in
    * one naming the limit. */
  function WarningText(maxChars: Option<int>, custom: Option<string>): (r: string)
    ensures r == "" <==> custom == Some("")
    ensures custom.None? ==> Contains(r, IntToString(Limit(maxChars)))
  {
    if custom.Some? then custom.value
    else
      var prefix := "Превышен лимит символов. Пожалуйста, введите менее ";
      var shown := IntToString(Limit(maxChars));
      assert StartsWith(shown, shown);
      ContainsWithin(prefix, shown, " символов.", shown);
      assert |prefix + shown + " символов."| > 0;
      prefix + shown + " символов."
  }

  /** The send button's `isDisabled`. */
  predicate SendDisabled(disabled: bool, sendButtonDisabled: bool, inputValue: string)
  {
    disabled || sendButtonDisabled || inputValue == "" || Trim(inputValue) == ""
  }

  /** The send button is enabled exactly when the area is enabled, the last
    * input was within the limit and the value holds a non-space character. */
  lemma SendEnabledRule(disabled: bool, sendButtonDisabled: bool, inputValue: string)
    ensures !SendDisabled(disabled, sendButtonDisabled, inputValue) <==>
      !disabled && !sendButtonDisabled && exists i :: 0 <= i < |inputValue| && !IsSpace(inputValue[i])
  {
    TrimBlank(inputValue);
  }

  /** `handleKeyDown`: Shift+Enter (key code 13) inserts a line break; the
    * rest is the rule the text input shares. */
  function KeyDownAction(e: KeyEvent, enableInputHistory: bool): (r: KeyAction)
    ensures r == NewLine <==> e.keyCode == 13 && e.shiftKey
    ensures !(e.keyCode == 13 && e.shiftKey) ==> r == EnterOrHistory(e, enableInputHistory)
  {
    if e.keyCode == 13 && e.shiftKey then NewLine else EnterOrHistory(e, enableInputHistory)
  }

  /** A key press submits only for Enter without Shift outside composition,
    * and walks the history only when it is enabled. */
  lemma KeyDownRules(e: KeyEvent, enableInputHistory: bool)
    ensures KeyDownAction(e, enableInputHistory) == SubmitInput <==> SubmitKey(e)
    ensures KeyDownAction(e, enableInputHistory) in {HistoryPrevious, HistoryNext} ==>
      enableInputHistory && e.key in {"ArrowUp", "ArrowDown"}
    ensures e.shiftKey ==> KeyDownAction(e, enableInputHistory) != SubmitInput
  {
    var r := EnterOrHistory(e, enableInputHistory);
    if r in {HistoryPrevious, HistoryNext} {
      assert r == HistoryKey(e, enableInputHistory);
    }
  }

  class Area {
    const disabled: bool
    const maxChars: Option<int>
    const maxCharsWarningMessage: Option<string>
    const enableInputHistory: bool
    /** The textarea's own value. */
    var text: string
    /** The parent's `inputValue`, as last set through `onInputChange`. */
    var inputValue: string
    var warningMessage: string
    var sendButtonDisabled: bool
    /** The values handed to `addToHistory`, oldest first. */
    var recorded: seq<string>

    /** The warning is shown exactly while the send button is held disabled. */
    predicate Valid()
      reads this`warningMessage, this`sendButtonDisabled
    {
      warningMessage == if sendButtonDisabled then WarningText(maxChars, maxCharsWarningMessage) else ""
    }

    constructor(disabled: bool, maxChars: Option<int>, maxCharsWarningMessage: Option<string>,
                enableInputHistory: bool, inputValue: string)
      ensures Valid()
      ensures this.disabled == disabled && this.maxChars == maxChars
      ensures this.maxCharsWarningMessage == maxCharsWarningMessage
      ensures this.enableInputHistory == enableInputHistory
      ensures text == inputValue && this.inputValue == inputValue
      ensures warningMessage == "" && !sendButtonDisabled && recorded == []
    {
      this.disabled := disabled;
      this.maxChars := maxChars;
      this.maxCharsWarningMessage := maxCharsWarningMessage;
      this.enableInputHistory := enableInputHistory;
      text := inputValue;
      this.inputValue := inputValue;
      warningMessage := "";
      sendButtonDisabled := false;
      recorded := [];
    }

    /** `handleInput`: a value over the limit shows the warning and holds the
      * button disabled without reaching the parent; one within the limit is
      * forwarded and clears both. */
    method HandleInput(value: string)
      requires Valid()
      modifies this`text, this`inputValue, this`warningMessage, this`sendButtonDisabled
      ensures Valid()
      ensures text == value
      ensures sendButtonDisabled <==> OverLimit(value, maxChars)
      ensures inputValue == if OverLimit(value, maxChars) then old(inputValue) else value
    {
      text := value;
      if |value| > Limit(maxChars) {
        warningMessage := WarningText(maxChars, maxCharsWarningMessage);
        sendButtonDisabled := true;
        return;
      }
      inputValue := value;
      warningMessage := "";
      sendButtonDisabled := false;
    }

    /** `submit()`, with the textarea's `reportValidity()` as `valid`: nothing
      * happens while a warning shows; otherwise the parent's value is
      * recorded in the history (when enabled) and then submitted. */
    method Submit(valid: bool) returns (sent: Option<string>)
      modifies this`recorded
      ensures sent.Some? <==> warningMessage == "" && valid
      ensures sent.Some? ==> sent.value == inputValue
      ensures recorded == if sent.Some? && enableInputHistory then old(recorded) + [inputValue] else old(recorded)
    {
      if warningMessage == "" && valid {
        if enableInputHistory {
          recorded := recorded + [inputValue];
        }
        return Some(inputValue);
      }
      return None;
    }

    /** `handleKeyDown`, with the history's answers to `getPreviousInput` and
      * `getNextInput` as `previous` and `next`. */
    method KeyDown(e: KeyEvent, previous: string, next: string, valid: bool) returns (sent: Option<string>)
      requires Valid()
      modifies this`text, this`inputValue, this`warningMessage, this`sendButtonDisabled, this`recorded
      ensures Valid()
      ensures sent.Some? ==> SubmitKey(e) && !e.shiftKey && sent.value == inputValue
      ensures KeyDownAction(e, enableInputHistory) == NewLine ==>
        sent.None? && text == old(text) + "\n" && recorded == old(recorded) &&
        (sendButtonDisabled <==> OverLimit(old(text) + "\n", maxChars)) &&
        inputValue == (if OverLimit(old(text) + "\n", maxChars) then old(inputValue) else old(text) + "\n")
      ensures KeyDownAction(e, enableInputHistory) == SubmitInput ==>
        (sent.Some? <==> old(warningMessage) == "" && valid) &&
        text == old(text) && inputValue == old(inputValue) && warningMessage == old(warningMessage) &&
        recorded == (if sent.Some? && enableInputHistory then old(recorded) + [inputValue] else old(recorded))
      ensures KeyDownAction(e, enableInputHistory) in {HistoryPrevious, HistoryNext} ==>
        sent.None? && recorded == old(recorded) &&
        warningMessage == old(warningMessage) && sendButtonDisabled == old(sendButtonDisabled) &&
        inputValue == text == (if KeyDownAction(e, enableInputHistory) == HistoryPrevious then previous else next)
      ensures KeyDownAction(e, enableInputHistory) == Ignore ==>
        sent.None? && text == old(text) && inputValue == old(inputValue) && recorded == old(recorded) &&
        warningMessage == old(warningMessage) && sendButtonDisabled == old(sendButtonDisabled)
    {
      sent := None;
      match KeyDownAction(e, enableInputHistory) {
        case NewLine =>
          HandleInput(text + "\n");
        case SubmitInput =>
          sent := Submit(valid);
        case HistoryPrevious =>
          inputValue := previous;
          text := previous;
        case HistoryNext =>
          inputValue := next;
          text := next;
        case Ignore =>
      }
    }

    /** The send button's state. */
    predicate SendButtonDisabled()
      reads this`inputValue, this`sendButtonDisabled
    {
      SendDisabled(disabled, sendButtonDisabled, inputValue)
    }
  }

  /** While the button is held disabled by the limit, submitting by keyboard is
    * blocked too, unless the configured warning is the empty string. */
  lemma HeldDisabledBlocksSubmit(a: Area)
    requires a.Valid() && a.sendButtonDisabled && a.maxCharsWarningMessage != Some("")
    ensures a.warningMessage != ""
  {
  }
}
