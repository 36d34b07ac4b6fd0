/**
 * The popup's text input (src/components/inputs/textInput/components/TextInput.tsx):
 * the same handlers as the send area, but the character limit applies only
 * when one is configured, its built-in warning is in English, there is no
 * Shift+Enter line break, and the send button's `active` flag follows the
 * value alone.
 */
module TextInput {
  import opened Wrappers
  import opened Strings
  import opened InputRules
  import SendArea

  /** `props.maxChars && wordCount > props.maxChars`: no limit when it is
    * missing or zero. */
  predicate OverLimit(value: string, maxChars: Option<int>)
  {
    maxChars.Some? && maxChars.value != 0 && |value| > maxChars.value
  }

  /** With a configured non-zero limit both components reject the same
    * values; without one the text input takes any length while the send area
    * stops at 200. */
  lemma LimitsAgree(value: string, maxChars: Option<int>)
    ensures maxChars.Some? && maxChars.value != 0 ==>
      (OverLimit(value, maxChars) <==> SendArea.OverLimit(value, maxChars))
    ensures maxChars.None? ==> !OverLimit(value, maxChars)
    ensures maxChars.None? ==> (SendArea.OverLimit(value, maxChars) <==> |value| > SendArea.DefaultMaxChars)
    ensures maxChars == Some(0) ==> !OverLimit(value, maxChars) && (SendArea.OverLimit(value, maxChars) <==> value != "")
  {
  }

  /** The warning shown over the limit. */
  function WarningText(maxChars: int, custom: Option<string>): (r: string)
    ensures r == "" <==> custom == Some("")
    ensures custom.None? ==> Contains(r, IntToString(maxChars))
  {
    if custom.Some? then custom.value
    else
      var prefix := "You exceeded the characters limit. Please input less than ";
      var shown := IntToString(maxChars);
      assert StartsWith(shown, shown);
      ContainsWithin(prefix, shown, " characters.", shown);
      assert |prefix + shown + " characters."| > 0;
      prefix + shown + " characters."
  }

  /** `handleKeyDown`: the shared Enter and history rule, with no line-break key. */
  function KeyDownAction(e: KeyEvent, enableInputHistory: bool): (r: KeyAction)
    ensures r != NewLine
    ensures r == SubmitInput <==> SubmitKey(e)
  {
    EnterOrHistory(e, enableInputHistory)
  }

  /** Both handlers read a key press alike, except that the send area turns
    * Shift+Enter with key code 13 into a line break. */
  lemma KeyDownAgrees(e: KeyEvent, enableInputHistory: bool)
    ensures !(e.keyCode == 13 && e.shiftKey) ==>
      KeyDownAction(e, enableInputHistory) == SendArea.KeyDownAction(e, enableInputHistory)
    ensures e.keyCode == 13 && e.shiftKey ==>
      SendArea.KeyDownAction(e, enableInputHistory) == NewLine &&
      KeyDownAction(e, enableInputHistory) != SubmitInput
  {
  }

  class Field {
    const disabled: bool
    const maxChars: Option<int>
    const maxCharsWarningMessage: Option<string>
    const enableInputHistory: bool
    /** The parent's `inputValue`, as last set through `onInputChange`. */
    var inputValue: string
    var warningMessage: string
    var sendButtonDisabled: bool
    /** The values handed to `addToHistory`, oldest first. */
    var recorded: seq<string>

    /** The warning is shown exactly while the send button is held disabled
      * (a limit is then configured). */
    predicate Valid()
      reads this`warningMessage, this`sendButtonDisabled
    {
      && (sendButtonDisabled ==> maxChars.Some? && maxChars.value != 0)
      && warningMessage == if sendButtonDisabled then WarningText(maxChars.value, maxCharsWarningMessage) else ""
    }

    constructor(disabled: bool, maxChars: Option<int>, maxCharsWarningMessage: Option<string>,
                enableInputHistory: bool, inputValue: string)
      ensures Valid()
      ensures this.disabled == disabled && this.maxChars == maxChars
      ensures this.maxCharsWarningMessage == maxCharsWarningMessage
      ensures this.enableInputHistory == enableInputHistory
      ensures this.inputValue == inputValue
      ensures warningMessage == "" && !sendButtonDisabled && recorded == []
    {
      this.disabled := disabled;
      this.maxChars := maxChars;
      this.maxCharsWarningMessage := maxCharsWarningMessage;
      this.enableInputHistory := enableInputHistory;
      this.inputValue := inputValue;
      warningMessage := "";
      sendButtonDisabled := false;
      recorded := [];
    }

    /** `handleInput`: over a configured limit the warning shows and the
      * value is not forwarded; otherwise it is forwarded and both clear. */
    method HandleInput(value: string)
      requires Valid()
      modifies this`inputValue, this`warningMessage, this`sendButtonDisabled
      ensures Valid()
      ensures sendButtonDisabled <==> OverLimit(value, maxChars)
      ensures inputValue == if OverLimit(value, maxChars) then old(inputValue) else value
    {
      if maxChars.Some? && maxChars.value != 0 && |value| > maxChars.value {
        warningMessage := WarningText(maxChars.value, maxCharsWarningMessage);
        sendButtonDisabled := true;
        return;
      }
      inputValue := value;
      warningMessage := "";
      sendButtonDisabled := false;
    }

    /** `submit()`, with the input's `reportValidity()` as `valid`. */
    method Submit(valid: bool) returns (sent: Option<string>)
      modifies this`recorded
      ensures sent.Some? <==> warningMessage == "" && valid
      ensures sent.Some? ==> sent.value == inputValue
      ensures recorded == if sent.Some? && enableInputHistory then old(recorded) + [inputValue] else old(recorded)
    {
      if warningMessage == "" && valid {
        if enableInputHistory {
          recorded := recorded + [inputValue];
        }
        return Some(inputValue);
      }
      return None;
    }

    /** `handleKeyDown`, with the history's answers as `previous` and `next`. */
    method KeyDown(e: KeyEvent, previous: string, next: string, valid: bool) returns (sent: Option<string>)
      requires Valid()
      modifies this`inputValue, this`recorded
      ensures Valid()
      ensures sent.Some? ==> SubmitKey(e) && sent.value == inputValue
      ensures KeyDownAction(e, enableInputHistory) == SubmitInput ==>
        (sent.Some? <==> warningMessage == "" && valid) && inputValue == old(inputValue) &&
        recorded == (if sent.Some? && enableInputHistory then old(recorded) + [inputValue] else old(recorded))
      ensures KeyDownAction(e, enableInputHistory) == HistoryPrevious ==>
        sent.None? && inputValue == previous && recorded == old(recorded)
      ensures KeyDownAction(e, enableInputHistory) == HistoryNext ==>
        sent.None? && inputValue == next && recorded == old(recorded)
      ensures KeyDownAction(e, enableInputHistory) == Ignore ==>
        sent.None? && inputValue == old(inputValue) && recorded == old(recorded)
    {
      sent := None;
      match KeyDownAction(e, enableInputHistory) {
        case SubmitInput =>
          sent := Submit(valid);
        case HistoryPrevious =>
          inputValue := previous;
        case HistoryNext =>
          inputValue := next;
        case Ignore =>
      }
    }

    /** The send button's `isDisabled`. */
    predicate SendButtonDisabled()
      reads this`sendButtonDisabled
    {
      disabled || sendButtonDisabled
    }

    /** The send button's `active` flag. */
    predicate SendButtonActive()
      reads this`inputValue
    {
      |inputValue| > 0
    }
  }
}
