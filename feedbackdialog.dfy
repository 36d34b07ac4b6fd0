/**
 * The thumbs-down comment dialog (src/components/FeedbackContentDialog.tsx):
 * the offered reasons, the length-limited comment, word counting, when submit
 * is enabled and the text it submits.
 */
module FeedbackDialog {
  import opened Wrappers
  import opened Strings

  const OtherReason := "Другое"

  const DefaultReasons: seq<string> := [
    "Ответа на мой вопрос нет",
    "Ответ неполный",
    "Текст ответа непонятен",
    "Не согласен с ответом",
    "Ссылки не работают"
  ]

  const MaxTextLength := 500

  /** `reasons()`: the custom list (any array, even an empty one) or the
    * defaults, followed by the catch-all reason. */
  function Reasons(custom: Option<seq<string>>): (r: seq<string>)
    ensures |r| >= 1 && r[|r| - 1] == OtherReason
    ensures r[..|r| - 1] == if custom.Some? then custom.value else DefaultReasons
  {
    (if custom.Some? then custom.value else DefaultReasons) + [OtherReason]
  }

  // ---- countWords ----

  /** `.split(/\s+/)` seen piece by piece: cutting at every white-space
    * character; the empty pieces this adds between consecutive white space
    * are the ones the filter drops anyway. */
  function Pieces(s: string): (r: seq<string>)
    ensures |r| >= 1
    ensures r[0] == "" <==> |s| == 0 || IsSpace(s[0])
    decreases |s|
  {
    if |s| == 0 then [""]
    else
      var rest := Pieces(s[1..]);
      if IsSpace(s[0]) then [""] + rest else [[s[0]] + rest[0]] + rest[1..]
  }

  function NonEmpty(pieces: seq<string>): (r: seq<string>)
    ensures forall i :: 0 <= i < |r| ==> r[i] != ""
    decreases |pieces|
  {
    if |pieces| == 0 then []
    else (if pieces[0] == "" then [] else [pieces[0]]) + NonEmpty(pieces[1..])
  }

  /** `countWords(text)`. */
  function CountWords(text: string): nat
  {
    |NonEmpty(Pieces(Trim(text)))|
  }

  /** Column `i` ends a word: it is not white space and the next one is, or it is last. */
  predicate WordEnd(s: string, i: int)
    requires 0 <= i < |s|
  {
    !IsSpace(s[i]) && (i + 1 == |s| || IsSpace(s[i + 1]))
  }

  /** The number of word ends, the reference count of words. */
  function WordEnds(s: string): nat
    decreases |s|
  {
    if |s| == 0 then 0 else (if WordEnd(s, 0) then 1 else 0) + WordEnds(s[1..])
  }

  /** Splitting and dropping empty pieces leaves one word per word end. */
  lemma {:induction false} PiecesCount(s: string)
    ensures |NonEmpty(Pieces(s))| == WordEnds(s)
    decreases |s|
  {
    if |s| > 0 {
      PiecesCount(s[1..]);
      var rest := Pieces(s[1..]);
      if !IsSpace(s[0]) {
        var p := [[s[0]] + rest[0]] + rest[1..];
        assert p[1..] == rest[1..];
        assert rest == [rest[0]] + rest[1..];
        assert NonEmpty(rest) == (if rest[0] == "" then [] else [rest[0]]) + NonEmpty(rest[1..]);
        if |s| > 1 {
          assert s[1..][0] == s[1];
        }
      } else {
        assert ([""] + rest)[1..] == rest;
      }
    }
  }

  /** Some column holds a word character. */
  ghost predicate HasWord(s: string)
  {
    exists i :: 0 <= i < |s| && !IsSpace(s[i])
  }

  /** Columns `i` and `j` hold word characters and column `k` between them white space. */
  predicate Gap(s: string, i: int, k: int, j: int)
  {
    0 <= i < k < j < |s| && !IsSpace(s[i]) && IsSpace(s[k]) && !IsSpace(s[j])
  }

  /** Two word characters with white space between them. */
  ghost predicate HasTwoWords(s: string)
  {
    exists i, k, j :: Gap(s, i, k, j)
  }

  /** A gap in the tail is a gap one column further on in the whole. */
  lemma GapShift(s: string, i: int, k: int, j: int)
    requires |s| > 0 && 0 <= i
    ensures Gap(s[1..], i, k, j) <==> Gap(s, i + 1, k + 1, j + 1)
  {
    if 0 <= i < k < j < |s| - 1 {
      assert s[1..][i] == s[i + 1] && s[1..][k] == s[k + 1] && s[1..][j] == s[j + 1];
    }
  }

  /** Two words in the tail are two words in the whole; white space in front
    * adds none. */
  lemma TwoWordsTail(s: string)
    requires |s| > 0
    ensures HasTwoWords(s[1..]) ==> HasTwoWords(s)
    ensures IsSpace(s[0]) && HasTwoWords(s) ==> HasTwoWords(s[1..])
  {
    if HasTwoWords(s[1..]) {
      var i, k, j :| Gap(s[1..], i, k, j);
      GapShift(s, i, k, j);
    }
    if IsSpace(s[0]) && HasTwoWords(s) {
      var i, k, j :| Gap(s, i, k, j);
      GapShift(s, i - 1, k - 1, j - 1);
    }
  }

  /** A word that ends at column 0 is followed by a second one exactly when
    * the tail holds a word character. */
  lemma TwoWordsAfterEnd(s: string)
    requires |s| > 0 && WordEnd(s, 0)
    ensures HasTwoWords(s) <==> HasWord(s[1..])
  {
    if HasWord(s[1..]) {
      var j :| 0 <= j < |s[1..]| && !IsSpace(s[1..][j]);
      assert s[1..][0] == s[1] && s[j + 1] == s[1..][j];
      assert Gap(s, 0, 1, j + 1);
    }
    if HasTwoWords(s) {
      var i, k, j :| Gap(s, i, k, j);
      assert s[1..][j - 1] == s[j];
    }
  }

  /** A word running on past column 0 has a second word after it exactly when
    * the tail has two. */
  lemma TwoWordsRunOn(s: string)
    requires |s| > 1 && !IsSpace(s[0]) && !IsSpace(s[1])
    ensures HasTwoWords(s) <==> HasTwoWords(s[1..])
  {
    TwoWordsTail(s);
    if HasTwoWords(s) {
      var i, k, j :| Gap(s, i, k, j);
      if i == 0 {
        assert Gap(s, 1, k, j);
        GapShift(s, 0, k - 1, j - 1);
      } else {
        GapShift(s, i - 1, k - 1, j - 1);
      }
    }
  }

  lemma {:induction false} OneWord(s: string)
    ensures WordEnds(s) >= 1 <==> HasWord(s)
    decreases |s|
  {
    if |s| > 0 {
      OneWord(s[1..]);
      if HasWord(s[1..]) {
        var i :| 0 <= i < |s[1..]| && !IsSpace(s[1..][i]);
        assert s[i + 1] == s[1..][i];
      }
      if HasWord(s) && !IsSpace(s[0]) && !WordEnd(s, 0) {
        assert s[1..][0] == s[1];
      }
      if HasWord(s) && IsSpace(s[0]) {
        var i :| 0 <= i < |s| && !IsSpace(s[i]);
        assert s[1..][i - 1] == s[i];
      }
    }
  }

  /** At least two words exactly when two word characters are separated by white space. */
  lemma {:induction false} TwoWords(s: string)
    ensures WordEnds(s) >= 2 <==> HasTwoWords(s)
    decreases |s|
  {
    if |s| > 0 {
      TwoWords(s[1..]);
      TwoWordsTail(s);
      if WordEnd(s, 0) {
        OneWord(s[1..]);
        TwoWordsAfterEnd(s);
      } else if !IsSpace(s[0]) {
        assert s[1..][0] == s[1];
        TwoWordsRunOn(s);
      }
    }
  }

  /** Trimming never adds or removes a pair of words. */
  lemma TrimKeepsTwoWords(s: string)
    ensures HasTwoWords(Trim(s)) <==> HasTwoWords(s)
  {
    var a := TrimStart(s);
    var r := TrimEnd(a);
    var off := |s| - |a|;
    assert a == s[off..];
    assert r == a[..|r|];
    if HasTwoWords(s) {
      var i, k, j :| Gap(s, i, k, j);
      assert off <= i;
      assert j - off < |r|;
      assert r[i - off] == s[i] && r[k - off] == s[k] && r[j - off] == s[j];
      assert Gap(r, i - off, k - off, j - off);
    }
    if HasTwoWords(r) {
      var i, k, j :| Gap(r, i, k, j);
      assert s[off + i] == r[i] && s[off + k] == r[k] && s[off + j] == r[j];
      assert Gap(s, off + i, off + k, off + j);
    }
  }

  /** `countWords` counts at least two words exactly when the text holds two
    * word characters with white space between them. */
  lemma CountWordsTwo(text: string)
    ensures CountWords(text) >= 2 <==> HasTwoWords(text)
  {
    PiecesCount(Trim(text));
    TwoWords(Trim(text));
    TrimKeepsTwoWords(text);
  }

  // ---- isSubmitDisabled and submit ----

  /** `isSubmitDisabled()`. */
  predicate SubmitDisabled(reason: string, input: string)
  {
    reason == "" || (reason == OtherReason && (Trim(input) == "" || CountWords(Trim(input)) < 2))
  }

  /** Submit is enabled exactly when a reason is chosen and, for the catch-all
    * reason, the comment has two words. */
  lemma SubmitRule(reason: string, input: string)
    ensures !SubmitDisabled(reason, input) <==>
      reason != "" && (reason == OtherReason ==> HasTwoWords(input))
  {
    CountWordsTwo(Trim(input));
    TrimKeepsTwoWords(input);
  }

  /** The text `submit` hands on. */
  function FinalText(reason: string, input: string): string
  {
    var comment := Trim(input);
    if comment != "" then reason + ": " + comment else reason
  }

  /** A submission under the catch-all reason always carries its comment,
    * trimmed, and a submission with an empty comment is the bare reason. */
  lemma FinalTextComment(reason: string, input: string)
    ensures !SubmitDisabled(reason, input) && reason == OtherReason ==>
      Trim(input) != "" && FinalText(reason, input) == OtherReason + ": " + Trim(input)
    ensures Trim(input) == "" ==> FinalText(reason, input) == reason
    ensures |FinalText(reason, input)| == if Trim(input) == "" then |reason| else |reason| + 2 + |Trim(input)|
  {
  }

  /** The dialog's two signals. */
  class Dialog {
    var inputValue: string
    var selectedReason: string

    /** The comment never exceeds the limit. */
    predicate Valid()
      reads this`inputValue
    {
      |inputValue| <= MaxTextLength
    }

    constructor()
      ensures Valid() && inputValue == "" && selectedReason == ""
    {
      inputValue := "";
      selectedReason := "";
    }

    /** `handleInput(value)`: a value over the limit is ignored; an accepted
      * one replaces the comment, and asks to clear a shown error (the result). */
    method HandleInput(value: string, errorMessage: Option<string>, canClear: bool) returns (clearError: bool)
      requires Valid()
      modifies this`inputValue
      ensures Valid()
      ensures inputValue == if |value| <= MaxTextLength then value else old(inputValue)
      ensures clearError <==> |value| <= MaxTextLength && errorMessage.Some? && errorMessage.value != "" && canClear
    {
      clearError := false;
      if |value| <= MaxTextLength {
        inputValue := value;
        if errorMessage.Some? && errorMessage.value != "" && canClear {
          clearError := true;
        }
      }
    }

    /** `handleReasonChange(reason)`. */
    method HandleReasonChange(reason: string, errorMessage: Option<string>, canClear: bool) returns (clearError: bool)
      modifies this`selectedReason
      ensures selectedReason == reason
      ensures clearError <==> errorMessage.Some? && errorMessage.value != "" && canClear
    {
      selectedReason := reason;
      clearError := errorMessage.Some? && errorMessage.value != "" && canClear;
    }

    /** `submit()`: the final text and the reason, or nothing while disabled. */
    method Submit() returns (sent: Option<(string, string)>)
      ensures sent.Some? <==> !SubmitDisabled(selectedReason, inputValue)
      ensures sent.Some? ==> sent.value == (FinalText(selectedReason, inputValue), selectedReason)
    {
      if SubmitDisabled(selectedReason, inputValue) {
        return None;
      }
      var reason := selectedReason;
      var comment := Trim(inputValue);
      var finalText := reason;
      if comment != "" {
        finalText := reason + ": " + comment;
      }
      return Some((finalText, reason));
    }

    /** `onClose()`: both signals are reset. */
    method Close()
      modifies this`inputValue, this`selectedReason
      ensures Valid() && inputValue == "" && selectedReason == ""
    {
      inputValue := "";
      selectedReason := "";
    }
  }
}
