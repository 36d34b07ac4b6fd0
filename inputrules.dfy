/**
 * The `accept` string the send area and the text input give their file
 * pickers (`getFileType`, src/components/SendArea.tsx and
 * src/components/inputs/textInput/components/TextInput.tsx, which share the
 * rule word for word), and the keyboard event both handlers inspect.
 */
module InputRules {
  import opened Wrappers
  import opened Strings

  /** One entry of `uploadsConfig.fileUploadSizeAndTypes`; the size limit plays no part here. */
  datatype UploadConstraint = UploadConstraint(fileTypes: seq<string>)

  /** `map((allowed) => allowed.fileTypes).join(',')`: every inner list is
    * rendered with commas as well, so the result is all types comma-joined. */
  function AllowedTypes(constraints: seq<UploadConstraint>): string
  {
    Join(seq(|constraints|, i requires 0 <= i < |constraints| => Join(constraints[i].fileTypes, ",")), ",")
  }

  /** `getFileType()`: with full file upload the configured string (an empty
    * one meaning any type, a missing one giving no attribute); otherwise the
    * RAG types, collapsed to any type when one of them admits anything;
    * without RAG types, any type. */
  function FileType(isFullFileUpload: bool, fullAllowed: Option<string>, uploads: Option<seq<UploadConstraint>>): (r: Option<string>)
    ensures isFullFileUpload ==> (r.None? <==> fullAllowed.None?) && r != Some("")
    ensures !isFullFileUpload ==> r.Some?
    ensures !isFullFileUpload && (uploads.None? || |uploads.value| == 0) ==> r == Some("*")
  {
    if isFullFileUpload then
      (if fullAllowed == Some("") then Some("*") else fullAllowed)
    else if uploads.Some? && |uploads.value| > 0 then
      var joined := AllowedTypes(uploads.value);
      if Contains(joined, "*") then Some("*") else Some(joined)
    else
      Some("*")
  }

  /** A star occurs in the joined RAG types exactly when it occurs in one of them. */
  lemma StarInAllowed(constraints: seq<UploadConstraint>)
    ensures Contains(AllowedTypes(constraints), "*") <==>
      exists i, j :: 0 <= i < |constraints| && 0 <= j < |constraints[i].fileTypes| && '*' in constraints[i].fileTypes[j]
  {
    var inner := seq(|constraints|, i requires 0 <= i < |constraints| => Join(constraints[i].fileTypes, ","));
    ContainsChar(AllowedTypes(constraints), '*');
    JoinChar(inner, ",", '*');
    forall i | 0 <= i < |constraints|
      ensures '*' in inner[i] <==> exists j :: 0 <= j < |constraints[i].fileTypes| && '*' in constraints[i].fileTypes[j]
    {
      JoinChar(constraints[i].fileTypes, ",", '*');
    }
  }

  /** Without full upload and with RAG types, the picker admits anything
    * exactly when some configured type contains a star. */
  lemma FileTypeStar(uploads: seq<UploadConstraint>)
    requires |uploads| > 0
    ensures FileType(false, None, Some(uploads)) == Some("*") <==>
      exists i, j :: 0 <= i < |uploads| && 0 <= j < |uploads[i].fileTypes| && '*' in uploads[i].fileTypes[j]
  {
    StarInAllowed(uploads);
    var joined := AllowedTypes(uploads);
    if joined == "*" {
      assert StartsWith(joined, "*");
    }
  }

  /** Otherwise every configured type is listed in the picker's string. */
  lemma FileTypeListsAll(uploads: seq<UploadConstraint>, i: nat, j: nat)
    requires |uploads| > 0 && !Contains(AllowedTypes(uploads), "*")
    requires i < |uploads| && j < |uploads[i].fileTypes|
    ensures FileType(false, None, Some(uploads)).Some?
    ensures Contains(FileType(false, None, Some(uploads)).value, uploads[i].fileTypes[j])
  {
    var inner := seq(|uploads|, k requires 0 <= k < |uploads| => Join(uploads[k].fileTypes, ","));
    var t := uploads[i].fileTypes[j];
    assert StartsWith(t, t);
    JoinContains(uploads[i].fileTypes, ",", j, t);
    JoinContains(inner, ",", i, t);
  }

  /** The fields of a `KeyboardEvent` the handlers read. */
  datatype KeyEvent = KeyEvent(key: string, keyCode: int, shiftKey: bool, isComposing: bool)

  /** What a key press asks a handler to do. */
  datatype KeyAction = NewLine | SubmitInput | HistoryPrevious | HistoryNext | Ignore

  /** Enter without Shift, outside an input-method composition (`isComposing`
    * or key code 229). */
  predicate SubmitKey(e: KeyEvent)
  {
    e.key == "Enter" && !e.shiftKey && !(e.isComposing || e.keyCode == 229)
  }

  /** The arrow keys, which walk the input history when it is enabled. */
  function HistoryKey(e: KeyEvent, enableInputHistory: bool): (r: KeyAction)
    ensures r != Ignore ==> enableInputHistory && e.key in {"ArrowUp", "ArrowDown"}
    ensures r in {HistoryPrevious, HistoryNext, Ignore}
  {
    if !enableInputHistory then Ignore
    else if e.key == "ArrowUp" then HistoryPrevious
    else if e.key == "ArrowDown" then HistoryNext
    else Ignore
  }

  /** The common part of both `handleKeyDown`s: Enter without Shift submits
    * unless an input method is composing, and any other key is looked up as
    * a history key. */
  function EnterOrHistory(e: KeyEvent, enableInputHistory: bool): (r: KeyAction)
    ensures r == SubmitInput <==> SubmitKey(e)
    ensures r != NewLine
    ensures r in {HistoryPrevious, HistoryNext} ==> enableInputHistory && !(e.key == "Enter" && !e.shiftKey)
  {
    if e.key == "Enter" && !e.shiftKey then
      (if !(e.isComposing || e.keyCode == 229) then SubmitInput else Ignore)
    else
      HistoryKey(e, enableInputHistory)
  }
}
