/**
 * The pure helpers of src/components/Bot.tsx: operator presence, the input
 * lock, date dividers, form serialisation, the human-in-the-loop feedback
 * question, the operator-handoff button test, history restore and the
 * greeting.
 */
module BotView {
  import opened Wrappers
  import Json
  import Strings
  import opened Messages
  import LastMessage

  // ---- isOperatorConnected ----

  /** A file annotation that names the operator as its sender. */
  predicate IsOperatorEntry(v: Json.Value)
  {
    Json.Get(v, "sender") == Some(Json.Str("operator"))
  }

  /** `annotations.find(fa => fa.sender === 'operator')` made truthy: reading
    * `sender` of a null entry throws, which the caller turns into `false`. */
  function ScanOperators(items: seq<Json.Value>): bool
    decreases |items|
  {
    if |items| == 0 then false
    else if items[0] == Json.Null then false
    else if IsOperatorEntry(items[0]) then true
    else ScanOperators(items[1..])
  }

  /** The scan finds the operator exactly when some entry names it and no null entry comes first. */
  lemma {:induction false} ScanOperatorsSpec(items: seq<Json.Value>)
    ensures ScanOperators(items) <==>
      exists i :: 0 <= i < |items| && IsOperatorEntry(items[i]) && forall j :: 0 <= j < i ==> items[j] != Json.Null
    decreases |items|
  {
    if |items| > 0 && items[0] != Json.Null && !IsOperatorEntry(items[0]) {
      ScanOperatorsSpec(items[1..]);
      if ScanOperators(items) {
        var i :| 0 <= i < |items| - 1 && IsOperatorEntry(items[1..][i]) && forall j :: 0 <= j < i ==> items[1..][j] != Json.Null;
        assert IsOperatorEntry(items[i + 1]);
      }
      if exists i :: 0 <= i < |items| && IsOperatorEntry(items[i]) && forall j :: 0 <= j < i ==> items[j] != Json.Null {
        var i :| 0 <= i < |items| && IsOperatorEntry(items[i]) && forall j :: 0 <= j < i ==> items[j] != Json.Null;
        assert i > 0;
        assert IsOperatorEntry(items[1..][i - 1]);
        assert forall j :: 0 <= j < i - 1 ==> items[1..][j] != Json.Null;
      }
    } else if |items| > 0 && items[0] != Json.Null {
      assert IsOperatorEntry(items[0]);
    }
  }

  /** `isOperatorConnected`: the last entry's file annotations (decoded with
    * `parse` when they are a string; `None` is a parse error) name the operator. */
  function IsOperatorConnected(t: seq<Message>, parse: string -> Option<Json.Value>): bool
  {
    if |t| == 0 then false
    else
      var fa := t[|t| - 1].fileAnnotations;
      if !Json.Present(fa) then false
      else
        var decoded := if fa.value.Str? then parse(fa.value.s) else fa;
        match decoded
        case None => false
        case Some(v) => if v.Arr? then ScanOperators(v.items) else IsOperatorEntry(v)
  }

  /** Operator presence is a property of the last entry only. */
  lemma OperatorConnectedLastOnly(t: seq<Message>, u: seq<Message>, parse: string -> Option<Json.Value>)
    requires |t| > 0 && |u| > 0 && t[|t| - 1] == u[|u| - 1]
    ensures IsOperatorConnected(t, parse) == IsOperatorConnected(u, parse)
  {
  }

  /** An annotation list naming the operator before any null entry means the operator is connected. */
  lemma OperatorAnnotationConnects(t: seq<Message>, items: seq<Json.Value>, i: nat, parse: string -> Option<Json.Value>)
    requires |t| > 0 && t[|t| - 1].fileAnnotations == Some(Json.Arr(items))
    requires i < |items| && IsOperatorEntry(items[i]) && forall j :: 0 <= j < i ==> items[j] != Json.Null
    ensures IsOperatorConnected(t, parse)
  {
    ScanOperatorsSpec(items);
  }

  // ---- getInputDisabled ----

  /** The last entry carries an action with at least one key (pending buttons). */
  predicate PendingAction(t: seq<Message>)
  {
    |t| > 0 && t[|t| - 1].action.Some? && Json.Truthy(t[|t| - 1].action.value) && Json.KeyCount(t[|t| - 1].action.value) > 0
  }

  /** `getInputDisabled`. */
  function InputDisabled(loading: bool, chatflowId: string, leadsEnabled: bool, leadSaved: bool, t: seq<Message>): bool
  {
    loading || chatflowId == "" || (leadsEnabled && !leadSaved) || PendingAction(t)
  }

  /** Pending buttons lock the input; once the action is cleared to null only
    * loading, a missing flow id or an unsaved lead can. */
  lemma ClearedActionUnlocks(loading: bool, chatflowId: string, leadsEnabled: bool, leadSaved: bool, t: seq<Message>)
    ensures PendingAction(t) ==> InputDisabled(loading, chatflowId, leadsEnabled, leadSaved, t)
    ensures var u := LastMessage.MapLast(t, (m: Message) => m.(action := Some(Json.Null)));
      InputDisabled(loading, chatflowId, leadsEnabled, leadSaved, u) == (loading || chatflowId == "" || (leadsEnabled && !leadSaved))
  {
  }

  // ---- date dividers ----

  /** The calendar day of an entry, through an uninterpreted `day` of a timestamp. */
  function DayOf(m: Message, day: int -> int): Option<int>
  {
    if m.dateTime.Some? then Some(day(m.dateTime.value)) else None
  }

  /** `shouldShowDateDivider` for the entry at `i`. */
  predicate ShowDivider(t: seq<Message>, i: nat, day: int -> int)
    requires i < |t|
  {
    DayOf(t[i], day).Some? && (i == 0 || DayOf(t[i - 1], day) != DayOf(t[i], day))
  }

  /** On a dated transcript in time order, with `day` monotone, every day that
    * occurs gets exactly one divider, before its first entry. */
  lemma DividerOncePerDay(t: seq<Message>, day: int -> int, i: nat, j: nat)
    requires forall k :: 0 <= k < |t| ==> t[k].dateTime.Some?
    requires forall a, b :: 0 <= a < b < |t| ==> t[a].dateTime.value <= t[b].dateTime.value
    requires forall x, y :: x <= y ==> day(x) <= day(y)
    requires i < j < |t| && DayOf(t[i], day) == DayOf(t[j], day)
    ensures !ShowDivider(t, j, day)
  {
    var d := day(t[j].dateTime.value);
    assert day(t[i].dateTime.value) <= day(t[j - 1].dateTime.value) <= d;
  }

  /** The first entry of each day shows a divider. */
  lemma DividerAtFirstOfDay(t: seq<Message>, day: int -> int, j: nat)
    requires j < |t| && t[j].dateTime.Some?
    requires forall k :: 0 <= k < j ==> DayOf(t[k], day) != DayOf(t[j], day)
    ensures ShowDivider(t, j, day)
  {
  }

  // ---- form input ----

  /** `Object.entries(form).map(([k, v]) => `${k}: ${v}`).join('\n')`, values already rendered. */
  function FormLines(entries: seq<(string, string)>): (lines: seq<string>)
    ensures |lines| == |entries| && forall k :: 0 <= k < |entries| ==> lines[k] == entries[k].0 + ": " + entries[k].1
  {
    seq(|entries|, k requires 0 <= k < |entries| => entries[k].0 + ": " + entries[k].1)
  }

  function FormToText(entries: seq<(string, string)>): string
  {
    Strings.Join(FormLines(entries), "\n")
  }

  /** Splitting the submitted text on newlines recovers one line per field,
    * as long as neither names nor values contain a newline. */
  lemma FormToTextLines(entries: seq<(string, string)>)
    requires |entries| > 0
    requires forall k :: 0 <= k < |entries| ==> '\n' !in entries[k].0 && '\n' !in entries[k].1
    ensures Strings.Split(FormToText(entries), '\n') == FormLines(entries)
  {
    var lines := FormLines(entries);
    forall k | 0 <= k < |lines|
      ensures '\n' !in lines[k]
    {
      assert lines[k] == entries[k].0 + ": " + entries[k].1;
    }
    Strings.SplitJoin(lines, '\n');
  }

  // ---- human-in-the-loop feedback question ----

  /** `s.charAt(0).toUpperCase() + s.slice(1)`. */
  function Capitalize(s: string): string
  {
    if |s| == 0 then "" else [Strings.UpperChar(s[0])] + s[1..]
  }

  /** `onSubmitResponse`: the typed feedback, else the capitalised decision. */
  function FeedbackQuestion(feedback: string, decision: string): string
  {
    if feedback != "" then feedback else Capitalize(decision)
  }

  /** Capitalising changes at most the first letter, and only its case. */
  lemma CapitalizeOnlyFirst(s: string)
    ensures |Capitalize(s)| == |s|
    ensures |s| > 0 ==> Capitalize(s)[1..] == s[1..]
    ensures Strings.Lower(Capitalize(s)) == Strings.Lower(s)
  {
    if |s| > 0 {
      var c := Capitalize(s);
      assert Strings.LowerChar(c[0]) == Strings.LowerChar(s[0]);
      assert forall k :: 1 <= k < |s| ==> c[k] == s[k];
    }
  }

  /** The question sent for an agent-flow decision: given feedback is sent
    * as it is; without it the decision is sent with its first letter
    * capitalised, so the two decisions read 'Proceed' and 'Reject'. */
  lemma DecisionQuestions(feedback: string, decision: string)
    ensures feedback != "" ==> FeedbackQuestion(feedback, decision) == feedback
    ensures feedback == "" ==> |FeedbackQuestion(feedback, decision)| == |decision|
    ensures feedback == "" ==> Strings.Lower(FeedbackQuestion(feedback, decision)) == Strings.Lower(decision)
    ensures FeedbackQuestion("", "proceed") == "Proceed"
    ensures FeedbackQuestion("", "reject") == "Reject"
  {
    CapitalizeOnlyFirst(decision);
    assert "proceed"[1..] == "roceed";
    assert "reject"[1..] == "eject";
  }

  // ---- operator handoff buttons ----

  /** A button of an action's `elements`: its `type` (absent when the button
    * has none), its value and its label (a missing label is ""). */
  datatype Button = Button(kind: Option<string>, value: Option<string>, caption: string)

  /** The handoff test of `handleActionClick`. */
  predicate IsOperatorHandoff(b: Button)
  {
    b.kind == Some("operator-handoff") || b.value == Some("operator_handoff") || b.kind == Some("operator") ||
    (b.caption != "" && (Strings.Contains(Strings.Lower(b.caption), "оператор") || Strings.Contains(Strings.Lower(b.caption), "operator")))
  }

  /** The handoff test does not depend on the case of the label. */
  lemma HandoffIgnoresCase(b: Button)
    ensures IsOperatorHandoff(b) <==> IsOperatorHandoff(b.(caption := Strings.Lower(b.caption)))
  {
    Strings.LowerIdempotent(b.caption);
  }

  // ---- history restore ----

  /** A stored entry as the mount effect rebuilds it: id, text, kind, rating and
    * time (stamped `now` when missing), plus the truthy optional payloads; the
    * raw `id`, `usedTools` and the flow status are not restored. */
  function RestoreEntry(m: Message, now: int): Message
  {
    Message(
      kind := m.kind, text := m.text, messageId := m.messageId, id := None, rating := m.rating,
      action := if Json.Present(m.action) then m.action else None,
      dateTime := if m.dateTime.Some? then m.dateTime else Some(now),
      sourceDocuments := if Json.Present(m.sourceDocuments) then m.sourceDocuments else None,
      usedTools := None,
      fileAnnotations := if Json.Present(m.fileAnnotations) then m.fileAnnotations else None,
      agentReasoning := m.agentReasoning,
      agentFlowEventStatus := None,
      agentFlowExecutedData := if Json.Present(m.agentFlowExecutedData) then m.agentFlowExecutedData else None,
      artifacts := if Json.Present(m.artifacts) then m.artifacts else None,
      fileUploads := m.fileUploads,
      followUpPrompts := if LastMessage.Filled(m.followUpPrompts) then m.followUpPrompts else None)
  }

  /** The restored transcript: every stored entry rebuilt, lead-capture entries dropped. */
  function Restore(history: seq<Message>, now: int): (r: seq<Message>)
    ensures |r| <= |history|
    ensures forall i :: 0 <= i < |r| ==> r[i].kind != LeadCaptureMessage && r[i].id.None? && r[i].dateTime.Some?
    ensures forall m :: m in history && m.kind != LeadCaptureMessage ==> RestoreEntry(m, now) in r
    decreases |history|
  {
    if |history| == 0 then []
    else if history[0].kind == LeadCaptureMessage then Restore(history[1..], now)
    else [RestoreEntry(history[0], now)] + Restore(history[1..], now)
  }

  /** Restoring works entry by entry and keeps the stored order: a
    * lead-capture entry is dropped, any other entry is rebuilt in place. */
  lemma {:induction false} RestoreFilter(a: seq<Message>, b: seq<Message>, m: Message, now: int)
    ensures Restore(a + b, now) == Restore(a, now) + Restore(b, now)
    ensures Restore([m], now) == if m.kind == LeadCaptureMessage then [] else [RestoreEntry(m, now)]
    decreases |a|
  {
    if |a| == 0 {
      assert a + b == b;
    } else {
      assert (a + b)[1..] == a[1..] + b;
      RestoreFilter(a[1..], b, m, now);
    }
    assert [m][1..] == [];
  }

  lemma RestoreEntryIdempotent(m: Message, now: int, later: int)
    ensures RestoreEntry(RestoreEntry(m, now), later) == RestoreEntry(m, now)
  {
  }

  /** Restoring a restored transcript changes nothing. */
  lemma {:induction false} RestoreIdempotent(history: seq<Message>, now: int, later: int)
    ensures Restore(Restore(history, now), later) == Restore(history, now)
    decreases |history|
  {
    if |history| > 0 {
      RestoreIdempotent(history[1..], now, later);
      if history[0].kind != LeadCaptureMessage {
        var m := RestoreEntry(history[0], now);
        RestoreEntryIdempotent(history[0], now, later);
        var r := Restore(history, now);
        assert r == [m] + Restore(history[1..], now);
        assert r[1..] == Restore(history[1..], now);
      }
    }
  }

  // ---- greeting ----

  const DefaultAssistantGreeting := "Я ваш AI-ассистент. Чем могу помочь?"

  /** The first bubble when the transcript is empty and user data has arrived. */
  function Greeting(fio: Option<string>, userName: Option<string>, assistantGreeting: Option<string>): string
  {
    var name := if LastMessage.Filled(fio) then fio else userName;
    var hello := if LastMessage.Filled(name) && name.value != "Гость" then "Здравствуйте, " + name.value else "Здравствуйте";
    hello + "! " + assistantGreeting.GetOr(DefaultAssistantGreeting)
  }

  /** A guest is greeted without a name; a named user by the full name, which
    * wins over the user name. */
  lemma GreetingCases(fio: string, userName: Option<string>, assistant: string)
    ensures Greeting(Some("Гость"), userName, Some(assistant)) == "Здравствуйте! " + assistant
    ensures fio != "" && fio != "Гость" ==> Greeting(Some(fio), userName, Some(assistant)) == "Здравствуйте, " + fio + "! " + assistant
    ensures Greeting(None, None, None) == "Здравствуйте! " + DefaultAssistantGreeting
  {
  }
}
