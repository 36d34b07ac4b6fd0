/**
 * The transcript updaters of src/components/Bot.tsx: every `setMessages`
 * callback that rewrites the last entry (streamed tokens and the
 * side-channel setters), the metadata update, the stop-generation cleanup,
 * and the merge of a non-streamed answer into the awaited placeholder.
 */
module LastMessage {
  import opened Wrappers
  import Json
  import opened Messages

  /** `r` differs from `t` at most in its final entry. */
  predicate OnlyLastChanged(t: seq<Message>, r: seq<Message>)
  {
    |r| == |t| && forall i :: 0 <= i < |t| - 1 ==> r[i] == t[i]
  }

  predicate LastIsUser(t: seq<Message>)
  {
    |t| > 0 && t[|t| - 1].kind == UserMessage
  }

  function Last(t: seq<Message>): Message
    requires |t| > 0
  {
    t[|t| - 1]
  }

  /** `data.map((item, i) => i === data.length - 1 ? f(item) : item)`. */
  function MapLast(t: seq<Message>, f: Message -> Message): (r: seq<Message>)
    ensures OnlyLastChanged(t, r)
    ensures |t| > 0 ==> Last(r) == f(Last(t))
  {
    if |t| == 0 then [] else t[..|t| - 1] + [f(Last(t))]
  }

  /** The clone-and-mutate updaters that first return the transcript untouched
    * when its last entry is the user's own message. On an empty transcript
    * the source fails reading the last entry; here it is left unchanged. */
  function MapLastUnlessUser(t: seq<Message>, f: Message -> Message): (r: seq<Message>)
    ensures OnlyLastChanged(t, r)
    ensures |t| == 0 || LastIsUser(t) ==> r == t
    ensures |t| > 0 && !LastIsUser(t) ==> Last(r) == f(Last(t))
  {
    if |t| == 0 || LastIsUser(t) then t else MapLast(t, f)
  }

  /** One streamed token added to the last entry (`updateLastMessage`). */
  function WithToken(m: Message, token: string, now: int): Message
  {
    m.(text := m.text + token, rating := None, dateTime := if m.dateTime.Some? then m.dateTime else Some(now))
  }

  /** `updateLastMessage(token)`; `addChatMessage` runs exactly when the token applies. */
  function AppendToken(t: seq<Message>, token: string, now: int): (r: seq<Message>)
  {
    if token == "" then t else MapLastUnlessUser(t, (m: Message) => WithToken(m, token, now))
  }

  predicate TokenApplies(t: seq<Message>, token: string)
  {
    token != "" && |t| > 0 && !LastIsUser(t)
  }

  /** A token is a no-op on a user entry or when empty; otherwise it extends the
    * last text, clears the last rating and stamps a time only where none was. */
  lemma AppendTokenEffect(t: seq<Message>, token: string, now: int)
    ensures OnlyLastChanged(t, AppendToken(t, token, now))
    ensures !TokenApplies(t, token) ==> AppendToken(t, token, now) == t
    ensures TokenApplies(t, token) ==>
      var m, n := Last(t), Last(AppendToken(t, token, now));
      n.text == m.text + token && n.rating.None? && n.kind == m.kind &&
      (m.dateTime.Some? ==> n.dateTime == m.dateTime) && (m.dateTime.None? ==> n.dateTime == Some(now)) &&
      n.(text := m.text, rating := m.rating, dateTime := m.dateTime) == m
  {
  }

  /** Streaming `a` then `b` leaves the transcript as streaming `a + b` at once:
    * the answer is the concatenation of its tokens, timed by the first. */
  lemma {:induction false} TokensConcatenate(t: seq<Message>, a: string, b: string, now1: int, now2: int)
    requires TokenApplies(t, a)
    ensures AppendToken(AppendToken(t, a, now1), b, now2) == AppendToken(t, a + b, now1)
  {
    var t1 := AppendToken(t, a, now1);
    AppendTokenEffect(t, a, now1);
    if b == "" {
      assert a + b == a;
    } else {
      var t2 := AppendToken(t1, b, now2);
      AppendTokenEffect(t1, b, now2);
      var t3 := AppendToken(t, a + b, now1);
      AppendTokenEffect(t, a + b, now1);
      assert Last(t1).text + b == Last(t).text + (a + b);
      assert Last(t2) == Last(t3);
      assert t2 == t3;
    }
  }

  /** `updateLastMessageSourceDocuments`: unconditional. */
  function SetSourceDocuments(t: seq<Message>, v: Json.Value): seq<Message>
  {
    MapLast(t, (m: Message) => m.(sourceDocuments := Some(v)))
  }

  /** `updateLastMessageAgentReasoning` on an already decoded list: unconditional. */
  function SetAgentReasoning(t: seq<Message>, v: seq<Json.Value>): seq<Message>
  {
    MapLast(t, (m: Message) => m.(agentReasoning := Some(v)))
  }

  /** `updateLastMessageUsedTools`: skipped on a user entry. */
  function SetUsedTools(t: seq<Message>, v: Json.Value): seq<Message>
  {
    MapLastUnlessUser(t, (m: Message) => m.(usedTools := Some(v)))
  }

  /** `updateLastMessageFileAnnotations`: skipped on a user entry. */
  function SetFileAnnotations(t: seq<Message>, v: Json.Value): seq<Message>
  {
    MapLastUnlessUser(t, (m: Message) => m.(fileAnnotations := Some(v)))
  }

  /** `updateAgentFlowExecutedData`: skipped on a user entry. */
  function SetAgentFlowExecutedData(t: seq<Message>, v: Json.Value): seq<Message>
  {
    MapLastUnlessUser(t, (m: Message) => m.(agentFlowExecutedData := Some(v)))
  }

  /** `updateLastMessageArtifacts`: skipped on a user entry. */
  function SetArtifacts(t: seq<Message>, v: Json.Value): seq<Message>
  {
    MapLastUnlessUser(t, (m: Message) => m.(artifacts := Some(v)))
  }

  /** `updateLastMessageAction` on an already decoded action: unconditional, normalised. */
  function SetAction(t: seq<Message>, v: Json.Value): seq<Message>
  {
    MapLast(t, (m: Message) => m.(action := Some(NormalizeAction(v))))
  }

  /** The three unconditional setters change exactly the named field of the last entry. */
  lemma UnconditionalSetters(t: seq<Message>, docs: Json.Value, reasoning: seq<Json.Value>, action: Json.Value)
    requires |t| > 0
    ensures OnlyLastChanged(t, SetSourceDocuments(t, docs)) && Last(SetSourceDocuments(t, docs)) == Last(t).(sourceDocuments := Some(docs))
    ensures OnlyLastChanged(t, SetAgentReasoning(t, reasoning)) && Last(SetAgentReasoning(t, reasoning)) == Last(t).(agentReasoning := Some(reasoning))
    ensures OnlyLastChanged(t, SetAction(t, action)) && Last(SetAction(t, action)) == Last(t).(action := Some(NormalizeAction(action)))
  {
  }

  /** The four guarded setters leave a transcript ending in a user entry as it is,
    * and otherwise change exactly the named field of the last entry. */
  lemma GuardedSetters(t: seq<Message>, v: Json.Value)
    ensures LastIsUser(t) ==> SetUsedTools(t, v) == t && SetFileAnnotations(t, v) == t &&
                              SetAgentFlowExecutedData(t, v) == t && SetArtifacts(t, v) == t
    ensures |t| > 0 && !LastIsUser(t) ==>
      OnlyLastChanged(t, SetUsedTools(t, v)) && Last(SetUsedTools(t, v)) == Last(t).(usedTools := Some(v)) &&
      OnlyLastChanged(t, SetFileAnnotations(t, v)) && Last(SetFileAnnotations(t, v)) == Last(t).(fileAnnotations := Some(v)) &&
      OnlyLastChanged(t, SetAgentFlowExecutedData(t, v)) && Last(SetAgentFlowExecutedData(t, v)) == Last(t).(agentFlowExecutedData := Some(v)) &&
      OnlyLastChanged(t, SetArtifacts(t, v)) && Last(SetArtifacts(t, v)) == Last(t).(artifacts := Some(v))
  {
  }

  /** `updateAgentFlowEvent`: 'INPROGRESS' appends a fresh empty assistant entry
    * carrying the status; any other status is written on the last entry unless
    * it is the user's. */
  function AgentFlowEvent(t: seq<Message>, status: string, now: int): (r: seq<Message>)
    ensures status == "INPROGRESS" ==> |r| == |t| + 1 && r[..|t|] == t && IsPlaceholder(Last(r)) && Last(r).agentFlowEventStatus == Some(status)
    ensures status != "INPROGRESS" ==> OnlyLastChanged(t, r) && (LastIsUser(t) ==> r == t)
    ensures status != "INPROGRESS" && |t| > 0 && !LastIsUser(t) ==> Last(r) == Last(t).(agentFlowEventStatus := Some(status))
  {
    if status == "INPROGRESS" then t + [Basic(ApiMessage, "", Some(now)).(agentFlowEventStatus := Some(status))]
    else MapLastUnlessUser(t, (m: Message) => m.(agentFlowEventStatus := Some(status)))
  }

  // ---- AutoFAQ button normalisation (updateLastMessageAction) ----

  /** One AutoFAQ button as an `elements` entry: a type defaulting to 'button',
    * a label taken from text, label or value, defaulting to 'Кнопка', and the
    * raw value. */
  function NormalizeButton(btn: Json.Value): (e: Json.Value)
    ensures e.Obj? && "type" in e.fields && "label" in e.fields
    ensures Json.Truthy(e.fields["type"]) && Json.Truthy(e.fields["label"])
    ensures ("value" in e.fields) <==> Json.Get(btn, "value").Some?
    ensures forall key :: key in e.fields ==> key in {"type", "label", "value"}
    ensures e.fields["type"] == (if Json.Present(Json.Get(btn, "type")) then Json.Get(btn, "type").value else Json.Str("button"))
    ensures Json.Present(Json.Get(btn, "text")) ==> e.fields["label"] == Json.Get(btn, "text").value
    ensures !Json.Present(Json.Get(btn, "text")) && Json.Present(Json.Get(btn, "label")) ==>
      e.fields["label"] == Json.Get(btn, "label").value
    ensures !Json.Present(Json.Get(btn, "text")) && !Json.Present(Json.Get(btn, "label")) && Json.Present(Json.Get(btn, "value")) ==>
      e.fields["label"] == Json.Get(btn, "value").value
    ensures !Json.Present(Json.Get(btn, "text")) && !Json.Present(Json.Get(btn, "label")) && !Json.Present(Json.Get(btn, "value")) ==>
      e.fields["label"] == Json.Str("Кнопка")
    ensures "value" in e.fields ==> e.fields["value"] == Json.Get(btn, "value").value
  {
    var ty := Json.Or(Json.Get(btn, "type"), Some(Json.Str("button")));
    var caption := Json.Or(Json.Get(btn, "text"), Json.Or(Json.Get(btn, "label"), Json.Or(Json.Get(btn, "value"), Some(Json.Str("Кнопка")))));
    var base := map["type" := ty.value, "label" := caption.value];
    var v := Json.Get(btn, "value");
    Json.Obj(if v.Some? then base["value" := v.value] else base)
  }

  /** The action has the AutoFAQ form `{type: "buttons", buttons: [...]}`. */
  predicate IsButtonsAction(a: Json.Value)
  {
    Json.Get(a, "type") == Some(Json.Str("buttons")) && Json.Get(a, "buttons").Some? && Json.Get(a, "buttons").value.Arr?
  }

  /** The AutoFAQ `{type: "buttons", buttons}` form rewritten to `elements`;
    * every other action is kept as it is. */
  function NormalizeAction(a: Json.Value): Json.Value
  {
    if IsButtonsAction(a) then
      var buttons := a.fields["buttons"].items;
      Json.Obj((a.fields - {"buttons"})["elements" := Json.Arr(seq(|buttons|, k requires 0 <= k < |buttons| => NormalizeButton(buttons[k])))])
    else a
  }

  /** A buttons action loses `buttons`, gains one element per button, each with
    * a non-empty label, and keeps every other key. */
  lemma NormalizeActionShape(a: Json.Value)
    requires IsButtonsAction(a)
    ensures var r := NormalizeAction(a);
      r.Obj? && "buttons" !in r.fields && "elements" in r.fields && r.fields["elements"].Arr? &&
      |r.fields["elements"].items| == |a.fields["buttons"].items| &&
      (forall k :: 0 <= k < |r.fields["elements"].items| ==>
         r.fields["elements"].items[k] == NormalizeButton(a.fields["buttons"].items[k]) &&
         Json.Truthy(r.fields["elements"].items[k].fields["label"])) &&
      (forall key :: key in a.fields && key != "buttons" && key != "elements" ==> key in r.fields && r.fields[key] == a.fields[key])
  {
  }

  /** Normalising is idempotent: a normalised action has no `buttons` left. */
  lemma NormalizeActionIdempotent(a: Json.Value)
    ensures NormalizeAction(NormalizeAction(a)) == NormalizeAction(a)
  {
    if IsButtonsAction(a) {
      NormalizeActionShape(a);
    }
  }

  // ---- stop generation (abortMessage) ----

  /** The reasoning entries that do not hand over to a next agent, in order. */
  function WithoutHandover(rs: seq<Json.Value>): (r: seq<Json.Value>)
    ensures |r| <= |rs|
    ensures forall x :: x in r ==> x in rs && !Json.Present(Json.Get(x, "nextAgent"))
    ensures forall x :: x in rs && !Json.Present(Json.Get(x, "nextAgent")) ==> x in r
    decreases |rs|
  {
    if |rs| == 0 then []
    else if Json.Present(Json.Get(rs[0], "nextAgent")) then WithoutHandover(rs[1..])
    else [rs[0]] + WithoutHandover(rs[1..])
  }

  /** `WithoutHandover` is the order-preserving filter: it distributes over
    * concatenation and keeps a single entry exactly when it has no `nextAgent`,
    * so order and repeats are those of `rs`. */
  lemma WithoutHandoverFilter(a: seq<Json.Value>, b: seq<Json.Value>, x: Json.Value)
    ensures WithoutHandover(a + b) == WithoutHandover(a) + WithoutHandover(b)
    ensures WithoutHandover([x]) == if Json.Present(Json.Get(x, "nextAgent")) then [] else [x]
  {
    WithoutHandoverAppend(a, b);
    assert [x][1..] == [];
  }

  lemma {:induction false} WithoutHandoverAppend(a: seq<Json.Value>, b: seq<Json.Value>)
    ensures WithoutHandover(a + b) == WithoutHandover(a) + WithoutHandover(b)
    decreases |a|
  {
    if |a| == 0 {
      assert a + b == b;
    } else {
      assert (a + b)[1..] == a[1..] + b;
      assert (a + b)[0] == a[0];
      WithoutHandoverAppend(a[1..], b);
    }
  }

  /** `abortMessage`: the last non-user entry keeps only its reasoning entries
    * without `nextAgent`; nothing else changes. */
  function AbortReasoning(t: seq<Message>): (r: seq<Message>)
    ensures OnlyLastChanged(t, r)
    ensures |t| > 0 ==> Last(r).(agentReasoning := Last(t).agentReasoning) == Last(t)
    ensures |t| > 0 && !LastIsUser(t) && Last(t).agentReasoning.Some? ==>
      Last(r).agentReasoning == Some(WithoutHandover(Last(t).agentReasoning.value))
    ensures forall x :: |r| > 0 && Last(r).agentReasoning.Some? && x in Last(r).agentReasoning.value && !LastIsUser(t) ==>
      !Json.Present(Json.Get(x, "nextAgent"))
  {
    MapLastUnlessUser(t, (m: Message) =>
      if m.agentReasoning.Some? && |m.agentReasoning.value| > 0 then m.(agentReasoning := Some(WithoutHandover(m.agentReasoning.value))) else m)
  }

  // ---- metadata (updateMetadata) ----

  /** The metadata fields of an answer or a `metadata` stream event. */
  datatype Metadata = Metadata(
    chatId: Option<string>,
    chatMessageId: Option<string>,
    dateTime: Option<int>,
    question: Option<string>,
    userMessageDateTime: Option<int>,
    followUpPrompts: Option<string>)

  /** A non-empty string, the form in which a string field is truthy. */
  predicate Filled(o: Option<string>)
  {
    o.Some? && o.value != ""
  }

  datatype MetaOutcome = MetaOutcome(chatId: Option<string>, transcript: seq<Message>, persisted: bool)

  /** Step 1 of `updateMetadata`: a message id (and server time) for the last assistant entry. */
  function MetaMessageId(t: seq<Message>, md: Metadata): (r: seq<Message>)
    ensures OnlyLastChanged(t, r) && forall i :: 0 <= i < |t| ==> r[i].kind == t[i].kind
    ensures r != t ==> Filled(md.chatMessageId) && |t| > 0
  {
    if Filled(md.chatMessageId) && |t| > 0 && Last(t).kind == ApiMessage then
      MapLast(t, (m: Message) => m.(messageId := md.chatMessageId, dateTime := if md.dateTime.Some? then md.dateTime else m.dateTime))
    else t
  }

  /** Step 2: with an empty input, the entry before last takes the question the server echoes. */
  function MetaQuestion(t: seq<Message>, md: Metadata, input: Option<string>): (r: seq<Message>)
    ensures |r| == |t| && forall i :: 0 <= i < |t| ==> r[i].kind == t[i].kind
    ensures forall i :: 0 <= i < |t| && i != |t| - 2 ==> r[i] == t[i]
    ensures r != t ==> input == Some("") && Filled(md.question) && |t| >= 2 && t[|t| - 2].kind != ApiMessage
  {
    if input == Some("") && Filled(md.question) && |t| >= 2 && t[|t| - 2].kind != ApiMessage then
      var m := t[|t| - 2];
      t[|t| - 2 := m.(text := md.question.value, dateTime := if md.userMessageDateTime.Some? then md.userMessageDateTime else m.dateTime)]
    else t
  }

  /** Step 3: follow-up prompts on the last entry unless it is the user's. */
  function MetaFollowUps(t: seq<Message>, md: Metadata): (r: seq<Message>)
    ensures OnlyLastChanged(t, r) && forall i :: 0 <= i < |t| ==> r[i].kind == t[i].kind
    ensures r != t ==> Filled(md.followUpPrompts) && |t| > 0 && !LastIsUser(t)
  {
    if Filled(md.followUpPrompts) then MapLastUnlessUser(t, (m: Message) => m.(followUpPrompts := md.followUpPrompts)) else t
  }

  /** `updateMetadata(data, input)`: the three steps in order, a chat id to adopt,
    * and whether any step called `addChatMessage`. */
  function ApplyMetadata(t: seq<Message>, md: Metadata, input: Option<string>): (o: MetaOutcome)
    ensures |o.transcript| == |t|
    ensures forall i :: 0 <= i < |t| ==> o.transcript[i].kind == t[i].kind
    ensures forall i :: 0 <= i < |t| - 2 ==> o.transcript[i] == t[i]
    ensures o.chatId.Some? <==> Filled(md.chatId)
    ensures o.transcript != t ==> o.persisted
  {
    var t1 := MetaMessageId(t, md);
    var t2 := MetaQuestion(t1, md, input);
    var t3 := MetaFollowUps(t2, md);
    MetaOutcome(
      if Filled(md.chatId) then md.chatId else None,
      t3,
      (Filled(md.chatMessageId) && |t| > 0) ||
      (input == Some("") && Filled(md.question) && |t| >= 2 && t1[|t| - 2].kind != ApiMessage) ||
      (Filled(md.followUpPrompts) && |t| > 0 && !LastIsUser(t2)))
  }

  /** A server message id lands on the last entry when that is an assistant entry,
    * and the echoed question replaces the user's text only for an empty input. */
  lemma MetadataTargets(t: seq<Message>, md: Metadata, input: Option<string>)
    requires |t| >= 2
    ensures var r := ApplyMetadata(t, md, input).transcript;
      (Filled(md.chatMessageId) && Last(t).kind == ApiMessage ==> Last(r).messageId == md.chatMessageId) &&
      (input != Some("") ==> r[|t| - 2] == t[|t| - 2]) &&
      (input == Some("") && Filled(md.question) && t[|t| - 2].kind != ApiMessage ==> r[|t| - 2].text == md.question.value)
  {
  }

  // ---- non-streamed answers (handleSubmit) ----

  /**
   * A non-streamed answer. `jsonText` and `rawText` are the pretty-printed
   * `data.json` (when truthy) and `data`, which the model takes as given.
   */
  datatype Answer = Answer(
    text: Option<string>,
    jsonText: Option<string>,
    rawText: string,
    autofaqMode: bool,
    sourceDocuments: Option<Json.Value>,
    usedTools: Option<Json.Value>,
    fileAnnotations: Option<Json.Value>,
    agentReasoning: Option<seq<Json.Value>>,
    agentFlowExecutedData: Option<Json.Value>,
    action: Option<Json.Value>,
    artifacts: Option<Json.Value>,
    meta: Metadata)

  /** `data.text`, else the printed `data.json`, else the printed `data`. */
  function AnswerText(a: Answer): string
  {
    if Filled(a.text) then a.text.value else if a.jsonText.Some? then a.jsonText.value else a.rawText
  }

  /** The answer written over an entry: text, id, payloads and time. */
  function Fill(m: Message, a: Answer, now: int): Message
  {
    m.(kind := ApiMessage, text := AnswerText(a), id := a.meta.chatMessageId,
       sourceDocuments := a.sourceDocuments, usedTools := a.usedTools, fileAnnotations := a.fileAnnotations,
       agentReasoning := a.agentReasoning, agentFlowExecutedData := a.agentFlowExecutedData,
       action := a.action, artifacts := a.artifacts, dateTime := Some(a.meta.dateTime.GetOr(now)))
  }

  /** The answer overwrites an empty assistant entry at the end, and is appended otherwise. */
  function FillOrAppend(t: seq<Message>, a: Answer, now: int): (r: seq<Message>)
    ensures |r| > 0 && Last(r).kind == ApiMessage && Last(r).text == AnswerText(a) && Last(r).id == a.meta.chatMessageId
    ensures |t| > 0 && IsPlaceholder(Last(t)) ==> OnlyLastChanged(t, r)
    ensures !(|t| > 0 && IsPlaceholder(Last(t))) ==> |r| == |t| + 1 && r[..|t|] == t
  {
    if |t| > 0 && IsPlaceholder(Last(t)) then MapLast(t, (m: Message) => Fill(m, a, now))
    else t + [Fill(Basic(ApiMessage, "", None), a, now)]
  }

  /** The number of assistant entries. */
  function CountAssistant(t: seq<Message>): nat
    decreases |t|
  {
    if |t| == 0 then 0 else CountAssistant(t[..|t| - 1]) + (if Last(t).kind == ApiMessage then 1 else 0)
  }

  /** An answer adds at most one assistant entry, and exactly one unless it
    * fills an awaited placeholder; everything before the last entry stays. */
  lemma AnswerAddsAtMostOne(t: seq<Message>, a: Answer, now: int)
    ensures var r := FillOrAppend(t, a, now);
      CountAssistant(r) <= CountAssistant(t) + 1 &&
      (|t| > 0 && IsPlaceholder(Last(t)) ==> CountAssistant(r) == CountAssistant(t)) &&
      |r| <= |t| + 1
  {
    var r := FillOrAppend(t, a, now);
    if |t| > 0 && IsPlaceholder(Last(t)) {
      assert r[..|r| - 1] == t[..|t| - 1];
    } else {
      assert r[..|r| - 1] == t;
    }
  }
}
