/**
 * The prediction stream of src/components/Bot.tsx: the named frames of a
 * `text/event-stream` response (server-sent events, section 9.2 of the WHATWG
 * HTML Living Standard), how the response is classified when it opens, how
 * stream errors are classified, and what each frame does to the transcript.
 */
module Sse {
  import opened Wrappers
  import Json
  import Strings
  import opened Messages
  import LastMessage

  /** One frame, by the `event` field of its JSON `data`. */
  datatype Event =
    | Start
    | Token(text: string)
    | SourceDocuments(docs: Json.Value)
    | UsedTools(tools: Json.Value)
    | FileAnnotations(annotations: Json.Value)
    | AgentReasoning(reasoning: seq<Json.Value>)
    | AgentFlowEvent(status: string)
    | AgentFlowExecutedData(executed: Json.Value)
    | Action(action: Json.Value)
    | Artifacts(artifacts: Json.Value)
    | Metadata(meta: LastMessage.Metadata)
    | Error(message: string)
    | Abort
    | End
    | OtherEvent(name: string)

  const EventStreamContentType := "text/event-stream"

  /** Why an opened response is not a stream. */
  datatype Failure = TooManyRequests | Forbidden | Unauthenticated | OtherStatus(status: int)

  /** What `onopen` makes of the response. */
  datatype Opening = Streamed | AutofaqHandled | Failed(reason: Failure)

  /** A JSON content type, the only kind of body inspected for `autofaqMode`. */
  predicate IsJson(contentType: string)
  {
    Strings.Contains(contentType, "application/json") || Strings.Contains(contentType, "text/json")
  }

  /**
   * `onopen`: `contentType` is the header or ""; `autofaqMode` says whether the
   * body parses as JSON with a truthy `autofaqMode`.
   */
  function ClassifyOpen(ok: bool, contentType: string, status: int, autofaqMode: bool): Opening
  {
    if ok && Strings.StartsWith(contentType, EventStreamContentType) then Streamed
    else if ok && IsJson(contentType) && autofaqMode then AutofaqHandled
    else if status == 429 then Failed(TooManyRequests)
    else if status == 403 then Failed(Forbidden)
    else if status == 401 then Failed(Unauthenticated)
    else Failed(OtherStatus(status))
  }

  /** Only an ok event-stream response streams; an ok JSON AutoFAQ answer ends the
    * turn quietly; every other response fails, with the status it came with. */
  lemma ClassifyOpenCases(ok: bool, contentType: string, status: int, autofaqMode: bool)
    ensures var o := ClassifyOpen(ok, contentType, status, autofaqMode);
      (o == Streamed <==> ok && Strings.StartsWith(contentType, EventStreamContentType)) &&
      (o == AutofaqHandled <==> ok && !Strings.StartsWith(contentType, EventStreamContentType) && IsJson(contentType) && autofaqMode) &&
      (o.Failed? <==> !(ok && Strings.StartsWith(contentType, EventStreamContentType)) && !(ok && IsJson(contentType) && autofaqMode)) &&
      (o == Failed(TooManyRequests) ==> status == 429) &&
      (o.Failed? && status == 401 ==> o == Failed(Unauthenticated)) &&
      (!ok ==> o.Failed?)
  {
  }

  /** What reaches `onerror`. */
  datatype StreamError = AbortError | AutofaqMarker | OtherError(message: string)

  /** The error `onopen` throws for an opening that is not a stream. */
  function Thrown(o: Opening, text: string): (e: Option<StreamError>)
    ensures e.None? <==> o == Streamed
    ensures e == Some(AutofaqMarker) <==> o == AutofaqHandled
  {
    match o
    case Streamed => None
    case AutofaqHandled => Some(AutofaqMarker)
    case Failed(_) => Some(OtherError(text))
  }

  /** `onerror` marks the service unavailable except for cancellation and the AutoFAQ marker. */
  predicate SetsServiceError(e: StreamError)
  {
    e.OtherError?
  }

  /** An opening sets `hasServiceError` exactly when it fails: AutoFAQ answers
    * and streams never do. */
  lemma OpeningServiceError(o: Opening, text: string)
    ensures o.Failed? <==> (Thrown(o, text).Some? && SetsServiceError(Thrown(o, text).value))
  {
  }

  /** What one frame does, apart from the sound and flags kept on the session. */
  datatype Effect = Effect(
    transcript: seq<Message>,
    persisted: bool,
    chatId: Option<string>,
    serviceError: bool,
    closes: bool)

  /** `onmessage`: the frame dispatched to its updater. `input` is the question
    * of the stream's request. */
  function Dispatch(t: seq<Message>, ev: Event, input: Option<string>, now: int): (e: Effect)
    ensures ev.Token? ==> e.transcript == LastMessage.AppendToken(t, ev.text, now) && e.persisted == LastMessage.TokenApplies(t, ev.text)
    ensures e.serviceError <==> ev.Error?
    ensures e.closes <==> ev.Abort? || ev.End?
    ensures e.chatId.Some? ==> ev.Metadata?
    ensures ev.Metadata? || ev.AgentFlowEvent? || |e.transcript| == |t|
    ensures ev.Start? || ev.Error? || ev.End? || ev.OtherEvent? ==> e.transcript == t && !e.persisted
    ensures !(ev.Metadata? || ev.AgentFlowEvent?) ==> LastMessage.OnlyLastChanged(t, e.transcript)
  {
    match ev
    case Start => Effect(t, false, None, false, false)
    case Token(text) => Effect(LastMessage.AppendToken(t, text, now), LastMessage.TokenApplies(t, text), None, false, false)
    case SourceDocuments(docs) => Effect(LastMessage.SetSourceDocuments(t, docs), true, None, false, false)
    case UsedTools(tools) => Effect(LastMessage.SetUsedTools(t, tools), |t| > 0 && !LastMessage.LastIsUser(t), None, false, false)
    case FileAnnotations(a) => Effect(LastMessage.SetFileAnnotations(t, a), |t| > 0 && !LastMessage.LastIsUser(t), None, false, false)
    case AgentReasoning(rs) => Effect(LastMessage.SetAgentReasoning(t, rs), true, None, false, false)
    case AgentFlowEvent(status) => Effect(LastMessage.AgentFlowEvent(t, status, now), false, None, false, false)
    case AgentFlowExecutedData(d) => Effect(LastMessage.SetAgentFlowExecutedData(t, d), |t| > 0 && !LastMessage.LastIsUser(t), None, false, false)
    case Action(a) => Effect(LastMessage.SetAction(t, a), true, None, false, false)
    case Artifacts(a) => Effect(LastMessage.SetArtifacts(t, a), |t| > 0 && !LastMessage.LastIsUser(t), None, false, false)
    case Metadata(md) =>
      var o := LastMessage.ApplyMetadata(t, md, input);
      Effect(o.transcript, o.persisted, o.chatId, false, false)
    case Error(_) => Effect(t, false, None, true, false)
    case Abort => Effect(LastMessage.AbortReasoning(t), false, None, false, true)
    case End => Effect(t, false, None, false, true)
    case OtherEvent(_) => Effect(t, false, None, false, false)
  }

  /** A whole stream of token frames leaves the concatenated text on the placeholder. */
  function RunTokens(t: seq<Message>, tokens: seq<string>, now: int): seq<Message>
    decreases |tokens|
  {
    if |tokens| == 0 then t else RunTokens(Dispatch(t, Token(tokens[0]), None, now).transcript, tokens[1..], now)
  }

  /** The concatenation of a list of tokens. */
  function Concat(tokens: seq<string>): string
    decreases |tokens|
  {
    if |tokens| == 0 then "" else tokens[0] + Concat(tokens[1..])
  }

  /** Streaming tokens into an awaited placeholder leaves exactly their
    * concatenation as its text; the entries before it are untouched. */
  lemma {:induction false} RunTokensConcat(t: seq<Message>, tokens: seq<string>, now: int)
    requires |t| > 0 && !LastMessage.LastIsUser(t)
    ensures var r := RunTokens(t, tokens, now);
      LastMessage.OnlyLastChanged(t, r) && r[|t| - 1].text == t[|t| - 1].text + Concat(tokens) &&
      r[|t| - 1].kind == t[|t| - 1].kind
    decreases |tokens|
  {
    if |tokens| > 0 {
      var t1 := Dispatch(t, Token(tokens[0]), None, now).transcript;
      LastMessage.AppendTokenEffect(t, tokens[0], now);
      RunTokensConcat(t1, tokens[1..], now);
      assert t[|t| - 1].text + tokens[0] + Concat(tokens[1..]) == t[|t| - 1].text + Concat(tokens);
    }
  }
}
