/**
 * One transcript entry of the chat (`MessageType` in src/components/Bot.tsx)
 * and the per-message views the transcript logic uses.
 */
module Messages {
  import opened Wrappers
  import Json

  /** `messageType`; a role the poll endpoint sends that is none of the four is kept as is. */
  datatype Kind = ApiMessage | UserMessage | UserMessageWaiting | LeadCaptureMessage | OtherKind(role: string)

  /** The kind a `type`/`role` string names. */
  function KindOf(role: string): (k: Kind)
    ensures k.OtherKind? <==> role !in {"apiMessage", "userMessage", "usermessagewaiting", "leadCaptureMessage"}
    ensures k == ApiMessage <==> role == "apiMessage"
    ensures k == UserMessage <==> role == "userMessage"
  {
    match role
    case "apiMessage" => ApiMessage
    case "userMessage" => UserMessage
    case "usermessagewaiting" => UserMessageWaiting
    case "leadCaptureMessage" => LeadCaptureMessage
    case _ => OtherKind(role)
  }

  /** `FeedbackRatingType`. */
  datatype Rating = ThumbsUp | ThumbsDown

  /** A file attached to a user message; `data` is the base64 payload that persistence drops. */
  datatype Upload = Upload(data: Option<string>, uploadType: string, name: string, mime: string)

  /**
   * A transcript entry. Timestamps are integers; the side-channel payloads
   * (source documents, tools, annotations, artifacts, ...) are opaque JSON.
   */
  datatype Message = Message(
    kind: Kind,
    text: string,
    messageId: Option<string>,
    id: Option<string>,
    rating: Option<Rating>,
    action: Option<Json.Value>,
    dateTime: Option<int>,
    sourceDocuments: Option<Json.Value>,
    usedTools: Option<Json.Value>,
    fileAnnotations: Option<Json.Value>,
    agentReasoning: Option<seq<Json.Value>>,
    agentFlowEventStatus: Option<string>,
    agentFlowExecutedData: Option<Json.Value>,
    artifacts: Option<Json.Value>,
    fileUploads: Option<seq<Upload>>,
    followUpPrompts: Option<string>)

  /** A message with only a kind, a text and a time. */
  function Basic(kind: Kind, text: string, dateTime: Option<int>): Message
  {
    Message(kind, text, None, None, None, None, dateTime, None, None, None, None, None, None, None, None, None)
  }

  /** The empty assistant entry a submission appends while the answer is awaited. */
  function Placeholder(now: int): Message
  {
    Basic(ApiMessage, "", Some(now))
  }

  /** An assistant entry with no text yet. */
  predicate IsPlaceholder(m: Message)
  {
    m.kind == ApiMessage && m.text == ""
  }

  /** `msg.messageId || msg.id`, when it is a non-empty id. */
  function Key(m: Message): (r: Option<string>)
    ensures r.Some? ==> r.value != "" && (r == m.messageId || r == m.id)
    ensures m.messageId.Some? && m.messageId.value != "" ==> r == m.messageId
    ensures r.None? <==> (m.messageId.None? || m.messageId == Some("")) && (m.id.None? || m.id == Some(""))
  {
    if m.messageId.Some? && m.messageId.value != "" then m.messageId
    else if m.id.Some? && m.id.value != "" then m.id
    else None
  }

  /** The sort key of the transcript: the timestamp, a missing one counting as 0. */
  function SortKey(m: Message): int
  {
    m.dateTime.GetOr(0)
  }

  /** The upload record as persisted: type, name and mime, without the payload. */
  function StripUpload(u: Upload): Upload
  {
    u.(data := None)
  }

  function StripAll(us: seq<Upload>): (r: seq<Upload>)
    ensures |r| == |us| && forall k :: 0 <= k < |us| ==> r[k] == StripUpload(us[k])
  {
    seq(|us|, k requires 0 <= k < |us| => StripUpload(us[k]))
  }

  /** A message as `addChatMessage` persists it. */
  function StripMessage(m: Message): Message
  {
    if m.fileUploads.Some? then m.(fileUploads := Some(StripAll(m.fileUploads.value))) else m
  }

  /** The transcript as `addChatMessage` persists it. */
  function StripUploads(t: seq<Message>): (r: seq<Message>)
    ensures |r| == |t|
  {
    seq(|t|, i requires 0 <= i < |t| => StripMessage(t[i]))
  }

  /** Persisting loses every upload's payload and keeps its type, name and
    * mime; nothing else about an entry changes. */
  lemma StripUploadsKeeps(t: seq<Message>)
    ensures var r := StripUploads(t);
      (forall i :: 0 <= i < |t| ==> r[i].(fileUploads := t[i].fileUploads) == t[i]) &&
      (forall i :: 0 <= i < |t| ==> (r[i].fileUploads.Some? <==> t[i].fileUploads.Some?)) &&
      (forall i, k :: 0 <= i < |t| && t[i].fileUploads.Some? && 0 <= k < |t[i].fileUploads.value| ==>
        |r[i].fileUploads.value| == |t[i].fileUploads.value| &&
        r[i].fileUploads.value[k] == t[i].fileUploads.value[k].(data := None))
  {
  }

  /** Stripping a message twice is stripping it once. */
  lemma StripMessageIdempotent(m: Message)
    ensures StripMessage(StripMessage(m)) == StripMessage(m)
  {
    if m.fileUploads.Some? {
      var us := StripAll(m.fileUploads.value);
      assert StripAll(us) == us;
    }
  }

  /** Persisting twice stores the same as persisting once. */
  lemma StripUploadsIdempotent(t: seq<Message>)
    ensures StripUploads(StripUploads(t)) == StripUploads(t)
  {
    var once := StripUploads(t);
    forall i | 0 <= i < |t|
      ensures StripMessage(once[i]) == once[i]
    {
      assert once[i] == StripMessage(t[i]);
      StripMessageIdempotent(t[i]);
    }
  }

  /** Stripping one entry in memory first does not change what is persisted. */
  lemma StripUploadsAbsorbs(t: seq<Message>, i: nat)
    requires i < |t|
    ensures StripUploads(t[i := StripMessage(t[i])]) == StripUploads(t)
  {
    var u := t[i := StripMessage(t[i])];
    StripMessageIdempotent(t[i]);
    forall j | 0 <= j < |t|
      ensures StripUploads(u)[j] == StripUploads(t)[j]
    {
      assert StripUploads(u)[j] == StripMessage(u[j]);
      assert StripUploads(t)[j] == StripMessage(t[j]);
    }
  }
}
