/**
 * The delivery and transcript state machine of src/components/Bot.tsx.
 *
 * Each network response, stream callback and timer expiry of the source is
 * an explicit method call here: a submission (`Submit`) and its answer
 * (`ReceiveAnswer`), the stream callbacks (`OpenStream`, `Deliver`,
 * `CloseStream`, `StreamFailed`), a poll tick (`BeginPollTick`) and its
 * response (`ReceivePoll`), a button click (`ActionClick`) and the transfer
 * reply (`ReceiveTransfer`). The abort controller of the stream is a
 * generation number: only the live generation's callbacks have any effect.
 */
module Bot {
  import opened Wrappers
  import Json
  import Strings
  import opened Messages
  import LastMessage
  import Polling
  import Sse
  import BotView
  import Storage

  /** What a submission carries: typed text, or a filled form. */
  datatype Input = Text(text: string) | Form(entries: seq<(string, string)>)

  /** A file waiting in the composer. */
  datatype Preview = Preview(data: string, mime: string, name: string, fileType: string)

  /** Where a submission went. */
  datatype Route =
    | Ignored
    | ViaHandoff(question: string, uploads: bool)
    | ViaStream(generation: nat)
    | ViaSync(question: string, uploads: bool)

  /** The reply of the prediction endpoint: data, an error, or neither. */
  datatype Reply = Replied(answer: LastMessage.Answer) | ReplyFailed(message: string) | NoReply

  /** The reply of the poll endpoint. */
  datatype PollReply = PollFailed | PollData(body: Option<Json.Value>)

  /** The first half of a poll tick: nothing to do, or the request to send. */
  datatype PollStep = SkipTick | Fetch(chatId: string, lastMessageId: Option<string>)

  /** The reply of the operator-transfer endpoint. */
  datatype TransferReply = Transferred | TransferFailed | TransferEmpty

  /** What a button click leads to next. */
  datatype NextStep =
    | NoStep
    | AwaitTransfer(chatId: string, userMessage: string)
    | SchedulePolling
    | OpenFeedbackDialog(decision: string)
    | SubmitQuestion(question: string)

  const TransferNotice := "Чат передан оператору"
  const TransferMessage := "Чат передан оператору. Ожидайте ответа..."
  const DefaultHandoffMessage := "Пользователь запросил связь с оператором"

  /** Entry `i` of `t` mentions the operator transfer. */
  predicate MentionsTransfer(t: seq<Message>, i: int)
  {
    0 <= i < |t| && Strings.Contains(t[i].text, TransferNotice)
  }

  /** Some entry mentions the operator transfer. */
  predicate HasTransferNotice(t: seq<Message>)
  {
    exists i :: 0 <= i < |t| && MentionsTransfer(t, i)
  }

  /** The text a submission sends and shows. */
  function SubmittedText(v: Input): string
  {
    match v
    case Text(s) => s
    case Form(entries) => BotView.FormToText(entries)
  }

  /** A blank text is dropped unless only image or audio files are attached. */
  predicate Ignores(v: Input, previews: seq<Preview>)
  {
    v.Text? && Strings.Trim(v.text) == "" &&
    (|previews| == 0 || exists i :: 0 <= i < |previews| && !Strings.StartsWith(previews[i].mime, "image") && previews[i].fileType != "audio")
  }

  function UploadsOf(previews: seq<Preview>): (us: seq<Upload>)
    ensures |us| == |previews|
  {
    seq(|previews|, k requires 0 <= k < |previews| => Upload(Some(previews[k].data), previews[k].fileType, previews[k].name, previews[k].mime))
  }

  /** The user's own entry for a submission. */
  function UserEntry(v: Input, previews: seq<Preview>, now: int): (m: Message)
    ensures m.kind == UserMessage && !IsPlaceholder(m)
  {
    Basic(UserMessage, SubmittedText(v), Some(now)).(fileUploads := Some(UploadsOf(previews)))
  }

  /** The last question loses its upload payloads once the request is sent. */
  function StripBeforeLast(t: seq<Message>): (r: seq<Message>)
    ensures |r| == |t| && StripUploads(r) == StripUploads(t)
    ensures forall i :: 0 <= i < |t| && i != |t| - 2 ==> r[i] == t[i]
  {
    if |t| >= 2 && t[|t| - 2].kind == UserMessage then
      StripUploadsAbsorbs(t, |t| - 2);
      t[|t| - 2 := StripMessage(t[|t| - 2])]
    else t
  }

  /** The buttons' action wants a typed comment first. */
  predicate WantsFeedback(action: Option<Json.Value>)
  {
    Json.Present(action) &&
    Json.Present(Json.Field(Json.Field(Json.Field(action, "data"), "input"), "humanInputEnableFeedback"))
  }

  /** The step after an ordinary (non-handoff) button click, taken once the
    * cleared action is saved. For a button without a type, `elem.type.includes`
    * throws at that point, so nothing further happens. */
  function OrdinaryNext(b: BotView.Button, action: Option<Json.Value>): NextStep
  {
    match b.kind
    case None => NoStep
    case Some(kind) =>
      if Strings.Contains(kind, "agentflowv2") then
        var decision := if Strings.Contains(kind, "approve") then "proceed" else "reject";
        if WantsFeedback(action) then OpenFeedbackDialog(decision)
        else if Json.Present(action) then SubmitQuestion(BotView.FeedbackQuestion("", decision))
        else NoStep
      else SubmitQuestion(b.caption)
  }

  /** An untyped button stops after the save; a typed button that is not an
    * agentflow decision submits its label; an agentflow decision opens the
    * comment dialog when the action wants one, and otherwise submits
    * 'Proceed' or 'Reject' when there is an action. */
  lemma OrdinaryNextCases(b: BotView.Button, action: Option<Json.Value>)
    ensures b.kind.None? ==> OrdinaryNext(b, action) == NoStep
    ensures b.kind.Some? && !Strings.Contains(b.kind.value, "agentflowv2") ==> OrdinaryNext(b, action) == SubmitQuestion(b.caption)
    ensures b.kind.Some? && Strings.Contains(b.kind.value, "agentflowv2") ==>
      (WantsFeedback(action) ==> OrdinaryNext(b, action).OpenFeedbackDialog?) &&
      (!WantsFeedback(action) && Json.Present(action) ==> OrdinaryNext(b, action) in {SubmitQuestion("Proceed"), SubmitQuestion("Reject")}) &&
      (!Json.Present(action) ==> OrdinaryNext(b, action) == NoStep)
  {
    BotView.DecisionQuestions("", "proceed");
    BotView.DecisionQuestions("", "reject");
  }

  /** The part of the session a submission's route choice touches. */
  datatype Turn = Turn(transcript: seq<Message>, saved: seq<Message>, savedChatId: string, hasSoundPlayed: bool,
                       liveStream: Option<nat>, nextGeneration: nat, streamInput: Option<string>, streamChatId: string)

  /** Routing a question that ends `before.transcript`: once the operator has
    * the chat (`handoff`) the stream is never used; only the stream route
    * starts a new generation (and, for uploads, keeps only the placeholder on
    * screen); every other route waits behind one placeholder. */
  predicate Routed(before: Turn, after: Turn, route: Route, handoff: bool, streamAvailable: bool,
                   chatId: string, text: string, uploads: bool, formMode: bool, now: int)
  {
    var waiting := before.transcript + [Placeholder(now)];
    && (handoff ==> route == ViaHandoff(text, uploads))
    && (!handoff && streamAvailable ==> route == ViaStream(before.nextGeneration))
    && (!handoff && !streamAvailable ==> route == ViaSync(text, uploads))
    && (route.ViaStream? ==>
          after == Turn(if uploads then StripBeforeLast(waiting) else waiting,
                        if uploads then StripUploads(waiting) else before.saved,
                        if uploads then Storage.NextChatId(before.savedChatId, chatId) else before.savedChatId,
                        false, Some(before.nextGeneration), before.nextGeneration + 1,
                        if formMode then None else Some(text), chatId))
    && (!route.ViaStream? ==>
          after == before.(transcript := waiting, hasSoundPlayed := before.hasSoundPlayed && route.ViaHandoff?))
  }

  /** The transcript with its last action cleared to null. */
  function ClearLastAction(t: seq<Message>): seq<Message>
  {
    LastMessage.MapLast(t, (m: Message) => m.(action := Some(Json.Null)))
  }

  class Session {
    var transcript: seq<Message>
    /** The chat history as last written to local storage. */
    var saved: seq<Message>
    /** The chat id in that stored entry ('' when it holds none). */
    var savedChatId: string
    var pollingActive: bool
    /** Whether the polling interval handle is set. */
    var intervalSet: bool
    /** The id of the newest AutoFAQ message already fetched. */
    var watermark: Option<string>
    var hasSoundPlayed: bool
    /** How often the receive sound was requested. */
    var soundsPlayed: nat
    /** The stream generation whose callbacks still arrive, if any. */
    var liveStream: Option<nat>
    var nextGeneration: nat
    /** The question of the live stream's request (absent for form input). */
    var streamInput: Option<string>
    /** The chat id the live stream's request was sent with. */
    var streamChatId: string
    var loading: bool
    var hasServiceError: bool
    var chatId: string
    var streamAvailable: bool
    var userInput: string

    /** The polling flag and the interval handle move together, and a live
      * stream is one that was started. */
    predicate Valid()
      reads this`pollingActive, this`intervalSet, this`liveStream, this`nextGeneration
    {
      pollingActive == intervalSet && (liveStream.Some? ==> liveStream.value < nextGeneration)
    }

    constructor (initialChatId: string)
      ensures Valid()
      ensures transcript == [] && saved == [] && savedChatId == "" && !pollingActive && watermark == None
      ensures !hasSoundPlayed && soundsPlayed == 0 && liveStream == None && nextGeneration == 0 && streamInput == None && streamChatId == ""
      ensures !loading && !hasServiceError && chatId == initialChatId && !streamAvailable && userInput == ""
    {
      transcript, saved, savedChatId := [], [], "";
      pollingActive, intervalSet, watermark := false, false, None;
      hasSoundPlayed, soundsPlayed := false, 0;
      liveStream, nextGeneration, streamInput, streamChatId := None, 0, None, "";
      loading, hasServiceError := false, false;
      chatId, streamAvailable, userInput := initialChatId, false, "";
    }

    /** The mount effect: a stored entry with any key restores its chat id and
      * its history without lead-capture entries. */
    method Restore(storedHasKeys: bool, storedChatId: Option<string>, history: seq<Message>, now: int)
      modifies this`chatId, this`transcript, this`saved, this`savedChatId
      ensures !storedHasKeys ==>
        transcript == old(transcript) && saved == old(saved) && savedChatId == old(savedChatId) && chatId == old(chatId)
      ensures storedHasKeys ==>
        transcript == BotView.Restore(history, now) && saved == history && savedChatId == storedChatId.GetOr("") &&
        chatId == (if LastMessage.Filled(storedChatId) then storedChatId.value else old(chatId))
    {
      if storedHasKeys {
        if LastMessage.Filled(storedChatId) {
          chatId := storedChatId.value;
        }
        transcript := BotView.Restore(history, now);
        saved, savedChatId := history, storedChatId.GetOr("");
      }
    }

    /** The stream-availability probe: `isStreaming ?? false`. */
    method SetStreamAvailable(isStreaming: Option<bool>)
      modifies this`streamAvailable
      ensures streamAvailable == isStreaming.GetOr(false)
    {
      streamAvailable := isStreaming.GetOr(false);
    }

    /** The greeting effect: an empty transcript gets one greeting once user data is loaded. */
    method Greet(userDataLoaded: bool, fio: Option<string>, userName: Option<string>, assistantGreeting: Option<string>, now: int)
      modifies this`transcript
      ensures transcript == (if old(transcript) == [] && userDataLoaded
                             then [Basic(ApiMessage, BotView.Greeting(fio, userName, assistantGreeting), Some(now))]
                             else old(transcript))
      ensures HasTransferEntry(old(transcript)) ==> HasTransferEntry(transcript)
    {
      if transcript == [] && userDataLoaded {
        transcript := [Basic(ApiMessage, BotView.Greeting(fio, userName, assistantGreeting), Some(now))];
      }
    }

    /** `addChatMessage`: the history without upload payloads is stored
      * under the current chat id. */
    method Persist(h: seq<Message>)
      modifies this`saved, this`savedChatId
      ensures saved == StripUploads(h) && savedChatId == Storage.NextChatId(old(savedChatId), chatId)
    {
      saved := StripUploads(h);
      savedChatId := Storage.NextChatId(savedChatId, chatId);
    }

    // ---- submissions ----

    /** The user entry is appended and persisted, and the turn begins. */
    method AppendQuestion(value: Input, previews: seq<Preview>, now: int)
      modifies this`loading, this`transcript, this`saved, this`savedChatId
      ensures loading && transcript == old(transcript) + [UserEntry(value, previews, now)]
      ensures saved == StripUploads(transcript) && savedChatId == Storage.NextChatId(old(savedChatId), chatId)
      ensures HasTransferEntry(old(transcript)) ==> HasTransferEntry(transcript)
    {
      loading := true;
      AppendKeepsNotice(transcript, [UserEntry(value, previews, now)]);
      transcript := transcript + [UserEntry(value, previews, now)];
      Persist(transcript);
    }

    /** A new stream generation takes over; older generations are cancelled. */
    method BeginStream(formMode: bool, text: string, uploads: bool, now: int) returns (generation: nat)
      requires Valid()
      modifies this`transcript, this`saved, this`savedChatId, this`hasSoundPlayed, this`liveStream, this`nextGeneration, this`streamInput, this`streamChatId
      ensures Valid()
      ensures generation == old(nextGeneration) && liveStream == Some(generation) && nextGeneration == generation + 1
      ensures !hasSoundPlayed && streamInput == (if formMode then None else Some(text)) && streamChatId == chatId
      ensures transcript == (if uploads then StripBeforeLast(old(transcript) + [Placeholder(now)]) else old(transcript) + [Placeholder(now)])
      ensures saved == (if uploads then StripUploads(old(transcript) + [Placeholder(now)]) else old(saved))
      ensures savedChatId == (if uploads then Storage.NextChatId(old(savedChatId), chatId) else old(savedChatId))
      ensures HasTransferEntry(old(transcript)) ==> HasTransferEntry(transcript)
    {
      AppendKeepsNotice(transcript, [Placeholder(now)]);
      transcript := transcript + [Placeholder(now)];
      hasSoundPlayed := false;
      generation := nextGeneration;
      liveStream := Some(generation);
      nextGeneration := nextGeneration + 1;
      streamInput, streamChatId := if formMode then None else Some(text), chatId;
      if uploads {
        StripQuestionUploads();
      }
    }

    function TurnState(): Turn
      reads this`transcript, this`saved, this`savedChatId, this`hasSoundPlayed, this`liveStream, this`nextGeneration, this`streamInput, this`streamChatId
    {
      Turn(transcript, saved, savedChatId, hasSoundPlayed, liveStream, nextGeneration, streamInput, streamChatId)
    }

    /** `handleSubmit` up to the request: nothing for an ignored input;
      * otherwise the user entry is appended (and saved) and the route is
      * chosen as `Routed` says. */
    method Submit(value: Input, previews: seq<Preview>, formMode: bool, now: int) returns (route: Route)
      requires Valid()
      modifies this`loading, this`transcript, this`saved, this`savedChatId, this`hasSoundPlayed, this`liveStream, this`nextGeneration, this`streamInput, this`streamChatId
      ensures Valid()
      ensures Ignores(value, previews) ==>
        route == Ignored && TurnState() == old(TurnState()) && loading == old(loading)
      ensures !Ignores(value, previews) ==>
        var withUser := old(transcript) + [UserEntry(value, previews, now)];
        loading &&
        Routed(old(TurnState()).(transcript := withUser, saved := StripUploads(withUser), savedChatId := Storage.NextChatId(old(savedChatId), chatId)),
               TurnState(), route, HasTransferNotice(withUser) || pollingActive, streamAvailable, chatId,
               SubmittedText(value), |previews| > 0, formMode, now)
      ensures HasTransferEntry(old(transcript)) ==> HasTransferEntry(transcript)
    {
      if Ignores(value, previews) {
        return Ignored;
      }
      route := Ask(value, previews, formMode, now);
    }

    /** A question that is not ignored: appended, saved and routed. */
    method Ask(value: Input, previews: seq<Preview>, formMode: bool, now: int) returns (route: Route)
      requires Valid()
      modifies this`loading, this`transcript, this`saved, this`savedChatId, this`hasSoundPlayed, this`liveStream, this`nextGeneration, this`streamInput, this`streamChatId
      ensures Valid()
      ensures
        var withUser := old(transcript) + [UserEntry(value, previews, now)];
        loading &&
        Routed(old(TurnState()).(transcript := withUser, saved := StripUploads(withUser), savedChatId := Storage.NextChatId(old(savedChatId), chatId)),
               TurnState(), route, HasTransferNotice(withUser) || pollingActive, streamAvailable, chatId,
               SubmittedText(value), |previews| > 0, formMode, now)
      ensures HasTransferEntry(old(transcript)) ==> HasTransferEntry(transcript)
    {
      AppendQuestion(value, previews, now);
      assert transcript[|transcript| - 1] == UserEntry(value, previews, now);
      assert TurnState() == old(TurnState()).(transcript := transcript, saved := saved, savedChatId := savedChatId);
      route := ChooseRoute(SubmittedText(value), |previews| > 0, formMode, now);
    }

    /** The route for a question just appended, with its effects. */
    method ChooseRoute(text: string, uploads: bool, formMode: bool, now: int) returns (route: Route)
      requires Valid() && |transcript| > 0 && !IsPlaceholder(transcript[|transcript| - 1])
      modifies this`transcript, this`saved, this`savedChatId, this`hasSoundPlayed, this`liveStream, this`nextGeneration, this`streamInput, this`streamChatId
      ensures Valid()
      ensures Routed(old(TurnState()), TurnState(), route, HasTransferNotice(old(transcript)) || pollingActive,
                     streamAvailable, chatId, text, uploads, formMode, now)
      ensures HasTransferEntry(old(transcript)) ==> HasTransferEntry(transcript)
    {
      if HasTransferNotice(transcript) || pollingActive {
        AddPlaceholder(now);
        route := ViaHandoff(text, uploads);
      } else if streamAvailable {
        var generation := BeginStream(formMode, text, uploads, now);
        route := ViaStream(generation);
      } else {
        AwaitSync(now);
        route := ViaSync(text, uploads);
      }
    }

    /** The handoff branch adds the waiting placeholder unless the transcript
      * already ends with one. */
    method AddPlaceholder(now: int)
      modifies this`transcript
      ensures transcript == if |old(transcript)| > 0 && IsPlaceholder(old(transcript)[|old(transcript)| - 1])
        then old(transcript) else old(transcript) + [Placeholder(now)]
      ensures HasTransferEntry(old(transcript)) ==> HasTransferEntry(transcript)
    {
      if !(|transcript| > 0 && IsPlaceholder(transcript[|transcript| - 1])) {
        AppendKeepsNotice(transcript, [Placeholder(now)]);
        transcript := transcript + [Placeholder(now)];
      }
    }

    /** The non-streaming branch waits behind a placeholder, with the sound re-armed. */
    method AwaitSync(now: int)
      modifies this`transcript, this`hasSoundPlayed
      ensures transcript == old(transcript) + [Placeholder(now)] && !hasSoundPlayed
      ensures HasTransferEntry(old(transcript)) ==> HasTransferEntry(transcript)
    {
      AppendKeepsNotice(transcript, [Placeholder(now)]);
      transcript := transcript + [Placeholder(now)];
      hasSoundPlayed := false;
    }

    /** A normal answer written into the transcript, then its metadata. A
      * filled chat id in the reply is adopted first, so both saves of the
      * turn are stored under it. */
    method MergeAnswer(a: LastMessage.Answer, question: string, now: int)
      modifies this`transcript, this`saved, this`savedChatId, this`chatId, this`loading, this`userInput
      ensures
        var o := LastMessage.ApplyMetadata(LastMessage.FillOrAppend(old(transcript), a, now), a.meta, Some(question));
        transcript == o.transcript && saved == StripUploads(o.transcript) &&
        chatId == (if LastMessage.Filled(a.meta.chatId) then a.meta.chatId.value else old(chatId)) &&
        savedChatId == Storage.NextChatId(old(savedChatId), chatId) && !loading && userInput == ""
      ensures HasTransferEntry(old(transcript)) ==> HasTransferEntry(transcript)
    {
      if LastMessage.Filled(a.meta.chatId) {
        chatId := a.meta.chatId.value;
      }
      FillAnswer(a, now);
      ApplyAnswerMetadata(a.meta, question);
      loading := false;
      userInput := "";
    }

    /** The answer fills the placeholder or is appended, and is saved. */
    method FillAnswer(a: LastMessage.Answer, now: int)
      modifies this`transcript, this`saved, this`savedChatId
      ensures transcript == LastMessage.FillOrAppend(old(transcript), a, now)
      ensures saved == StripUploads(transcript) && savedChatId == Storage.NextChatId(old(savedChatId), chatId)
      ensures HasTransferEntry(old(transcript)) ==> HasTransferEntry(transcript)
    {
      FillKeepsNotice(transcript, a, now);
      transcript := LastMessage.FillOrAppend(transcript, a, now);
      Persist(transcript);
    }

    /** `updateMetadata` on the merged answer, just saved under the current
      * chat id (the one it would adopt, which `MergeAnswer` has already
      * taken). A step that changes the transcript saves it again, so the
      * stored entry stays the transcript under the same chat id. */
    method ApplyAnswerMetadata(md: LastMessage.Metadata, question: string)
      requires saved == StripUploads(transcript) && savedChatId == Storage.NextChatId(savedChatId, chatId)
      modifies this`transcript, this`saved, this`savedChatId
      ensures transcript == LastMessage.ApplyMetadata(old(transcript), md, Some(question)).transcript
      ensures saved == StripUploads(transcript) && savedChatId == old(savedChatId)
      ensures HasTransferEntry(old(transcript)) ==> HasTransferEntry(transcript)
    {
      var o := LastMessage.ApplyMetadata(transcript, md, Some(question));
      MetadataKeepsNotice(transcript, md, Some(question));
      transcript := o.transcript;
      if o.persisted {
        Persist(o.transcript);
      }
    }

    /** `handleError`: the service-error screen, and the turn ends. */
    method HandleError()
      modifies this`hasServiceError, this`loading, this`userInput
      ensures hasServiceError && !loading && userInput == ""
    {
      hasServiceError := true;
      loading := false;
      userInput := "";
    }

    /** The upload payloads of the question are dropped after the request. */
    method StripQuestionUploads()
      modifies this`transcript, this`saved, this`savedChatId
      ensures transcript == StripBeforeLast(old(transcript)) && saved == StripUploads(old(transcript))
      ensures savedChatId == Storage.NextChatId(old(savedChatId), chatId)
      ensures HasTransferEntry(old(transcript)) ==> HasTransferEntry(transcript)
    {
      EditsKeepNotice(transcript);
      transcript := StripBeforeLast(transcript);
      Persist(transcript);
    }

    /** An AutoFAQ acknowledgement: the placeholder goes, the turn ends and
      * the operator's answers will arrive by polling. */
    method AcceptAutofaq()
      requires Valid()
      modifies this`transcript, this`loading, this`userInput, this`pollingActive, this`intervalSet
      ensures Valid()
      ensures transcript == (if |old(transcript)| > 0 && IsPlaceholder(old(transcript)[|old(transcript)| - 1])
                             then old(transcript)[..|old(transcript)| - 1] else old(transcript))
      ensures !loading && userInput == "" && pollingActive
      ensures HasTransferEntry(old(transcript)) ==> HasTransferEntry(transcript)
    {
      if |transcript| > 0 && IsPlaceholder(transcript[|transcript| - 1]) {
        PopKeepsNotice(transcript);
        transcript := transcript[..|transcript| - 1];
      }
      loading := false;
      userInput := "";
      StartPolling();
    }

    /** `handleSubmit` after the request of the handoff route returns. An
      * AutoFAQ answer drops the placeholder, ends the turn and turns polling
      * on; any other answer turns polling off and is written as usual. */
    method ReceiveHandoffAnswer(question: string, uploads: bool, reply: Reply, now: int)
      requires Valid()
      modifies this`transcript, this`saved, this`savedChatId, this`chatId, this`loading, this`userInput, this`hasServiceError, this`pollingActive, this`intervalSet
      ensures Valid()
      ensures reply.ReplyFailed? ==>
        hasServiceError && !loading && userInput == "" && pollingActive == old(pollingActive) &&
        transcript == old(transcript) && saved == old(saved) && savedChatId == old(savedChatId) && chatId == old(chatId)
      ensures reply.Replied? && reply.answer.autofaqMode ==>
        transcript == (if |old(transcript)| > 0 && IsPlaceholder(old(transcript)[|old(transcript)| - 1])
                       then old(transcript)[..|old(transcript)| - 1] else old(transcript)) &&
        !loading && userInput == "" && pollingActive &&
        saved == old(saved) && savedChatId == old(savedChatId) && chatId == old(chatId) && hasServiceError == old(hasServiceError)
      ensures reply.Replied? && !reply.answer.autofaqMode ==>
        var o := LastMessage.ApplyMetadata(LastMessage.FillOrAppend(old(transcript), reply.answer, now), reply.answer.meta, Some(question));
        transcript == (if uploads then StripBeforeLast(o.transcript) else o.transcript) &&
        saved == StripUploads(o.transcript) && !loading && userInput == "" && !pollingActive &&
        chatId == (if LastMessage.Filled(reply.answer.meta.chatId) then reply.answer.meta.chatId.value else old(chatId)) && hasServiceError == old(hasServiceError) &&
        savedChatId == Storage.NextChatId(old(savedChatId), chatId)
      ensures reply.NoReply? ==>
        transcript == (if uploads then StripBeforeLast(old(transcript)) else old(transcript)) &&
        saved == (if uploads then StripUploads(old(transcript)) else old(saved)) &&
        loading == old(loading) && userInput == old(userInput) && pollingActive == old(pollingActive) &&
        chatId == old(chatId) && hasServiceError == old(hasServiceError) &&
        savedChatId == (if uploads then Storage.NextChatId(old(savedChatId), chatId) else old(savedChatId))
      ensures HasTransferEntry(old(transcript)) ==> HasTransferEntry(transcript)
    {
      match reply {
        case ReplyFailed(_) =>
          HandleError();
        case Replied(a) =>
          if a.autofaqMode {
            AcceptAutofaq();
          } else {
            AcceptAnswer(a, question, uploads, now);
          }
        case NoReply =>
          if uploads {
            StripQuestionUploads();
          }
      }
    }

    /** A direct answer in the handoff turn ends polling and is merged like a
      * synchronous one. */
    method AcceptAnswer(a: LastMessage.Answer, question: string, uploads: bool, now: int)
      requires Valid()
      modifies this`transcript, this`saved, this`savedChatId, this`chatId, this`loading, this`userInput, this`pollingActive, this`intervalSet
      ensures Valid()
      ensures
        var o := LastMessage.ApplyMetadata(LastMessage.FillOrAppend(old(transcript), a, now), a.meta, Some(question));
        transcript == (if uploads then StripBeforeLast(o.transcript) else o.transcript) &&
        saved == StripUploads(o.transcript) && !loading && userInput == "" && !pollingActive &&
        chatId == (if LastMessage.Filled(a.meta.chatId) then a.meta.chatId.value else old(chatId)) &&
        savedChatId == Storage.NextChatId(old(savedChatId), chatId)
      ensures HasTransferEntry(old(transcript)) ==> HasTransferEntry(transcript)
    {
      StopPolling();
      MergeAndStrip(a, question, uploads, now);
    }

    /** The merge, then (for a question with uploads) the payloads dropped
      * from the question on screen and saved again. */
    method MergeAndStrip(a: LastMessage.Answer, question: string, uploads: bool, now: int)
      modifies this`transcript, this`saved, this`savedChatId, this`chatId, this`loading, this`userInput
      ensures
        var o := LastMessage.ApplyMetadata(LastMessage.FillOrAppend(old(transcript), a, now), a.meta, Some(question));
        transcript == (if uploads then StripBeforeLast(o.transcript) else o.transcript) &&
        saved == StripUploads(o.transcript) && !loading && userInput == "" &&
        chatId == (if LastMessage.Filled(a.meta.chatId) then a.meta.chatId.value else old(chatId)) &&
        savedChatId == Storage.NextChatId(old(savedChatId), chatId)
      ensures HasTransferEntry(old(transcript)) ==> HasTransferEntry(transcript)
    {
      ghost var o := LastMessage.ApplyMetadata(LastMessage.FillOrAppend(transcript, a, now), a.meta, Some(question));
      MergeAnswer(a, question, now);
      assert transcript == o.transcript;
      if uploads {
        StripQuestionUploads();
      }
    }

    /** `handleSubmit` after the request of the non-streamed route returns. */
    method ReceiveSyncAnswer(question: string, uploads: bool, reply: Reply, now: int)
      modifies this`transcript, this`saved, this`savedChatId, this`chatId, this`loading, this`userInput, this`hasServiceError
      ensures reply.ReplyFailed? ==>
        hasServiceError && !loading && userInput == "" &&
        transcript == old(transcript) && saved == old(saved) && savedChatId == old(savedChatId) && chatId == old(chatId)
      ensures reply.Replied? ==>
        var o := LastMessage.ApplyMetadata(LastMessage.FillOrAppend(old(transcript), reply.answer, now), reply.answer.meta, Some(question));
        transcript == (if uploads then StripBeforeLast(o.transcript) else o.transcript) &&
        saved == StripUploads(o.transcript) && !loading && userInput == "" &&
        chatId == (if LastMessage.Filled(reply.answer.meta.chatId) then reply.answer.meta.chatId.value else old(chatId)) && hasServiceError == old(hasServiceError) &&
        savedChatId == Storage.NextChatId(old(savedChatId), chatId)
      ensures reply.NoReply? ==>
        transcript == (if uploads then StripBeforeLast(old(transcript)) else old(transcript)) &&
        saved == (if uploads then StripUploads(old(transcript)) else old(saved)) &&
        loading == old(loading) && userInput == old(userInput) &&
        chatId == old(chatId) && hasServiceError == old(hasServiceError) &&
        savedChatId == (if uploads then Storage.NextChatId(old(savedChatId), chatId) else old(savedChatId))
      ensures HasTransferEntry(old(transcript)) ==> HasTransferEntry(transcript)
    {
      match reply {
        case ReplyFailed(_) =>
          HandleError();
          return;
        case Replied(a) =>
          MergeAnswer(a, question, now);
        case NoReply =>
      }
      if uploads {
        StripQuestionUploads();
      }
    }

    // ---- the stream ----

    /** `closeResponse`. */
    method CloseResponse()
      modifies this`loading, this`userInput
      ensures !loading && userInput == ""
    {
      loading := false;
      userInput := "";
    }

    /** `onerror` of the live stream: only errors other than cancellation and
      * the AutoFAQ marker set `hasServiceError`; the turn ends and so does the stream. */
    method StreamFailed(generation: nat, err: Sse.StreamError)
      requires Valid()
      modifies this`hasServiceError, this`loading, this`userInput, this`liveStream
      ensures Valid()
      ensures old(liveStream) != Some(generation) ==>
        hasServiceError == old(hasServiceError) && loading == old(loading) && userInput == old(userInput) && liveStream == old(liveStream)
      ensures old(liveStream) == Some(generation) ==>
        hasServiceError == (old(hasServiceError) || Sse.SetsServiceError(err)) && !loading && userInput == "" && liveStream == None
    {
      if liveStream != Some(generation) {
        return;
      }
      if Sse.SetsServiceError(err) {
        hasServiceError := true;
      }
      CloseResponse();
      liveStream := None;
    }

    /** `onopen` of the live stream: an event stream goes on; an AutoFAQ
      * answer ends the turn quietly; anything else is a service error. */
    method OpenStream(generation: nat, ok: bool, contentType: string, status: int, autofaqMode: bool, text: string)
      requires Valid()
      modifies this`hasServiceError, this`loading, this`userInput, this`liveStream
      ensures Valid()
      ensures
        var o := Sse.ClassifyOpen(ok, contentType, status, autofaqMode);
        if old(liveStream) != Some(generation) || o == Sse.Streamed then
          hasServiceError == old(hasServiceError) && loading == old(loading) && userInput == old(userInput) && liveStream == old(liveStream)
        else
          hasServiceError == (old(hasServiceError) || o.Failed?) && !loading && userInput == "" && liveStream == None
    {
      if liveStream != Some(generation) {
        return;
      }
      var o := Sse.ClassifyOpen(ok, contentType, status, autofaqMode);
      match o {
        case Streamed =>
        case AutofaqHandled =>
          CloseResponse();
          StreamFailed(generation, Sse.AutofaqMarker);
        case Failed(_) =>
          HandleError();
          StreamFailed(generation, Sse.OtherError(text));
      }
    }

    /** `onclose` of the live stream. */
    method CloseStream(generation: nat)
      requires Valid()
      modifies this`loading, this`userInput, this`liveStream
      ensures Valid()
      ensures old(liveStream) != Some(generation) ==>
        loading == old(loading) && userInput == old(userInput) && liveStream == old(liveStream)
      ensures old(liveStream) == Some(generation) ==> !loading && userInput == "" && liveStream == None
    {
      if liveStream == Some(generation) {
        CloseResponse();
        liveStream := None;
      }
    }

    /** `onmessage` of the live stream. The first token of the turn requests
      * the sound, once; the frame's updater rewrites the transcript. Frames of
      * a cancelled or finished stream change nothing. */
    method Deliver(generation: nat, ev: Sse.Event, now: int)
      modifies this`soundsPlayed, this`hasSoundPlayed, this`transcript, this`saved, this`savedChatId, this`chatId, this`hasServiceError, this`loading, this`userInput
      ensures old(liveStream) != Some(generation) ==>
        soundsPlayed == old(soundsPlayed) && hasSoundPlayed == old(hasSoundPlayed) && transcript == old(transcript) &&
        saved == old(saved) && savedChatId == old(savedChatId) && chatId == old(chatId) && hasServiceError == old(hasServiceError) &&
        loading == old(loading) && userInput == old(userInput)
      ensures old(liveStream) == Some(generation) ==>
        var e := Sse.Dispatch(old(transcript), ev, streamInput, now);
        transcript == e.transcript &&
        saved == (if e.persisted then StripUploads(e.transcript) else old(saved)) &&
        chatId == (if e.chatId.Some? then e.chatId.value else old(chatId)) &&
        savedChatId == (if ev.End? then Storage.NextChatId(old(savedChatId), streamChatId)
                        else if e.persisted then Storage.NextChatId(old(savedChatId), chatId) else old(savedChatId)) &&
        hasServiceError == (old(hasServiceError) || e.serviceError) &&
        loading == (if e.closes then false else old(loading)) &&
        userInput == (if e.closes then "" else old(userInput)) &&
        hasSoundPlayed == (old(hasSoundPlayed) || ev.Token?) &&
        soundsPlayed == (if ev.Token? && !old(hasSoundPlayed) then old(soundsPlayed) + 1 else old(soundsPlayed))
      ensures soundsPlayed <= old(soundsPlayed) + 1 && (old(hasSoundPlayed) ==> soundsPlayed == old(soundsPlayed))
      ensures HasTransferEntry(old(transcript)) ==> HasTransferEntry(transcript)
    {
      if liveStream != Some(generation) {
        return;
      }
      var e := Sse.Dispatch(transcript, ev, streamInput, now);
      FrameKeepsNotice(transcript, ev, streamInput, now);
      if ev.Token? && !hasSoundPlayed {
        soundsPlayed := soundsPlayed + 1;
        hasSoundPlayed := true;
      }
      ApplyEffect(e);
      if ev.End? {
        savedChatId := Storage.NextChatId(savedChatId, streamChatId);
      }
    }

    /** The outcome of one frame is written back. */
    method ApplyEffect(e: Sse.Effect)
      modifies this`transcript, this`saved, this`savedChatId, this`chatId, this`hasServiceError, this`loading, this`userInput
      ensures transcript == e.transcript
      ensures saved == (if e.persisted then StripUploads(e.transcript) else old(saved))
      ensures chatId == (if e.chatId.Some? then e.chatId.value else old(chatId))
      ensures savedChatId == (if e.persisted then Storage.NextChatId(old(savedChatId), chatId) else old(savedChatId))
      ensures hasServiceError == (old(hasServiceError) || e.serviceError)
      ensures loading == (if e.closes then false else old(loading))
      ensures userInput == (if e.closes then "" else old(userInput))
    {
      transcript := e.transcript;
      if e.chatId.Some? {
        chatId := e.chatId.value;
      }
      if e.persisted {
        Persist(e.transcript);
      }
      if e.serviceError {
        hasServiceError := true;
      }
      if e.closes {
        CloseResponse();
      }
    }

    // ---- AutoFAQ polling ----

    /** `startAutoFAQPolling`: a no-op while polling is on. */
    method StartPolling()
      requires Valid()
      modifies this`pollingActive, this`intervalSet
      ensures Valid() && pollingActive
    {
      if pollingActive {
        return;
      }
      pollingActive := true;
      intervalSet := true;
    }

    /** `stopAutoFAQPolling`: guarded by the interval handle, which always
      * agrees with the polling flag, so it always stops. */
    method StopPolling()
      requires Valid()
      modifies this`pollingActive, this`intervalSet
      ensures Valid() && !pollingActive
    {
      if intervalSet {
        intervalSet := false;
        pollingActive := false;
      }
    }

    /** A poll tick up to its request: without a chat id nothing happens;
      * otherwise the watermark moves to the newest eligible id. */
    method BeginPollTick() returns (step: PollStep)
      modifies this`watermark
      ensures chatId == "" ==> step == SkipTick && watermark == old(watermark)
      ensures chatId != "" ==>
        watermark == Polling.Advance(transcript, old(watermark)) &&
        step == Fetch(chatId, Polling.QueryWatermark(watermark))
    {
      if chatId == "" {
        return SkipTick;
      }
      watermark := Polling.Advance(transcript, watermark);
      step := Fetch(chatId, Polling.QueryWatermark(watermark));
    }

    /** A poll tick after its response: new records are merged in time order,
      * a closing phrase stops polling (the records are still merged), an
      * assistant record requests the sound, and the watermark advances. */
    method ReceivePoll(reply: PollReply, now: int)
      requires Valid()
      modifies this`pollingActive, this`intervalSet, this`soundsPlayed, this`transcript, this`saved, this`savedChatId, this`watermark
      ensures Valid()
      ensures
        var incoming := if reply.PollData? then Polling.NewMessages(old(transcript), Polling.NormalizeBody(reply.body), now) else [];
        if |incoming| == 0 then
          pollingActive == old(pollingActive) && soundsPlayed == old(soundsPlayed) &&
          transcript == old(transcript) && saved == old(saved) && savedChatId == old(savedChatId) && watermark == old(watermark)
        else
          var merged := Polling.Merge(old(transcript), incoming);
          transcript == merged && saved == StripUploads(merged) && savedChatId == Storage.NextChatId(old(savedChatId), chatId) &&
          watermark == Polling.Advance(merged, old(watermark)) &&
          pollingActive == (old(pollingActive) && !Polling.AnyClosing(incoming)) &&
          soundsPlayed == (if Polling.AnyAssistant(incoming) then old(soundsPlayed) + 1 else old(soundsPlayed))
      ensures HasTransferEntry(old(transcript)) ==> HasTransferEntry(transcript)
    {
      if reply.PollFailed? {
        return;
      }
      var records := Polling.NormalizeBody(reply.body);
      if |records| == 0 {
        return;
      }
      var incoming := Polling.NewMessages(transcript, records, now);
      if |incoming| == 0 {
        return;
      }
      MergeIncoming(incoming);
    }

    /** New poll messages enter the transcript. */
    method MergeIncoming(incoming: seq<Message>)
      requires Valid()
      modifies this`pollingActive, this`intervalSet, this`soundsPlayed, this`transcript, this`saved, this`savedChatId, this`watermark
      ensures Valid()
      ensures transcript == Polling.Merge(old(transcript), incoming) && saved == StripUploads(transcript)
      ensures savedChatId == Storage.NextChatId(old(savedChatId), chatId)
      ensures watermark == Polling.Advance(transcript, old(watermark))
      ensures pollingActive == (old(pollingActive) && !Polling.AnyClosing(incoming))
      ensures soundsPlayed == (if Polling.AnyAssistant(incoming) then old(soundsPlayed) + 1 else old(soundsPlayed))
      ensures HasTransferEntry(old(transcript)) ==> HasTransferEntry(transcript)
    {
      if Polling.AnyClosing(incoming) {
        StopPolling();
      }
      if Polling.AnyAssistant(incoming) {
        soundsPlayed := soundsPlayed + 1;
      }
      Absorb(incoming);
    }

    /** The merged transcript is saved and the watermark moves to its newest
      * AutoFAQ entry. */
    method Absorb(incoming: seq<Message>)
      modifies this`transcript, this`saved, this`savedChatId, this`watermark
      ensures transcript == Polling.Merge(old(transcript), incoming) && saved == StripUploads(transcript)
      ensures savedChatId == Storage.NextChatId(old(savedChatId), chatId)
      ensures watermark == Polling.Advance(transcript, old(watermark))
      ensures HasTransferEntry(old(transcript)) ==> HasTransferEntry(transcript)
    {
      var merged := Polling.Merge(transcript, incoming);
      MergeKeepsNotice(transcript, incoming);
      transcript, watermark := merged, Polling.Advance(merged, watermark);
      Persist(merged);
    }

    // ---- reset ----

    /** `clearChat`: polling off, the stream cancelled, the turn ended, the
      * stored history removed, a new chat id, and an empty transcript or a
      * lone lead form. The watermark and the error flag are kept. */
    method ClearChat(newChatId: string, leadsEnabled: bool, storedLead: bool)
      requires Valid()
      modifies this`pollingActive, this`intervalSet, this`liveStream, this`loading, this`userInput, this`saved, this`savedChatId, this`chatId, this`transcript
      ensures Valid()
      ensures transcript == (if leadsEnabled && !storedLead then [Basic(LeadCaptureMessage, "", None)] else [])
      ensures saved == [] && savedChatId == "" && !pollingActive && liveStream == None && !loading && userInput == "" && chatId == newChatId
    {
      StopPolling();
      liveStream := None;
      CloseResponse();
      saved, savedChatId := [], "";
      chatId := newChatId;
      transcript := if leadsEnabled && !storedLead then [Basic(LeadCaptureMessage, "", None)] else [];
    }

    // ---- action buttons ----

    /** An ordinary button: its label goes to the input, the buttons disappear. */
    method OrdinaryClick(b: BotView.Button, action: Option<Json.Value>) returns (next: NextStep)
      modifies this`userInput, this`transcript, this`saved, this`savedChatId
      ensures next == OrdinaryNext(b, action)
      ensures userInput == b.caption && transcript == ClearLastAction(old(transcript)) && saved == StripUploads(transcript)
      ensures savedChatId == Storage.NextChatId(old(savedChatId), chatId)
      ensures HasTransferEntry(old(transcript)) ==> HasTransferEntry(transcript)
    {
      userInput := b.caption;
      EditsKeepNotice(transcript);
      transcript := ClearLastAction(transcript);
      Persist(transcript);
      next := OrdinaryNext(b, action);
    }

    /** `handleActionClick` up to the transfer request: a handoff button asks
      * for the transfer and changes nothing yet. */
    method ActionClick(b: BotView.Button, action: Option<Json.Value>) returns (next: NextStep)
      modifies this`userInput, this`transcript, this`saved, this`savedChatId
      ensures BotView.IsOperatorHandoff(b) ==>
        next == AwaitTransfer(chatId, if b.caption != "" then b.caption else DefaultHandoffMessage) &&
        userInput == old(userInput) && transcript == old(transcript) && saved == old(saved) && savedChatId == old(savedChatId)
      ensures !BotView.IsOperatorHandoff(b) ==>
        next == OrdinaryNext(b, action) &&
        userInput == b.caption && transcript == ClearLastAction(old(transcript)) && saved == StripUploads(transcript) &&
        savedChatId == Storage.NextChatId(old(savedChatId), chatId)
      ensures HasTransferEntry(old(transcript)) ==> HasTransferEntry(transcript)
    {
      if BotView.IsOperatorHandoff(b) {
        return AwaitTransfer(chatId, if b.caption != "" then b.caption else DefaultHandoffMessage);
      }
      next := OrdinaryClick(b, action);
    }

    /** The transfer reply: success clears the buttons, appends the transfer
      * notice and schedules polling; failure shows the error; a reply with
      * neither falls through to the ordinary button handling. */
    method ReceiveTransfer(b: BotView.Button, action: Option<Json.Value>, reply: TransferReply, now: int) returns (next: NextStep)
      modifies this`transcript, this`saved, this`savedChatId, this`userInput, this`hasServiceError, this`loading
      ensures reply == Transferred ==>
        next == SchedulePolling &&
        transcript == ClearLastAction(old(transcript)) + [Basic(ApiMessage, TransferMessage, Some(now))] &&
        saved == StripUploads(transcript) && savedChatId == Storage.NextChatId(old(savedChatId), chatId) &&
        userInput == old(userInput) && hasServiceError == old(hasServiceError) && loading == old(loading)
      ensures reply == TransferFailed ==>
        next == NoStep && hasServiceError && !loading && userInput == "" &&
        transcript == old(transcript) && saved == old(saved) && savedChatId == old(savedChatId)
      ensures reply == TransferEmpty ==>
        next == OrdinaryNext(b, action) &&
        userInput == b.caption && transcript == ClearLastAction(old(transcript)) && saved == StripUploads(transcript) &&
        savedChatId == Storage.NextChatId(old(savedChatId), chatId) &&
        hasServiceError == old(hasServiceError) && loading == old(loading)
      ensures HasTransferEntry(old(transcript)) ==> HasTransferEntry(transcript)
      ensures reply == Transferred ==> HasTransferEntry(transcript)
    {
      match reply {
        case Transferred =>
          TransferIsSticky(transcript, now, [], Text(""), []);
          transcript := ClearLastAction(transcript) + [Basic(ApiMessage, TransferMessage, Some(now))];
          Persist(transcript);
          next := SchedulePolling;
        case TransferFailed =>
          HandleError();
          next := NoStep;
        case TransferEmpty =>
          next := OrdinaryClick(b, action);
      }
    }
  }

  // ---- the transfer notice stays ----

  /** An assistant entry that mentions the operator transfer. */
  predicate IsNoticeEntry(m: Message)
  {
    m.kind == ApiMessage && Strings.Contains(m.text, TransferNotice)
  }

  /** Entry `i` of `t` is a notice entry. */
  predicate NoticeAt(t: seq<Message>, i: int)
  {
    0 <= i < |t| && IsNoticeEntry(t[i])
  }

  /** Some assistant entry mentions the operator transfer. */
  predicate HasTransferEntry(t: seq<Message>)
  {
    exists i :: 0 <= i < |t| && NoticeAt(t, i)
  }

  /** `r` keeps every entry of `t` in place and of the same kind, and an
    * assistant entry's text can only grow. */
  predicate AnswersGrow(t: seq<Message>, r: seq<Message>)
  {
    |t| <= |r| &&
    forall i :: 0 <= i < |t| ==>
      r[i].kind == t[i].kind && (t[i].kind == ApiMessage ==> Strings.StartsWith(r[i].text, t[i].text))
  }

  /** An update that only grows the answers keeps the transfer notice. */
  lemma {:induction false} GrowthKeepsNotice(t: seq<Message>, r: seq<Message>)
    requires AnswersGrow(t, r)
    ensures HasTransferEntry(t) ==> HasTransferEntry(r)
  {
    if HasTransferEntry(t) {
      var i :| 0 <= i < |t| && NoticeAt(t, i);
      var s := t[i].text;
      assert r[i].text == "" + s + r[i].text[|s|..];
      Strings.ContainsWithin("", s, r[i].text[|s|..], TransferNotice);
      assert NoticeAt(r, i);
    }
  }

  lemma {:induction false} AnswersGrowTransitive(a: seq<Message>, b: seq<Message>, c: seq<Message>)
    requires AnswersGrow(a, b) && AnswersGrow(b, c)
    ensures AnswersGrow(a, c)
  {
    forall i | 0 <= i < |a| && a[i].kind == ApiMessage
      ensures Strings.StartsWith(c[i].text, a[i].text)
    {
      assert c[i].text[..|a[i].text|] == c[i].text[..|b[i].text|][..|a[i].text|];
    }
  }

  /** Appending entries, and clearing the last action or the question's upload
    * payloads, leave the answers in place. */
  lemma EditsGrow(t: seq<Message>, extra: seq<Message>)
    ensures AnswersGrow(t, t + extra)
    ensures AnswersGrow(t, StripBeforeLast(t))
    ensures AnswersGrow(t, ClearLastAction(t))
  {
  }

  /** An answer fills the empty placeholder or comes after everything. */
  lemma FillGrows(t: seq<Message>, a: LastMessage.Answer, now: int)
    ensures AnswersGrow(t, LastMessage.FillOrAppend(t, a, now))
  {
    if |t| > 0 && IsPlaceholder(LastMessage.Last(t)) {
      assert Strings.StartsWith(LastMessage.Last(LastMessage.FillOrAppend(t, a, now)).text, "");
    }
  }

  /** An answer's metadata rewrites ids, times and prompts, and the question's
    * text only on a user entry. */
  lemma MetadataGrows(t: seq<Message>, md: LastMessage.Metadata, input: Option<string>)
    ensures AnswersGrow(t, LastMessage.ApplyMetadata(t, md, input).transcript)
  {
    var t1 := LastMessage.MetaMessageId(t, md);
    var t2 := LastMessage.MetaQuestion(t1, md, input);
    var t3 := LastMessage.MetaFollowUps(t2, md);
    MessageIdGrows(t, md);
    QuestionGrows(t1, md, input);
    FollowUpsGrow(t2, md);
    AnswersGrowTransitive(t, t1, t2);
    AnswersGrowTransitive(t, t2, t3);
  }

  lemma MessageIdGrows(t: seq<Message>, md: LastMessage.Metadata)
    ensures AnswersGrow(t, LastMessage.MetaMessageId(t, md))
  {
    var r := LastMessage.MetaMessageId(t, md);
    if r != t {
      assert r[|t| - 1].text == t[|t| - 1].text;
    }
  }

  lemma QuestionGrows(t: seq<Message>, md: LastMessage.Metadata, input: Option<string>)
    ensures AnswersGrow(t, LastMessage.MetaQuestion(t, md, input))
  {
  }

  lemma FollowUpsGrow(t: seq<Message>, md: LastMessage.Metadata)
    ensures AnswersGrow(t, LastMessage.MetaFollowUps(t, md))
  {
    var r := LastMessage.MetaFollowUps(t, md);
    if r != t {
      assert r[|t| - 1].text == t[|t| - 1].text;
    }
  }

  /** The notice survives every edit a Session method makes directly. */
  lemma AppendKeepsNotice(t: seq<Message>, extra: seq<Message>)
    ensures HasTransferEntry(t) ==> HasTransferEntry(t + extra)
  {
    EditsGrow(t, extra);
    GrowthKeepsNotice(t, t + extra);
  }

  lemma EditsKeepNotice(t: seq<Message>)
    ensures HasTransferEntry(t) ==> HasTransferEntry(StripBeforeLast(t)) && HasTransferEntry(ClearLastAction(t))
  {
    EditsGrow(t, []);
    GrowthKeepsNotice(t, StripBeforeLast(t));
    GrowthKeepsNotice(t, ClearLastAction(t));
  }

  lemma FillKeepsNotice(t: seq<Message>, a: LastMessage.Answer, now: int)
    ensures HasTransferEntry(t) ==> HasTransferEntry(LastMessage.FillOrAppend(t, a, now))
  {
    FillGrows(t, a, now);
    GrowthKeepsNotice(t, LastMessage.FillOrAppend(t, a, now));
  }

  lemma MetadataKeepsNotice(t: seq<Message>, md: LastMessage.Metadata, input: Option<string>)
    ensures HasTransferEntry(t) ==> HasTransferEntry(LastMessage.ApplyMetadata(t, md, input).transcript)
  {
    MetadataGrows(t, md, input);
    GrowthKeepsNotice(t, LastMessage.ApplyMetadata(t, md, input).transcript);
  }

  lemma FrameKeepsNotice(t: seq<Message>, ev: Sse.Event, input: Option<string>, now: int)
    ensures HasTransferEntry(t) ==> HasTransferEntry(Sse.Dispatch(t, ev, input, now).transcript)
  {
    FrameGrows(t, ev, input, now);
    GrowthKeepsNotice(t, Sse.Dispatch(t, ev, input, now).transcript);
  }

  /** No stream frame shortens the transcript or takes text from an answer. */
  lemma FrameGrows(t: seq<Message>, ev: Sse.Event, input: Option<string>, now: int)
    ensures AnswersGrow(t, Sse.Dispatch(t, ev, input, now).transcript)
  {
    match ev
    case Token(text) =>
      TokenGrows(t, text, now);
    case Metadata(md) =>
      MetadataGrows(t, md, input);
    case _ =>
  }

  lemma TokenGrows(t: seq<Message>, text: string, now: int)
    ensures AnswersGrow(t, LastMessage.AppendToken(t, text, now))
  {
    var r := LastMessage.AppendToken(t, text, now);
    if |t| > 0 && text != "" && !LastMessage.LastIsUser(t) {
      assert LastMessage.Last(r).text == LastMessage.Last(t).text + text;
      assert LastMessage.Last(r).text[..|LastMessage.Last(t).text|] == LastMessage.Last(t).text;
    }
  }

  /** A poll merge reorders the entries but drops none, so the notice stays. */
  lemma MergeKeepsNotice(t: seq<Message>, incoming: seq<Message>)
    ensures HasTransferEntry(t) ==> HasTransferEntry(Polling.Merge(t, incoming))
  {
    if HasTransferEntry(t) {
      var i :| 0 <= i < |t| && NoticeAt(t, i);
      Polling.MergeSpec(t, incoming);
      var r := Polling.Merge(t, incoming);
      assert t[i] in multiset(t + incoming);
      assert t[i] in multiset(r);
      var j :| 0 <= j < |r| && r[j] == t[i];
      assert NoticeAt(r, j);
    }
  }

  /** Dropping the trailing placeholder keeps the notice: a placeholder has no text. */
  lemma PopKeepsNotice(t: seq<Message>)
    requires |t| > 0 && IsPlaceholder(t[|t| - 1])
    ensures HasTransferEntry(t) ==> HasTransferEntry(t[..|t| - 1])
  {
    if HasTransferEntry(t) {
      var i :| 0 <= i < |t| && NoticeAt(t, i);
      assert i != |t| - 1;
      assert NoticeAt(t[..|t| - 1], i);
    }
  }

  /** The transfer message itself carries the notice. */
  lemma NoticeInMessage()
    ensures Strings.Contains(TransferMessage, TransferNotice)
  {
    assert TransferMessage == TransferNotice + ". Ожидайте ответа...";
    assert Strings.StartsWith(TransferMessage, TransferNotice);
  }

  /** After a successful transfer the transcript holds the notice as an
    * assistant entry; while it does, `handleSubmit` sees the transfer, so the
    * next question (whatever the user types) goes to the operator. */
  lemma TransferIsSticky(t: seq<Message>, now: int, later: seq<Message>, v: Input, previews: seq<Preview>)
    ensures HasTransferEntry(ClearLastAction(t) + [Basic(ApiMessage, TransferMessage, Some(now))])
    ensures HasTransferEntry(later) ==> HasTransferNotice(later + [UserEntry(v, previews, now)])
  {
    var u := ClearLastAction(t) + [Basic(ApiMessage, TransferMessage, Some(now))];
    var i := |ClearLastAction(t)|;
    assert u[i].text == TransferMessage;
    NoticeInMessage();
    assert NoticeAt(u, i);
    if HasTransferEntry(later) {
      var j :| 0 <= j < |later| && NoticeAt(later, j);
      assert (later + [UserEntry(v, previews, now)])[j] == later[j];
      assert MentionsTransfer(later + [UserEntry(v, previews, now)], j);
    }
  }
}
