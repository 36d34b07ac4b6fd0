# OsmiAIChatEmbed, modelled in Dafny

OsmiAIChatEmbed is an embeddable chat widget for a conversational-AI backend,
written in SolidJS, together with a small Express proxy. Each turn of the
conversation goes out over one of three paths: a Server-Sent-Events token
stream, a one-shot request, or, once the chat has been handed to a human
operator, a request whose answers arrive later through a polling loop.

This project models the widget's message-delivery state machine and the
smaller components around it. It proves that each model does what the
source promises.

| file | module | what it models |
|---|---|---|
| `wrappers.dfy` | `Wrappers` | `Option` and `Result` |
| `strings.dfy` | `Strings` | the JavaScript string operations the source relies on: `trim`, `split`, `join`, `includes`, `toLowerCase`, number rendering |
| `json.dfy` | `Json` | decoded JSON values and JavaScript truthiness |
| `messages.dfy` | `Messages` | the transcript entry (`MessageType`), its identifiers and the upload stripping done before persistence |
| `lastmessage.dfy` | `LastMessage` | the `setMessages` updaters of `Bot.tsx`: the token, the side-channel setters, `abortMessage`, `updateMetadata` and the answer merge |
| `sse.dfy` | `Sse` | the stream frames, the `onopen`/`onerror` classification and the frame dispatch |
| `polling.dfy` | `Polling` | the AutoFAQ poll tick: response normalisation, de-duplication, mapping, the stable time sort and the watermark |
| `botview.dfy` | `BotView` | the pure helpers of `Bot.tsx`: `isOperatorConnected`, `getInputDisabled`, the date divider, the form text, the feedback question, the handoff predicate, history restore and the greeting |
| `session.dfy` | `Bot` | class `Session`, the `Bot.tsx` state machine: submit routing, the stream callbacks, polling start/stop/tick, `clearChat` and the operator handoff |
| `storage.dfy` | `Storage` | `src/utils/index.ts`: the per-chatflow `localStorage` record, `getCookie`, `getBubbleButtonSize`, `isEmpty`/`isNotEmpty` |
| `proxygate.dfy` | `ProxyGate` | `server.js`: `parseChatflows`, `getChatflowDetails`, `isValidUUID`, `isValidDomain` and the `validateApiKey` gate |
| `botbubble.dfy` | `BotBubble` | the per-bubble feedback state, the stored-rating update, `removeDuplicateURL` and `getContainerClasses` |
| `feedbackdialog.dfy` | `FeedbackDialog` | the feedback dialog: reasons, word count, submit rule and final text |
| `inputrules.dfy` | `InputRules` | `getFileType` and the key events, both shared by the two inputs |
| `sendarea.dfy` | `SendArea` | the full-page send area: character limit, submit guard, keys, send-button rule |
| `textinput.dfy` | `TextInput` | the popup text input: the same handlers with its own limit rule |
| `bubble.dfy` | `Bubble` | the chat window's open/started/fullscreen/transitioning machine and its offsets |

## How the model is shaped

Code that keeps state becomes a class whose methods update its fields:
`Bot.Session`, `Storage.LocalStore`, `ProxyGate.Exchange`,
`BotBubble.FeedbackState`, `FeedbackDialog.Dialog`, `SendArea.Area`,
`TextInput.Field` and `Bubble.ChatWindow`. Loops in the source are
methods with loops, each proved against a specification function:
`ParseChatflows`, `GetChatflowDetails`, `GetCookie`, `RemoveDuplicateURL`
and `ChatWindow.Settle`.

Asynchronous handlers are split at their `await`s. The part before the
request is one method. The part after it is another method, which is
given the response. Examples are `Session.Submit` then
`ReceiveSyncAnswer`/`ReceiveHandoffAnswer`, `BeginPollTick` then
`ReceivePoll`, and `ActionClick` then `ReceiveTransfer`.

The `AbortController` of the live stream is a generation number. Starting a
stream takes a fresh generation. Callbacks of any other generation change
nothing, which is how an aborted `fetchEventSource` behaves.

Timers are explicit steps:
- The chat window's timeouts are a queue of pending callbacks. `Fire` runs
  any one of them and `Settle` runs them all in order.
- A poll tick is a method call.

Timestamps are integers, and a missing one sorts as 0. Network answers,
`reportValidity()`, the input history's answers and the clock are
parameters. The receive sound is a counter.

The source is modelled as written, including these behaviours:
- `server.js` takes the identifier from `pathParts[3]` once there are at
  least three segments, so a path of exactly three segments is always
  rejected with 400 (`ProxyGate.ThreeSegmentsRejected`).
- A poll record is admitted by `id || messageId`, but the mapped entry takes
  both identifiers from `id` alone. Records that carry only `messageId` are
  therefore added again on every tick (`Polling.MessageIdOnlyRecordsRepeat`).
  When every record carries `id`, a repeated tick adds nothing
  (`Polling.RepeatedTickAddsNothing`).
- A one-shot (non-streamed) submission does not abort a live stream. Only a
  new streamed submission (`src/components/Bot.tsx:1045-1049`) and
  `clearChat` (`src/components/Bot.tsx:1814-1847`) abort it.
- A transfer notice typed by the user also routes later questions to the
  operator, since the routing test reads every entry's text. The notice that a
  successful transfer appends is an assistant entry, and only that kind of
  entry is proved to survive every later update (`Bot.TransferIsSticky`).
- `clearChat` does not reset the polling watermark.
- `saveToLocalStorage` compares `messageId` only. An entry without one
  matches a bubble without one (`undefined === undefined`).
- With an empty configured warning, an over-limit value in the send area
  holds the button disabled, yet Enter still submits
  (`SendArea.HeldDisabledBlocksSubmit` states the non-empty case).
- Two `toggleFullscreen` calls within 200 ms both aim at the same target, so
  the window flips once (`Bubble.ToggleSettles`).

## Model

| member | source | states |
|---|---|---|
| Messages.KindOf | src/components/Bot.tsx:685 | a role string maps to the matching message kind, and to no known kind exactly when it is none of the four names |
| Messages.Key | src/components/Bot.tsx:661-665 | `messageId \|\| id`: a non-empty `messageId` wins; otherwise a non-empty `id`; none exactly when both are missing or empty |
| Messages.StripAll | src/components/Bot.tsx:771-784 | every upload loses its data payload, in place and in order |
| Messages.StripUploads | src/components/Bot.tsx:771-784 | persisting keeps the transcript's length |
| Messages.StripUploadsKeeps | src/components/Bot.tsx:771-784 | only the uploads' data payloads change; every other field of every entry and every upload's type, name and mime are kept |
| Messages.StripMessageIdempotent | src/components/Bot.tsx:771-784 | stripping one entry twice is stripping it once |
| Messages.StripUploadsIdempotent | src/components/Bot.tsx:771-784 | stripping a transcript twice is stripping it once |
| Messages.StripUploadsAbsorbs | src/components/Bot.tsx:1661-1680 | stripping the question's uploads early does not change what is stored |
| LastMessage.MapLast | src/components/Bot.tsx:814-825 | `data.map((item, i) => i === length - 1 ? f(item) : item)` changes only the last entry, which becomes `f` of the old one |
| LastMessage.MapLastUnlessUser | src/components/Bot.tsx:827-835 | the guarded updaters leave an empty transcript or one ending in a user entry unchanged, and otherwise change only the last entry |
| LastMessage.AppendTokenEffect | src/components/Bot.tsx:786-799 | a token is a no-op on a user entry or when empty; otherwise only the last entry changes: its text is extended, its rating cleared, and a time is set only where none was |
| LastMessage.TokensConcatenate | src/components/Bot.tsx:786-799 | streaming `a` then `b` gives the transcript that streaming `a + b` gives |
| LastMessage.UnconditionalSetters | src/components/Bot.tsx:814-925 | the source-documents, agent-reasoning and action setters change exactly their field of the last entry |
| LastMessage.GuardedSetters | src/components/Bot.tsx:827-894 | the used-tools, file-annotations, executed-data and artifacts setters skip a last user entry and otherwise change exactly their field of the last entry |
| LastMessage.AgentFlowEvent | src/components/Bot.tsx:860-874 | 'INPROGRESS' appends one empty assistant entry carrying the status; any other status is written on the last entry unless it is the user's |
| LastMessage.NormalizeButton | src/components/Bot.tsx:908-912 | an AutoFAQ button becomes an element with only `type`, `label` and `value`: the type is the button's truthy `type`, else 'button'; the label is the first truthy of `text`, `label`, `value`, else 'Кнопка'; the value is the button's own, present exactly when the button has one |
| LastMessage.NormalizeActionShape | src/components/Bot.tsx:905-916 | a buttons action loses `buttons` and gains one labelled element per button, in order, keeping every other key |
| LastMessage.NormalizeActionIdempotent | src/components/Bot.tsx:905-916 | normalising an action twice is normalising it once |
| LastMessage.WithoutHandover | src/components/Bot.tsx:1245-1248 | the kept reasoning entries are exactly those without `nextAgent` |
| LastMessage.WithoutHandoverFilter | src/components/Bot.tsx:1247 | the `.filter` keeps order and repeats: it distributes over concatenation, and a single entry is kept exactly when it has no `nextAgent` |
| LastMessage.AbortReasoning | src/components/Bot.tsx:1240-1251 | `abortMessage` changes only the reasoning of the last non-user entry, which keeps exactly its entries without `nextAgent`, in their order (`WithoutHandoverFilter`) |
| LastMessage.MetaMessageId | src/components/Bot.tsx:971-984 | the message id step changes at most the last entry, keeps every kind, and changes something only for a filled `chatMessageId` |
| LastMessage.MetaQuestion | src/components/Bot.tsx:986-999 | the question step changes at most the entry before last, and only for an empty input, a filled question and a non-assistant entry |
| LastMessage.MetaFollowUps | src/components/Bot.tsx:1001-1010 | the follow-up step changes at most the last entry, and only when prompts are given and the entry is not the user's |
| LastMessage.ApplyMetadata | src/components/Bot.tsx:965-1011 | `updateMetadata` keeps the length and every kind, touches only the last two entries, adopts a chat id exactly when one is given, and persists whenever it changes the transcript |
| LastMessage.MetadataTargets | src/components/Bot.tsx:965-1011 | a server message id lands on a last assistant entry; the echoed question replaces the user's text only for an empty input |
| LastMessage.FillOrAppend | src/components/Bot.tsx:1505-1539 | the answer ends the transcript as an assistant entry with its text and id; an empty assistant entry at the end is overwritten in place, otherwise one entry is appended |
| LastMessage.AnswerAddsAtMostOne | src/components/Bot.tsx:1604-1637 | an answer adds at most one assistant entry and none when it fills the placeholder |
| Sse.ClassifyOpenCases | src/components/Bot.tsx:1063-1138 | only an ok event-stream response streams; an ok JSON body with `autofaqMode` closes the turn; everything else fails, with 429 and 401 named |
| Sse.Thrown | src/components/Bot.tsx:1063-1138 | `onopen` throws nothing exactly for a stream, and the AutoFAQ marker exactly for an AutoFAQ answer |
| Sse.OpeningServiceError | src/components/Bot.tsx:1195-1227 | an opening sets the service error through `onerror` exactly when it failed; the AutoFAQ marker and an abort never do |
| Sse.Dispatch | src/components/Bot.tsx:1139-1191 | a token appends to the last answer; only an error frame sets the service error; only abort and end close the turn; only metadata adopts a chat id; every frame but metadata and agent-flow events changes only the last entry |
| Sse.RunTokensConcat | src/components/Bot.tsx:1145-1151 | a run of tokens on an assistant entry changes only that entry, whose text grows by their concatenation |
| Polling.NormalizeBody | src/components/Bot.tsx:649-658 | an array is the list; an object's `data` or else `messages` array is the list; any other object is a one-record list |
| Polling.NormalizeBodyAgrees | src/components/Bot.tsx:649-658 | the `data`, `messages` and bare-array shapes carry the same records |
| Polling.NewRecords | src/components/Bot.tsx:678-682 | every kept record is a record of the response whose `id \|\| messageId` is present and not yet known, and every such record is kept |
| Polling.NewRecordsFilter | src/components/Bot.tsx:678-682 | the selection is `filter`: it distributes over concatenation and keeps a single record exactly when it is new, so the kept records keep the response's order and repeats |
| Polling.MapRecords | src/components/Bot.tsx:683-696 | each kept record maps to one entry, in order |
| Polling.Insert | src/components/Bot.tsx:721-726 | inserting adds exactly one entry and keeps the rest |
| Polling.Sort | src/components/Bot.tsx:721-726 | sorting is a permutation |
| Polling.InsertSorted | src/components/Bot.tsx:721-726 | inserting into a sorted transcript keeps it sorted by time |
| Polling.SortSorted | src/components/Bot.tsx:721-726 | the sort's result is sorted by time |
| Polling.InsertWithKey | src/components/Bot.tsx:721-726 | an insertion goes before every entry of equal time that was already there |
| Polling.SortWithKey | src/components/Bot.tsx:721-726 | the sort is stable: entries of equal time keep their order |
| Polling.MergeSpec | src/components/Bot.tsx:718-727 | a merge has length old + new, is a permutation of old ++ new, is sorted, and keeps old-then-new order among equal times |
| Polling.Newest | src/components/Bot.tsx:623-633 | the newest eligible entry, first among equal times; none exactly when no entry is eligible |
| Polling.Advance | src/components/Bot.tsx:623-637 | the watermark becomes the id of a newest-dated entry whose id does not start with `transfer-`, and stays when there is none |
| Polling.KnownIdsGrow | src/components/Bot.tsx:661-665 | a transcript that keeps every entry knows at least the same ids |
| Polling.MapRecordKey | src/components/Bot.tsx:686-687 | a record carrying `id` maps to an entry with that identifier |
| Polling.RepeatedTickAddsNothing | src/components/Bot.tsx:678-696 | a second tick against the same records, all carrying `id`, adds nothing |
| Polling.MessageIdOnlyRecordsRepeat | src/components/Bot.tsx:680-687 | a record with only `messageId` is added again by the next tick |
| BotView.ScanOperatorsSpec | src/components/Bot.tsx:402-404 | the annotation scan finds an operator entry exactly when one precedes any `null` entry |
| BotView.OperatorConnectedLastOnly | src/components/Bot.tsx:392-413 | `isOperatorConnected` depends only on the last entry |
| BotView.OperatorAnnotationConnects | src/components/Bot.tsx:392-413 | an operator annotation on the last entry, reached by the scan, connects the operator |
| BotView.ClearedActionUnlocks | src/components/Bot.tsx:2348-2361 | a pending action disables the input; clearing the last action leaves only loading, a missing chatflow or an unsaved lead |
| BotView.DividerOncePerDay | src/components/Bot.tsx:2523-2535 | in a time-ordered transcript no later entry of the same day shows a divider |
| BotView.DividerAtFirstOfDay | src/components/Bot.tsx:2523-2535 | the first dated entry of each day shows a divider |
| BotView.FormLines | src/components/Bot.tsx:1342-1343 | each form field becomes one `key: value` line, in order |
| BotView.FormToTextLines | src/components/Bot.tsx:1340-1345 | splitting the form text on newlines gives back its lines |
| BotView.CapitalizeOnlyFirst | src/components/Bot.tsx:1688 | capitalising keeps the length, changes only the first character, and agrees ignoring case |
| BotView.DecisionQuestions | src/components/Bot.tsx:1683-1694 | given feedback is sent as the question; without it the decision is sent capitalised, so 'Proceed' or 'Reject' |
| BotView.HandoffIgnoresCase | src/components/Bot.tsx:1709-1713 | the handoff test does not depend on the label's case |
| BotView.Restore | src/components/Bot.tsx:1939-1967 | restoring gives no more entries than stored, none of them a lead-capture entry, each with a time and no `id`, and rebuilds every entry that is not a lead capture |
| BotView.RestoreFilter | src/components/Bot.tsx:1939-1967 | restoring works entry by entry in stored order: it distributes over concatenation, drops a lead-capture entry and rebuilds any other in place |
| BotView.RestoreEntryIdempotent | src/components/Bot.tsx:1941-1962 | restoring an entry twice is restoring it once |
| BotView.RestoreIdempotent | src/components/Bot.tsx:1939-1967 | restoring a history twice is restoring it once |
| BotView.GreetingCases | src/components/Bot.tsx:1887-1899 | the guest gets the plain greeting, any other non-empty full name is greeted by name, and with nothing given the default assistant text follows the plain greeting |
| Bot.UploadsOf | src/components/Bot.tsx:1350-1357 | one upload per preview |
| Bot.UserEntry | src/components/Bot.tsx:1368-1375 | the submission's own entry is a user entry and never a placeholder |
| Bot.StripBeforeLast | src/components/Bot.tsx:1661-1680 | only the entry before last changes, and stores as it did |
| Bot.Session.constructor | src/components/Bot.tsx:385-439 | the session starts with an empty transcript, nothing stored, polling off, no stream, no watermark, not loading and no error |
| Bot.Session.Restore | src/components/Bot.tsx:1931-1968 | a stored entry with any key restores its history without lead-capture entries and its chat id when filled, and the stored chat id is known; otherwise nothing changes |
| Bot.Session.SetStreamAvailable | src/components/Bot.tsx:1977-1979 | streaming is available exactly when the probe says so |
| Bot.Session.Greet | src/components/Bot.tsx:1877-1902 | an empty transcript gets exactly the greeting once user data is loaded; a transfer notice already shown stays |
| Bot.Session.Persist | src/components/Bot.tsx:771-784 | `addChatMessage` stores the history without upload payloads, under the current chat id unless that is empty |
| Bot.Session.AppendQuestion | src/components/Bot.tsx:1347-1375 | the user entry is appended and saved, and loading starts, under the current chat id; a transfer notice already shown stays |
| Bot.Session.BeginStream | src/components/Bot.tsx:1577-1581 | a fresh stream generation takes over, a placeholder is appended and the sound is re-armed; the request's chat id is kept for the end frame; a transfer notice already shown stays |
| Bot.Session.Submit | src/components/Bot.tsx:1331-1446 | an empty text without image or audio previews is ignored; otherwise the user entry is appended and saved, and the route is the sync request when a transfer notice exists or polling is on, else the stream when available, else the sync request, each adding one placeholder; a transfer notice already shown stays |
| Bot.Session.Ask | src/components/Bot.tsx:1339-1446 | a question that is not ignored is appended and saved under the current chat id, then routed as `Routed` says, with the handoff decided on the transcript that now holds it; a transfer notice already shown stays |
| Bot.Session.ChooseRoute | src/components/Bot.tsx:1438-1585 | a handed-off chat goes to the sync endpoint and never to the stream; otherwise the stream when available, else the sync request; a transfer notice already shown stays |
| Bot.Session.AddPlaceholder | src/components/Bot.tsx:1452-1461 | the handoff path adds a placeholder unless the transcript already ends with one; a transfer notice already shown stays |
| Bot.Session.AwaitSync | src/components/Bot.tsx:1583-1585 | the sync path appends a placeholder and re-arms the sound; a transfer notice already shown stays |
| Bot.Session.MergeAnswer | src/components/Bot.tsx:1597-1644 | the answer is merged, then its metadata applied and saved; the turn ends; a filled chat id in the reply is adopted before the first save, so every save of the turn is stored under the adopted id; a transfer notice already shown stays |
| Bot.Session.FillAnswer | src/components/Bot.tsx:1604-1637 | the answer overwrites the empty assistant entry at the end or is appended, and the result is saved under the current chat id; a transfer notice already shown stays |
| Bot.Session.ApplyAnswerMetadata | src/components/Bot.tsx:965-1011 | with the merged answer just saved, `updateMetadata` rewrites the transcript and, when it changes it, saves it again, so the stored entry is still the transcript under the same chat id; a transfer notice already shown stays |
| Bot.Session.MergeAndStrip | src/components/Bot.tsx:1503-1546 | the merge of a direct answer in the handoff turn, then the question's upload payloads dropped on screen; the stored entry is the merged transcript under the adopted chat id; a transfer notice already shown stays |
| Bot.Session.HandleError | src/components/Bot.tsx:934-949 | the service error shows and the turn ends |
| Bot.Session.StripQuestionUploads | src/components/Bot.tsx:1661-1680 | the question's upload payloads are dropped after the request, and the history is saved again; a transfer notice already shown stays |
| Bot.Session.AcceptAutofaq | src/components/Bot.tsx:1473-1490 | an AutoFAQ answer pops the placeholder, ends the turn and turns polling on; a transfer notice already shown stays |
| Bot.Session.ReceiveHandoffAnswer | src/components/Bot.tsx:1463-1576 | the handoff reply: a failure shows the error; an AutoFAQ answer pops the placeholder and starts polling; any other answer stops polling and is merged, stored under the reply's chat id when it carries one; a transfer notice already shown stays |
| Bot.Session.AcceptAnswer | src/components/Bot.tsx:1491-1546 | a direct answer in a handed-off chat stops polling and is merged like a sync answer, stored under the adopted chat id; a transfer notice already shown stays |
| Bot.Session.ReceiveSyncAnswer | src/components/Bot.tsx:1587-1659 | the sync reply: an answer is merged with its metadata, stored under the adopted chat id, and ends the turn; a failure shows the error and keeps the transcript; a transfer notice already shown stays |
| Bot.Session.CloseResponse | src/components/Bot.tsx:1231-1238 | the turn ends and the input clears |
| Bot.Session.StreamFailed | src/components/Bot.tsx:1195-1227 | an error of the live stream ends the turn and sets the service error unless it is an abort or the AutoFAQ marker; one of an old stream changes nothing |
| Bot.Session.OpenStream | src/components/Bot.tsx:1063-1138 | the live stream's opening either streams, ends the turn quietly for AutoFAQ, or ends it with the service error |
| Bot.Session.CloseStream | src/components/Bot.tsx:1192-1194 | closing the live stream ends the turn; closing an old one changes nothing |
| Bot.Session.Deliver | src/components/Bot.tsx:1139-1191 | a frame of the live stream is dispatched and saved; the first token of a turn plays the sound, so it plays at most once per turn; frames of an old stream change nothing; the end frame stores the chat id the request was sent with; a transfer notice already shown stays |
| Bot.Session.ApplyEffect | src/components/Bot.tsx:1139-1191 | a frame's outcome is written back: transcript, save, chat id, error and turn end; a save happens after the chat id is adopted |
| Bot.Session.StartPolling | src/components/Bot.tsx:611-613 | polling is on afterwards, whether or not it already was |
| Bot.Session.StopPolling | src/components/Bot.tsx:754-760 | stopping leaves polling off |
| Bot.Session.BeginPollTick | src/components/Bot.tsx:615-645 | without a chat id the tick does nothing; otherwise the watermark advances and the request carries it only when non-empty |
| Bot.Session.ReceivePoll | src/components/Bot.tsx:647-743 | new records are merged in time order and saved, a closing phrase stops polling while its record is still merged, an assistant record plays the sound once, and the watermark advances; no new record changes nothing; a transfer notice already shown stays |
| Bot.Session.MergeIncoming | src/components/Bot.tsx:698-740 | the merge, the closing-phrase stop, the sound and the watermark of a tick with new messages; a transfer notice already shown stays |
| Bot.Session.Absorb | src/components/Bot.tsx:718-740 | the merged transcript is saved and the watermark moves to its newest eligible id; a transfer notice already shown stays |
| Bot.Session.ClearChat | src/components/Bot.tsx:1814-1847 | polling stops, the stream is aborted, the turn ends, a new chat id is taken, and the transcript is empty or one lead form; the stored history and chat id are removed |
| Bot.OrdinaryNextCases | src/components/Bot.tsx:1786-1811 | a button without a type asks for nothing after the save (its `type.includes` throws); any other non-agentflow button submits its label; an agentflow decision opens the comment dialog when asked, otherwise submits 'Proceed' or 'Reject' when there is an action, and nothing without one |
| Bot.Session.OrdinaryClick | src/components/Bot.tsx:1786-1811 | an ordinary button puts its label in the input, clears the last action and saves; a transfer notice already shown stays |
| Bot.Session.ActionClick | src/components/Bot.tsx:1707-1715 | a handoff button asks for the transfer and changes nothing yet; any other button is an ordinary click; a transfer notice already shown stays |
| Bot.Session.ReceiveTransfer | src/components/Bot.tsx:1744-1784 | a transfer clears the buttons, appends the transfer notice and schedules polling; a failure shows the error and ends the turn; an empty answer falls back to an ordinary click; after a transfer the transcript holds the notice; a transfer notice already shown stays |
| Bot.TransferIsSticky | src/components/Bot.tsx:1438-1443 | a successful transfer leaves the notice as an assistant entry, and while such an entry is present every next question is routed to the operator |
| Bot.GrowthKeepsNotice | src/components/Bot.tsx:1438-1443 | an update that keeps every entry in place and only extends assistant texts keeps the transfer notice |
| Bot.AnswersGrowTransitive | src/components/Bot.tsx:1438-1443 | two such updates in a row are one such update |
| Bot.EditsGrow | src/components/Bot.tsx:1347-1375 | appending entries, clearing the last action and dropping the question's upload payloads keep every entry in place |
| Bot.FillGrows | src/components/Bot.tsx:1505-1539 | an answer fills the empty placeholder or is appended, so no earlier text is lost |
| Bot.MetadataGrows | src/components/Bot.tsx:965-1011 | `updateMetadata` rewrites no assistant text |
| Bot.FrameGrows | src/components/Bot.tsx:1139-1191 | no stream frame shortens the transcript or takes text from an assistant entry |
| Bot.MergeKeepsNotice | src/components/Bot.tsx:718-727 | a poll merge reorders the entries but keeps the transfer notice |
| Bot.PopKeepsNotice | src/components/Bot.tsx:1473-1480 | dropping the trailing placeholder keeps the transfer notice |
| Storage.EmptyComplement | src/utils/index.ts:1-7 | `isEmpty` and `isNotEmpty` are complements, and a non-empty value is defined |
| Storage.Lookup | src/utils/index.ts:107-109 | an entry is found exactly when it is stored and not the empty string |
| Storage.WithChatId | src/utils/index.ts:91-92 | the saved object gains `chatId` exactly when the chat id is non-empty |
| Storage.AfterSet | src/utils/index.ts:89-105 | no entry stores the object; a parsed entry is shallow-merged with the object winning; an unparseable one becomes the object with the raw text as `chatId` |
| Storage.SetThenGet | src/utils/index.ts:89-115 | reading after writing gives every saved key, the chat id as the write decided, and every earlier key |
| Storage.StoredChatIdRules | src/utils/index.ts:89-133 | writing a history over a missing or parseable entry stores a non-empty chat id and otherwise keeps the stored one; clearing such an entry leaves no chat id |
| Storage.RemoveKeepsOnlyLead | src/utils/index.ts:117-133 | clearing keeps only a truthy `lead`, leaves a missing or unparseable entry alone, and touches no other key |
| Storage.LocalStore.SetChatflow | src/utils/index.ts:89-105 | `setLocalStorageChatflow` writes the merged entry under the chatflow's key |
| Storage.LocalStore.GetChatflow | src/utils/index.ts:107-115 | `getLocalStorageChatflow` gives the parsed entry, or `{}` |
| Storage.LocalStore.RemoveChatHistory | src/utils/index.ts:117-133 | `removeLocalStorageChatHistory` replaces the entry as `AfterRemove` says |
| Storage.ButtonSizeRules | src/utils/index.ts:135-142 | undefined and 0 give 48, any other number itself; small is below medium, medium below large, and every other name gives 48 as medium does |
| Storage.DropSpaces | src/utils/index.ts:164-167 | the loop drops exactly the leading spaces |
| Storage.CookieInRules | src/utils/index.ts:162-172 | the first segment naming the cookie gives its value; no such segment gives '' |
| Storage.GetCookie | src/utils/index.ts:158-173 | `getCookie` scans the ';' segments as `CookieIn` says, '' without a cookie string |
| ProxyGate.Candidates | server.js:48-61 | exactly the environment entries whose names pass the prefix and reserved-name filter |
| ProxyGate.EnvGet | server.js:48 | a variable's value is found exactly when it is set |
| ProxyGate.Parts | server.js:71 | a value split on ',' with each part trimmed, at least one part |
| ProxyGate.Find | server.js:105 | `Map.get` finds the flow stored under a key, none exactly when the key is absent |
| ProxyGate.PutFind | server.js:87 | after `set`, `get` answers the new flow for its key and the old flow for every other key |
| ProxyGate.PutEntries | server.js:87 | `set` replaces the entry of its key or adds one, and keeps keys distinct |
| ProxyGate.ParseChatflows | server.js:43-100 | the loop builds the table or fails, exactly as the specification function `Parse` |
| ProxyGate.BuildDistinct | server.js:70-88 | a built table lists each identifier once |
| ProxyGate.BuildEntries | server.js:70-88 | every entry is an admissible flow read from its own variable |
| ProxyGate.BuildComplete | server.js:70-88 | every admissible variable has an entry |
| ProxyGate.ParseEntries | server.js:43-100 | a parsed table has distinct keys, only filtered names with admissible flows from their own values, and an entry for every admissible candidate |
| ProxyGate.BuildEmpty | server.js:90-93 | the table is empty exactly when no variable is admissible |
| ProxyGate.ParseNoCandidates | server.js:63-66 | parsing fails for lack of configurations exactly when no name passes the filter |
| ProxyGate.ParseNoneAdmissible | server.js:77-93 | parsing fails for lack of valid configurations exactly when there are candidates and none is admissible |
| ProxyGate.FlowDomains | server.js:68-75 | the defaults come first, each domain once, and a domain is listed exactly when it is a default or a configured part |
| ProxyGate.WildcardRejected | server.js:82-85 | a '*' domain always drops the flow |
| ProxyGate.FindFoldedFirst | server.js:107-115 | the case-insensitive scan answers the first matching key, none exactly when no key matches |
| ProxyGate.DetailsRules | server.js:104-121 | an exact key wins, else the first case-insensitive match; the lookup fails exactly when no key matches ignoring case |
| ProxyGate.GetChatflowDetails | server.js:104-121 | the lookup loop answers as `Details` |
| ProxyGate.UUIDGroups | server.js:123-126 | a valid UUID is 36 characters of five hex groups joined by dashes |
| ProxyGate.FiveGroupsColumns | server.js:124 | the five groups, read column by column |
| ProxyGate.UUIDLayout | server.js:123-126 | exactly the 36-character strings with dashes at columns 8, 13, 18 and 23 and hex digits of either case elsewhere |
| ProxyGate.GroupSize | server.js:124 | a match of the groups has their lengths plus one dash between each pair |
| ProxyGate.Normalize | server.js:145-148 | a normalised origin has no ':' |
| ProxyGate.NoScheme | server.js:146 | text without a slash keeps its front |
| ProxyGate.SchemeStripped | server.js:146 | a leading `http://` or `https://` is stripped and nothing more |
| ProxyGate.HostPort | server.js:147-148 | `host[:port]` has no slash to strip and splits on ':' to the host |
| ProxyGate.NormalizeHost | server.js:145-154 | `[scheme://]host[:port][/]` normalises to the host |
| ProxyGate.NoOriginAllowed | server.js:142 | an absent or empty origin is allowed |
| ProxyGate.SameHostAllowed | server.js:156-159 | an origin on the server's own host is allowed on any scheme and port, whatever the domains |
| ProxyGate.SubdomainAllowed | server.js:161-164 | a subdomain of the server's host is allowed whatever the domains |
| ProxyGate.NoHostListOnly | server.js:149-167 | without a host header only an empty origin or one listed verbatim is allowed |
| ProxyGate.NonEmpty | server.js:227 | `.filter(Boolean)` keeps exactly the non-empty segments |
| ProxyGate.Exchange.ValidateApiKey | server.js:204-274 | the handler attaches the flow, forwards or answers with a status, exactly as the specification function `Gate` |
| ProxyGate.ExemptPasses | server.js:206-224 | allow-listed paths and OPTIONS pass without a lookup |
| ProxyGate.ThreeSegmentsRejected | server.js:226-237 | a path of exactly three segments has no identifier and gets 400 |
| ProxyGate.FourthSegmentNames | server.js:227-230 | a path of four or more segments names the flow by its fourth segment |
| ProxyGate.GateFlow | server.js:239-250 | a found flow is attached; an unknown flow gets the development stand-in in development and 404 otherwise |
| ProxyGate.GatePasses | server.js:252-273 | past the exemptions a request passes exactly when a flow is attached, the browser's fetch headers are present and allowed, and its origin is valid for the flow; any other answer with a flow attached is 401 |
| BotBubble.FeedbackKey | src/components/bubbles/BotBubble.tsx:207 | feedback is keyed by `messageId`, falling back to `id`, then '' |
| BotBubble.FeedbackState.constructor | src/components/bubbles/BotBubble.tsx:68-72 | a bubble starts with its stored rating, no feedback id, no dialog, no alert and no error |
| BotBubble.FeedbackState.Click | src/components/bubbles/BotBubble.tsx:205-216 | a thumbs click sends feedback exactly while no rating is set, keyed by `FeedbackKey` |
| BotBubble.FeedbackState.Rated | src/components/bubbles/BotBubble.tsx:224-267 | success sets the rating, the returned id or '' and stores the rating; thumbs-down opens the dialog, and its error sets the text and opens the dialog without a rating |
| BotBubble.FeedbackState.SubmitContent | src/components/bubbles/BotBubble.tsx:271-286 | the error clears, and the comment is sent exactly when a feedback id is held |
| BotBubble.FeedbackState.ContentSent | src/components/bubbles/BotBubble.tsx:287-293 | success clears the id, closes the dialog and shows the alert; an error sets the text |
| BotBubble.FindMessage | src/components/bubbles/BotBubble.tsx:173 | `find` answers the first stored message with the bubble's `messageId`; it throws exactly at a `null` entry that comes before any match, and finds nothing only when no entry is `null` or matches |
| BotBubble.SaveToLocalStorage | src/components/bubbles/BotBubble.tsx:167-180 | the stored entry changes exactly as `RatedEntry` says, and not at all when it gives nothing |
| BotBubble.RatedEntryChangesOneRating | src/components/bubbles/BotBubble.tsx:167-180 | the update changes only the `rating` of the first matching stored message and keeps every other key |
| BotBubble.RatedEntryIdempotent | src/components/bubbles/BotBubble.tsx:167-180 | storing the same rating twice is storing it once |
| BotBubble.FindSameUpTo | src/components/bubbles/BotBubble.tsx:173 | the first match stays first when only it and later entries change |
| BotBubble.RemoveDuplicateURL | src/components/bubbles/BotBubble.tsx:190-203 | the loop keeps exactly the sources `KeptPrefix` keeps |
| BotBubble.KeptFromInput | src/components/bubbles/BotBubble.tsx:190-203 | every kept source comes from the input |
| BotBubble.KeptPlain | src/components/bubbles/BotBubble.tsx:198-200 | every source whose address is not a URL is kept |
| BotBubble.KeptCovers | src/components/bubbles/BotBubble.tsx:194-200 | every address of the input is kept once at least |
| BotBubble.KeptUnique | src/components/bubbles/BotBubble.tsx:195-197 | no URL is kept twice |
| BotBubble.ContainerClasses | src/components/bubbles/BotBubble.tsx:401-415 | every variant starts with the base classes |
| BotBubble.ContainerPrecedence | src/components/bubbles/BotBubble.tsx:401-415 | fullscreen outranks popup, popup outranks full page, and the three layouts differ |
| FeedbackDialog.Reasons | src/components/FeedbackContentDialog.tsx:26-46 | the custom reasons or the five defaults, followed by 'Другое' |
| FeedbackDialog.PiecesCount | src/components/FeedbackContentDialog.tsx:64-69 | the non-empty pieces of the whitespace split are as many as the word ends |
| FeedbackDialog.OneWord | src/components/FeedbackContentDialog.tsx:64-69 | there is a word exactly when some character is not white space |
| FeedbackDialog.TwoWords | src/components/FeedbackContentDialog.tsx:64-69 | there are two words exactly when a non-space, a space and a non-space occur in that order |
| FeedbackDialog.TrimKeepsTwoWords | src/components/FeedbackContentDialog.tsx:65-66 | trimming keeps the two-word test |
| FeedbackDialog.CountWordsTwo | src/components/FeedbackContentDialog.tsx:64-69 | `countWords` is at least 2 exactly when the text has two words |
| FeedbackDialog.SubmitRule | src/components/FeedbackContentDialog.tsx:71-81 | submit is enabled exactly when a reason is chosen and, for 'Другое', the comment has two words |
| FeedbackDialog.FinalTextComment | src/components/FeedbackContentDialog.tsx:83-95 | an enabled 'Другое' sends 'Другое: ' and the trimmed comment; an empty comment sends the reason alone |
| FeedbackDialog.Dialog.constructor | src/components/FeedbackContentDialog.tsx:39-40 | the dialog starts with no comment and no reason |
| FeedbackDialog.Dialog.HandleInput | src/components/FeedbackContentDialog.tsx:48-55 | text of at most 500 characters is taken and clears a shown error; longer text changes nothing |
| FeedbackDialog.Dialog.HandleReasonChange | src/components/FeedbackContentDialog.tsx:57-62 | the reason is taken and a shown error clears |
| FeedbackDialog.Dialog.Submit | src/components/FeedbackContentDialog.tsx:83-95 | something is sent exactly when submit is enabled, and it is the final text with the reason |
| FeedbackDialog.Dialog.Close | src/components/FeedbackContentDialog.tsx:97-101 | closing resets the comment and the reason |
| InputRules.FileType | src/components/SendArea.tsx:186-194 | with full upload the attribute is missing exactly when no types are configured, and is never empty; otherwise it is always a string, '*' without upload types |
| InputRules.StarInAllowed | src/components/SendArea.tsx:189-190 | the joined types contain '*' exactly when one of them does |
| InputRules.FileTypeStar | src/components/SendArea.tsx:188-191 | with RAG types the picker takes anything exactly when some type contains '*' |
| InputRules.FileTypeListsAll | src/components/inputs/textInput/components/TextInput.tsx:172-175 | otherwise every configured type appears in the string |
| InputRules.HistoryKey | src/components/SendArea.tsx:124-134 | only the arrow keys walk the history, and only when it is enabled |
| InputRules.EnterOrHistory | src/components/inputs/textInput/components/TextInput.tsx:125-143 | Enter without Shift outside composition submits, and nothing else does; history needs it enabled and is never an unshifted Enter |
| SendArea.Limit | src/components/SendArea.tsx:72 | the limit is `maxChars ?? 200` |
| SendArea.WarningText | src/components/SendArea.tsx:74 | the configured warning, or the built-in one naming the limit; empty exactly when configured empty |
| SendArea.SendEnabledRule | src/components/SendArea.tsx:285 | the send button is enabled exactly when the area is enabled, within the limit and the value has a non-space character |
| SendArea.KeyDownAction | src/components/SendArea.tsx:107-135 | Shift+Enter with key code 13 is a line break; every other key follows the shared rule |
| SendArea.KeyDownRules | src/components/SendArea.tsx:107-135 | a key submits exactly as Enter without Shift outside composition; history keys need history enabled |
| SendArea.Area.constructor | src/components/SendArea.tsx:63-82 | the area starts with the parent's value, no warning and the button enabled |
| SendArea.Area.HandleInput | src/components/SendArea.tsx:63-82 | over the limit the warning shows, the button is held and the parent keeps its value; within it the value is forwarded and both clear |
| SendArea.Area.Submit | src/components/SendArea.tsx:84-97 | nothing is sent while a warning shows or the field is invalid; otherwise the history records the value first when enabled |
| SendArea.Area.KeyDown | src/components/SendArea.tsx:107-135 | Shift+Enter appends a line break and re-validates; Enter submits; the arrows set the history's answer; other keys change nothing |
| SendArea.HeldDisabledBlocksSubmit | src/components/SendArea.tsx:73-76 | while the limit holds the button disabled, the warning blocks submitting unless it is configured empty |
| TextInput.LimitsAgree | src/components/inputs/textInput/components/TextInput.tsx:92 | with a non-zero limit both inputs agree; without one the text input takes any length while the send area stops at 200 |
| TextInput.WarningText | src/components/inputs/textInput/components/TextInput.tsx:93 | the configured warning, or the English one naming the limit; empty exactly when configured empty |
| TextInput.KeyDownAction | src/components/inputs/textInput/components/TextInput.tsx:125-143 | never a line break; submits exactly on Enter without Shift outside composition |
| TextInput.KeyDownAgrees | src/components/inputs/textInput/components/TextInput.tsx:125-143 | both inputs read every key alike except Shift+Enter, a line break only in the send area |
| TextInput.Field.constructor | src/components/inputs/textInput/components/TextInput.tsx:89-101 | the field starts with the parent's value, no warning and the button enabled |
| TextInput.Field.HandleInput | src/components/inputs/textInput/components/TextInput.tsx:89-101 | over a configured non-zero limit the warning shows and the value is not forwarded; otherwise it is forwarded and both clear |
| TextInput.Field.Submit | src/components/inputs/textInput/components/TextInput.tsx:103-115 | nothing is sent while a warning shows or the field is invalid; otherwise the history records the value first when enabled |
| TextInput.Field.KeyDown | src/components/inputs/textInput/components/TextInput.tsx:125-143 | Enter submits; the arrows set the history's answer; other keys change nothing |
| Bubble.WeightSplit | src/features/bubble/components/Bubble.tsx:23-57 | the pending callbacks' weight adds up over concatenation |
| Bubble.LastTargetEnd | src/features/bubble/components/Bubble.tsx:28 | the end of a transition does not move the fullscreen target |
| Bubble.HeadStep | src/features/bubble/components/Bubble.tsx:23-57 | firing the first pending callback lowers the weight and keeps the final target and the close |
| Bubble.WindowRestsOnButton | src/features/bubble/components/Bubble.tsx:140 | with the button where the theme puts it and the gap `chatWindowBottom` of lines 67-69, the window sits exactly 10 px above the button in a viewport at least twice the gap tall, and a shorter viewport only pulls it lower |
| Bubble.WindowRightClamp | src/features/bubble/components/Bubble.tsx:141 | the right offset is never negative, never past the given one, keeps the window on screen when it fits, and is the given one when that fits |
| Bubble.WindowBottomClamp | src/features/bubble/components/Bubble.tsx:140 | the bottom offset stays under the window's limit and the button's offset, and equals the latter when it fits |
| Bubble.ChatWindow.constructor | src/features/bubble/components/Bubble.tsx:14-21 | the window starts closed, not started, not fullscreen, not transitioning, at `(bottom ?? 20, right ?? 20)` |
| Bubble.ChatWindow.ToggleFullscreen | src/features/bubble/components/Bubble.tsx:23-37 | the transition starts, and a callback aiming at the other fullscreen state is queued |
| Bubble.ChatWindow.OpenBot | src/features/bubble/components/Bubble.tsx:39-42 | the window is started and opened |
| Bubble.ChatWindow.CloseBot | src/features/bubble/components/Bubble.tsx:44-57 | outside fullscreen it closes at once; in fullscreen it queues leaving fullscreen and then closing |
| Bubble.ChatWindow.ToggleBot | src/features/bubble/components/Bubble.tsx:59-61 | a closed window opens and an open one closes; no toggle resets `isBotStarted` |
| Bubble.ChatWindow.Cleanup | src/features/bubble/components/Bubble.tsx:63-65 | cleanup alone resets `isBotStarted` |
| Bubble.ChatWindow.Fire | src/features/bubble/components/Bubble.tsx:26-34 | a fullscreen callback sets its target and queues the end of the transition; an end callback stops the transition and closes when asked |
| Bubble.ChatWindow.Settle | src/features/bubble/components/Bubble.tsx:23-57 | running every pending callback in order leaves the last queued target, no transition, and closes exactly when a close was queued |
| Bubble.ChatWindow.Bottom | src/features/bubble/components/Bubble.tsx:140 | no bottom offset in fullscreen, otherwise one under the window's limit |
| Bubble.ChatWindow.Right | src/features/bubble/components/Bubble.tsx:141 | no right offset in fullscreen, otherwise one never negative |
| Bubble.ToggleSettles | src/features/bubble/components/Bubble.tsx:23-37 | one toggle settles in the other state without closing; two queued toggles settle there too |
| Bubble.CloseSettles | src/features/bubble/components/Bubble.tsx:44-57 | closing from fullscreen settles out of fullscreen and closed |

## Left out

- LastMessage.NormalizeButton: the source's element always has a `value` key, `undefined` when the button has none; JSON values here have no `undefined`, so the key is left out instead, which is also how the element is serialised.
- Network and transports: `fetchEventSource`, `sendRequest` and the query helpers. Their answers are parameters of the methods after each `await`.
- Timers: `setInterval` and `setTimeout` are explicit steps (a poll tick, `Bubble.ChatWindow.Fire`/`Settle`). Elapsed time is not modelled.
- The one-second delay before polling starts after a transfer is not modelled: `Bot.Session.ReceiveTransfer` returns a step that asks for it.
- Dates: `new Date`, `toISOString` and the date formatting are not modelled. Times are integers, and the day of a time is a function parameter of the divider lemmas.
- JSON text: `JSON.parse` and `JSON.stringify` are not modelled. Payloads arrive decoded, and `isOperatorConnected` takes the parse step as a function parameter.
- Parse failures of string payloads are not modelled. The non-object entries of a stored chat history are not modelled either.
- `cloneDeep`, `decodeURIComponent`, `new URL` (the URL test is a function parameter of `BotBubble.RemoveDuplicateURL`) and the uuid generator (the new chat id is a parameter of `ClearChat`) are foreign code.
- Lower-casing covers Latin and Cyrillic letters only. `String.length` counts characters, not UTF-16 code units.
- Browser side effects are not modelled: Markdown rendering, styling, scrolling, `adjustTextarea`, focus, audio playback (a counter stands for it), text-to-speech, file reading, drag and drop, recording, the clipboard and the thumbs colours.
- Uploads: `handleFileUploads` and its failure path are not modelled, and previews are given as already read. The float size check of `isFileAllowedForUpload` is not modelled.
- User data and the request body are not modelled: the auth and SDK calls, `fio`/`email`/`user_id` in requests and feedback, `overrideConfig`, `leadEmail`, `action` and `humanInput`. The greeting takes the name as a parameter.
- The agentflow approve/reject branch of `handleActionClick` is modelled up to the step it asks for (`Bot.OrdinaryNext`, `BotView.FeedbackQuestion`). The feedback dialog's open/close state and the extra request fields of `onSubmitResponse` (`type`, `startNodeId`, `feedback`) are not modelled. A button without a `type` makes the click throw after the cleared action is saved; the model stops there (`NoStep`) and does not model the uncaught error itself.
- `src/utils/chatInputHistory` is not part of this model. Its answers are parameters, and `addToHistory` appends to a recorded list.
- `reportValidity()` is a parameter.
- Polling.RecordKey: poll ids are modelled as strings only. In the source a record whose `id` or `messageId` is a non-zero number passes the test of `src/components/Bot.tsx:680`, and a numeric `id` becomes the entry's identifiers (lines 686-687). The model does not admit such a record.
- Bot.Session.Persist: the stored chat id is modelled for a missing or parseable stored entry. An unparseable entry, whose raw text the next write takes as the chat id, is modelled only by `Storage.AfterSet`.
- Bot.Session.StreamFailed: ends the stream on every error. In the source, `onerror` rethrows only at its end (`src/components/Bot.tsx:1218-1226`), which stops `fetchEventSource`. For an AbortError and for the AutoFAQ marker it returns normally (lines 1207-1215). `fetchEventSource` then sends the request again after its retry interval. That re-sent request is not modelled, because `fetchEventSource` is foreign code.
- `server.js` is modelled only in its logic. Express setup, the static and proxy routes, localtunnel, signal handlers and the startup logging (`isValidChatflowConfig`) are not modelled. `process.exit` is an error result.
- Concurrency is not modelled. Two quick thumbs clicks both send, because the rating is set only when the answer arrives; the model handles one click at a time.
- The guarded updaters on an empty transcript are not modelled as in the source. There they fail reading the last entry; here they leave the transcript unchanged.
- Bubble styles and CSS class strings are not modelled, apart from `getContainerClasses`.
- Bot.Session.StartPolling: states that polling is on afterwards; the first immediate tick it triggers is a separate `BeginPollTick` call.
- FeedbackDialog.Dialog.HandleInput: the dialog's error callback is reported as a flag, `clearError`, not called.
