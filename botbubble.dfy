/**
 * The assistant bubble (src/components/bubbles/BotBubble.tsx): the feedback
 * state behind the thumbs buttons and the comment dialog, the rating written
 * back into the persisted transcript, the source-document de-duplication and
 * the container classes.
 */
module BotBubble {
  import opened Wrappers
  import Json
  import Messages
  import Storage
  import Strings

  /** The text shown when a feedback request fails. */
  const FeedbackErrorText := "Произошла ошибка, попробуйте еще раз"

  /** `messageId || id || ''`: the id feedback is filed under. */
  function FeedbackKey(m: Messages.Message): (r: string)
    ensures r != "" ==> Some(r) == m.messageId || Some(r) == m.id
    ensures m.messageId.Some? && m.messageId.value != "" ==> r == m.messageId.value
    ensures r == "" <==> Messages.Key(m).None?
  {
    Messages.Key(m).GetOr("")
  }

  /** What a feedback endpoint answered: `data` (with the record's `id` when
    * it is a non-empty string), `error`, or neither. */
  datatype Answer = Data(id: Option<string>) | Error | Neither

  /** The request a thumbs click sends. */
  datatype Feedback = Feedback(messageId: string, rating: Messages.Rating, content: string)

  /** The feedback signals of one bubble. */
  class FeedbackState {
    /** `rating()`: `None` is the empty string. */
    var rating: Option<Messages.Rating>
    var feedbackId: string
    var dialogOpen: bool
    var successAlert: bool
    var feedbackError: string

    /** A fresh bubble, taking the rating its message already carries. */
    constructor(initial: Option<Messages.Rating>)
      ensures rating == initial && feedbackId == "" && !dialogOpen && !successAlert && feedbackError == ""
    {
      rating := initial;
      feedbackId := "";
      dialogOpen := false;
      successAlert := false;
      feedbackError := "";
    }

    /** `onThumbsUpClick`/`onThumbsDownClick` up to the request: a click sends
      * feedback only while no rating is set; it changes nothing by itself. */
    method Click(m: Messages.Message, kind: Messages.Rating) returns (send: Option<Feedback>)
      ensures send.Some? <==> rating.None?
      ensures send.Some? ==> send.value == Feedback(FeedbackKey(m), kind, "")
    {
      if rating.None? {
        send := Some(Feedback(FeedbackKey(m), kind, ""));
      } else {
        send := None;
      }
    }

    /** The answer to a thumbs request: on data the rating and feedback id are
      * set, the rating is written back into the persisted transcript of
      * `chatflowId` for the message id `wanted`, and thumbs-down also opens the
      * comment dialog; a thumbs-down error shows the error text and opens the
      * dialog without a rating. */
    method Rated(kind: Messages.Rating, answer: Answer, store: Storage.LocalStore, chatflowId: string, wanted: Option<string>)
      modifies this`rating, this`feedbackId, this`dialogOpen, this`feedbackError, store
      ensures answer.Data? ==> rating == Some(kind) && feedbackId == answer.id.GetOr("")
      ensures !answer.Data? ==> rating == old(rating) && feedbackId == old(feedbackId)
      ensures dialogOpen == (old(dialogOpen) || (kind == Messages.ThumbsDown && !answer.Neither?))
      ensures feedbackError == (if kind == Messages.ThumbsDown && answer.Error? then FeedbackErrorText else old(feedbackError))
      ensures var key := Storage.ChatflowKey(chatflowId);
        var w := RatedEntry(Storage.Lookup(old(store.entries), key), wanted, kind);
        store.entries == if answer.Data? && w.Some? then old(store.entries)[key := w.value] else old(store.entries)
    {
      match answer {
        case Data(id) =>
          rating := Some(kind);
          feedbackId := id.GetOr("");
          if kind == Messages.ThumbsDown {
            dialogOpen := true;
          }
          SaveToLocalStorage(store, chatflowId, wanted, kind);
        case Error =>
          if kind == Messages.ThumbsDown {
            feedbackError := FeedbackErrorText;
            dialogOpen := true;
          }
        case Neither =>
      }
    }

    /** `submitFeedbackContent` up to the request: the error text is cleared,
      * and the comment goes out only when there is a feedback id to update. */
    method SubmitContent(text: string) returns (send: Option<(string, string)>)
      modifies this`feedbackError
      ensures feedbackError == ""
      ensures send.Some? <==> feedbackId != ""
      ensures send.Some? ==> send.value == (feedbackId, text)
    {
      feedbackError := "";
      if feedbackId == "" {
        return None;
      }
      return Some((feedbackId, text));
    }

    /** The answer to a comment update: success forgets the feedback id,
      * closes the dialog and shows the alert; an error shows the error text. */
    method ContentSent(answer: Answer)
      modifies this`feedbackId, this`dialogOpen, this`successAlert, this`feedbackError
      ensures answer.Data? ==> feedbackId == "" && !dialogOpen && successAlert && feedbackError == old(feedbackError)
      ensures answer.Error? ==> feedbackError == FeedbackErrorText
      ensures !answer.Data? ==> feedbackId == old(feedbackId) && dialogOpen == old(dialogOpen) && successAlert == old(successAlert)
      ensures answer.Neither? ==> feedbackError == old(feedbackError)
    {
      match answer {
        case Data(_) =>
          feedbackId := "";
          dialogOpen := false;
          successAlert := true;
        case Error =>
          feedbackError := FeedbackErrorText;
        case Neither =>
      }
    }
  }

  // ---- saveToLocalStorage ----

  /** How `messages.find` over the stored transcript ends: at the first record
    * whose `messageId` is the wanted one, with no match, or with a
    * `TypeError` on a null record before either. */
  datatype Search = Found(index: nat) | NoMatch | Threw

  /** `msg.messageId === wanted` for one stored record. */
  predicate Matches(item: Json.Value, wanted: Option<string>)
  {
    item != Json.Null && Json.Get(item, "messageId") == (if wanted.Some? then Some(Json.Str(wanted.value)) else None)
  }

  function FindMessage(items: seq<Json.Value>, wanted: Option<string>): (r: Search)
    ensures r.Found? ==>
      r.index < |items| && Matches(items[r.index], wanted) &&
      forall j :: 0 <= j < r.index ==> items[j] != Json.Null && !Matches(items[j], wanted)
    ensures r.NoMatch? ==> forall j :: 0 <= j < |items| ==> items[j] != Json.Null && !Matches(items[j], wanted)
    ensures r.Threw? ==>
      exists j :: 0 <= j < |items| && items[j] == Json.Null && forall k :: 0 <= k < j ==> items[k] != Json.Null && !Matches(items[k], wanted)
    decreases |items|
  {
    if |items| == 0 then NoMatch
    else if items[0] == Json.Null then Threw
    else if Matches(items[0], wanted) then Found(0)
    else match FindMessage(items[1..], wanted)
      case Found(i) => Found(i + 1)
      case other => other
  }

  function RatingText(r: Messages.Rating): string
  {
    match r
    case ThumbsUp => "THUMBS_UP"
    case ThumbsDown => "THUMBS_DOWN"
  }

  /** The entry `saveToLocalStorage` writes, or `None` when it writes nothing:
    * a missing or unparseable entry, a `chatHistory` that is not an array, no
    * match, a failure, or a match that is not an object. */
  function RatedEntry(prior: Option<Storage.Stored>, wanted: Option<string>, rating: Messages.Rating): Option<Storage.Stored>
  {
    if prior.None? || prior.value.Garbage? then None
    else
      var fields := prior.value.fields;
      var history := if "chatHistory" in fields && Json.Truthy(fields["chatHistory"]) then fields["chatHistory"] else Json.Arr([]);
      if !history.Arr? then None
      else match FindMessage(history.items, wanted)
        case Found(i) =>
          if history.items[i].Obj? then
            var rated := Json.Obj(history.items[i].fields["rating" := Json.Str(RatingText(rating))]);
            Some(Storage.Parsed(fields["chatHistory" := Json.Arr(history.items[i := rated])]))
          else None
        case _ => None
  }

  /** `saveToLocalStorage(rating)` for the bubble's message id. */
  method SaveToLocalStorage(store: Storage.LocalStore, chatflowId: string, wanted: Option<string>, rating: Messages.Rating)
    modifies store
    ensures var key := Storage.ChatflowKey(chatflowId);
      var w := RatedEntry(Storage.Lookup(old(store.entries), key), wanted, rating);
      store.entries == if w.Some? then old(store.entries)[key := w.value] else old(store.entries)
  {
    var key := Storage.ChatflowKey(chatflowId);
    var w := RatedEntry(Storage.Lookup(store.entries, key), wanted, rating);
    if w.Some? {
      store.entries := store.entries[key := w.value];
    }
  }

  /** A write changes only the `rating` of the first record with the wanted
    * id; every other record and every other field of the entry is kept. */
  lemma RatedEntryChangesOneRating(prior: Option<Storage.Stored>, wanted: Option<string>, rating: Messages.Rating)
    requires RatedEntry(prior, wanted, rating).Some?
    ensures var p := prior.value.fields;
      var w := RatedEntry(prior, wanted, rating).value.fields;
      var items := p["chatHistory"].items;
      var i := FindMessage(items, wanted).index;
      w.Keys == p.Keys && (forall k :: k in p && k != "chatHistory" ==> w[k] == p[k]) &&
      w["chatHistory"].Arr? && |w["chatHistory"].items| == |items| &&
      (forall j :: 0 <= j < |items| && j != i ==> w["chatHistory"].items[j] == items[j]) &&
      w["chatHistory"].items[i] == Json.Obj(items[i].fields["rating" := Json.Str(RatingText(rating))]) &&
      (forall j :: 0 <= j < i ==> !Matches(items[j], wanted))
  {
  }

  /** Rating the same message twice with the same rating stores what rating it once does. */
  lemma RatedEntryIdempotent(prior: Option<Storage.Stored>, wanted: Option<string>, rating: Messages.Rating)
    requires RatedEntry(prior, wanted, rating).Some?
    ensures RatedEntry(RatedEntry(prior, wanted, rating), wanted, rating) == RatedEntry(prior, wanted, rating)
  {
    var p := prior.value.fields;
    assert "chatHistory" in p && p["chatHistory"].Arr?;
    var items := p["chatHistory"].items;
    var i := FindMessage(items, wanted).index;
    var rated := Json.Obj(items[i].fields["rating" := Json.Str(RatingText(rating))]);
    var items' := items[i := rated];
    var w := p["chatHistory" := Json.Arr(items')];
    assert RatedEntry(prior, wanted, rating) == Some(Storage.Parsed(w));
    assert Matches(rated, wanted);
    assert items'[..i] == items[..i];
    FindSameUpTo(items, items', wanted, i);
    assert w["chatHistory"] == Json.Arr(items');
    assert rated.fields["rating" := Json.Str(RatingText(rating))] == rated.fields;
    assert items'[i := rated] == items';
    assert w["chatHistory" := Json.Arr(items')] == w;
  }

  /** Changing record `i` into another match leaves the search result at `i`. */
  lemma {:induction false} FindSameUpTo(items: seq<Json.Value>, items': seq<Json.Value>, wanted: Option<string>, i: nat)
    requires FindMessage(items, wanted) == Found(i)
    requires |items'| == |items| && items'[..i] == items[..i] && Matches(items'[i], wanted)
    ensures FindMessage(items', wanted) == Found(i)
    decreases i
  {
    if i > 0 {
      assert items[0] == items[..i][0] && items'[0] == items'[..i][0];
      assert items'[1..][..i - 1] == items'[..i][1..] && items[1..][..i - 1] == items[..i][1..];
      assert FindMessage(items[1..], wanted) == Found(i - 1);
      FindSameUpTo(items[1..], items'[1..], wanted, i - 1);
    }
  }

  // ---- removeDuplicateURL ----

  /** Source `i` survives: its address is not a valid URL, or it is the first
    * source with that address. */
  predicate Kept<S>(sources: seq<S>, address: S -> string, isUrl: string -> bool, i: int)
    requires 0 <= i < |sources|
  {
    !isUrl(address(sources[i])) || forall j :: 0 <= j < i ==> address(sources[j]) != address(sources[i])
  }

  /** The sources among the first `n` that survive, in order. */
  function KeptPrefix<S>(sources: seq<S>, address: S -> string, isUrl: string -> bool, n: nat): seq<S>
    requires n <= |sources|
    decreases n
  {
    if n == 0 then []
    else KeptPrefix(sources, address, isUrl, n - 1) + (if Kept(sources, address, isUrl, n - 1) then [sources[n - 1]] else [])
  }

  /** `removeDuplicateURL`: one pass that remembers the valid URLs seen. */
  method RemoveDuplicateURL<S>(sources: seq<S>, address: S -> string, isUrl: string -> bool) returns (r: seq<S>)
    ensures r == KeptPrefix(sources, address, isUrl, |sources|)
  {
    var visited: seq<string> := [];
    r := [];
    for i := 0 to |sources|
      invariant r == KeptPrefix(sources, address, isUrl, i)
      invariant forall x :: x in visited <==> isUrl(x) && exists j :: 0 <= j < i && address(sources[j]) == x
    {
      var url := address(sources[i]);
      if isUrl(url) && url !in visited {
        visited := visited + [url];
        r := r + [sources[i]];
      } else if !isUrl(url) {
        r := r + [sources[i]];
      }
    }
  }

  /** Every surviving source is an input source. */
  lemma {:induction false} KeptFromInput<S>(sources: seq<S>, address: S -> string, isUrl: string -> bool, n: nat)
    requires n <= |sources|
    ensures forall s :: s in KeptPrefix(sources, address, isUrl, n) ==> s in sources[..n]
    decreases n
  {
    if n > 0 {
      KeptFromInput(sources, address, isUrl, n - 1);
      assert sources[..n] == sources[..n - 1] + [sources[n - 1]];
    }
  }

  /** Every source whose address is not a valid URL survives. */
  lemma {:induction false} KeptPlain<S>(sources: seq<S>, address: S -> string, isUrl: string -> bool, n: nat)
    requires n <= |sources|
    ensures forall j :: 0 <= j < n && !isUrl(address(sources[j])) ==> sources[j] in KeptPrefix(sources, address, isUrl, n)
    decreases n
  {
    if n > 0 {
      KeptPlain(sources, address, isUrl, n - 1);
    }
  }

  /** Every address of the input is still the address of some surviving source. */
  lemma {:induction false} KeptCovers<S>(sources: seq<S>, address: S -> string, isUrl: string -> bool, n: nat)
    requires n <= |sources|
    ensures forall j :: 0 <= j < n ==> exists s :: s in KeptPrefix(sources, address, isUrl, n) && address(s) == address(sources[j])
    decreases n
  {
    if n > 0 {
      KeptCovers(sources, address, isUrl, n - 1);
      var prev := KeptPrefix(sources, address, isUrl, n - 1);
      assert forall s :: s in prev ==> s in KeptPrefix(sources, address, isUrl, n);
      if !Kept(sources, address, isUrl, n - 1) {
        var j :| 0 <= j < n - 1 && address(sources[j]) == address(sources[n - 1]);
      }
    }
  }

  /** No valid URL occurs twice among `r`. */
  predicate UrlsUnique<S>(r: seq<S>, address: S -> string, isUrl: string -> bool)
  {
    forall a, b :: 0 <= a < b < |r| && isUrl(address(r[a])) ==> address(r[a]) != address(r[b])
  }

  /** No valid URL survives twice. */
  lemma {:induction false} KeptUnique<S>(sources: seq<S>, address: S -> string, isUrl: string -> bool, n: nat)
    requires n <= |sources|
    ensures UrlsUnique(KeptPrefix(sources, address, isUrl, n), address, isUrl)
    decreases n
  {
    if n > 0 {
      KeptUnique(sources, address, isUrl, n - 1);
      var prev := KeptPrefix(sources, address, isUrl, n - 1);
      var r := KeptPrefix(sources, address, isUrl, n);
      var last := sources[n - 1];
      if Kept(sources, address, isUrl, n - 1) {
        KeptFromInput(sources, address, isUrl, n - 1);
        assert r == prev + [last];
        forall a, b | 0 <= a < b < |r| && isUrl(address(r[a]))
          ensures address(r[a]) != address(r[b])
        {
          if b == |r| - 1 {
            assert r[b] == last;
            assert r[a] == prev[a] && prev[a] in prev;
            var j :| 0 <= j < n - 1 && sources[..n - 1][j] == r[a];
            assert sources[j] == r[a];
            if isUrl(address(last)) {
              assert address(sources[j]) != address(last);
            } else {
              assert address(r[a]) != address(last);
            }
            assert address(r[a]) != address(r[b]);
          } else {
            assert r[a] == prev[a] && r[b] == prev[b];
            assert b < |prev|;
            assert address(prev[a]) != address(prev[b]);
          }
        }
      }
    }
  }

  // ---- getContainerClasses ----

  const BaseClasses := "flex flex-row justify-start mb-5 items-start host-container"

  /** The width classes of the bubble's row for the embedding mode. */
  function ContainerClasses(isFullPage: bool, isFullscreen: bool, isPopup: bool): (r: string)
    ensures Strings.StartsWith(r, BaseClasses)
  {
    if isPopup && !isFullscreen then BaseClasses + " w-full pr-[40px]"
    else if isFullPage || isFullscreen then BaseClasses + " w-full pr-[40px] sm:w-[70%] sm:pr-0 lg:w-3/5 xl:w-1/2"
    else BaseClasses + " w-2/3"
  }

  /** Fullscreen overrides both other flags; a popup overrides the full-page
    * flag; the three layouts are told apart by their classes. */
  lemma ContainerPrecedence(isFullPage: bool, isPopup: bool)
    ensures ContainerClasses(isFullPage, true, isPopup) == ContainerClasses(true, false, false)
    ensures ContainerClasses(isFullPage, false, true) == ContainerClasses(false, false, true)
    ensures ContainerClasses(true, false, false) != ContainerClasses(false, false, true)
    ensures ContainerClasses(false, false, false) != ContainerClasses(false, false, true)
    ensures ContainerClasses(false, false, false) != ContainerClasses(true, false, false)
  {
    assert |ContainerClasses(false, false, true)| == |BaseClasses| + 17;
    assert |ContainerClasses(true, false, false)| == |BaseClasses| + 54;
    assert |ContainerClasses(false, false, false)| == |BaseClasses| + 6;
  }
}
