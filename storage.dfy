/**
 * The persistence helpers and small utilities of src/utils/index.ts.
 *
 * Local storage is a string-keyed store; each chatflow keeps one entry under
 * `<chatflowId>_EXTERNAL`. An entry either decodes to a JSON object or is a
 * raw string JSON.parse rejects.
 */
module Storage {
  import opened Wrappers
  import Json
  import Strings

  // ---- null checks (src/utils/index.ts:1-7); `None` is undefined or null ----

  predicate IsDefined<T>(v: Option<T>)
  {
    v.Some?
  }

  predicate IsEmpty(v: Option<string>)
  {
    v.None? || v.value == ""
  }

  predicate IsNotEmpty(v: Option<string>)
  {
    v.Some? && v.value != ""
  }

  /** The two string checks are exact complements. */
  lemma EmptyComplement(v: Option<string>)
    ensures IsEmpty(v) <==> !IsNotEmpty(v)
    ensures IsNotEmpty(v) ==> IsDefined(v)
  {
  }

  // ---- the chatflow entry ----

  /** What `localStorage.getItem` returns for an entry. */
  datatype Stored = Parsed(fields: map<string, Json.Value>) | Garbage(raw: string)

  function ChatflowKey(chatflowId: string): string
  {
    chatflowId + "_EXTERNAL"
  }

  /** The entry as `!chatDetails` sees it: an empty raw string counts as absent. */
  function Lookup(entries: map<string, Stored>, key: string): (r: Option<Stored>)
    ensures r.Some? ==> key in entries && r.value == entries[key] && r.value != Garbage("")
    ensures r.None? ==> key !in entries || entries[key] == Garbage("")
  {
    if key in entries && entries[key] != Garbage("") then Some(entries[key]) else None
  }

  /** `{ ...saveObj }` with `chatId` added when it is non-empty. */
  function WithChatId(saveObj: map<string, Json.Value>, chatId: string): (obj: map<string, Json.Value>)
    ensures obj.Keys == saveObj.Keys + (if chatId != "" then {"chatId"} else {})
    ensures forall k :: k in saveObj && (k != "chatId" || chatId == "") ==> obj[k] == saveObj[k]
    ensures chatId != "" ==> obj["chatId"] == Json.Str(chatId)
  {
    if chatId != "" then saveObj["chatId" := Json.Str(chatId)] else saveObj
  }

  /** The entry `setLocalStorageChatflow` writes, given the entry before. */
  function AfterSet(prior: Option<Stored>, chatId: string, saveObj: map<string, Json.Value>): (s: Stored)
    ensures s.Parsed?
    ensures prior.None? ==> s.fields == WithChatId(saveObj, chatId)
    ensures prior.Some? && prior.value.Parsed? ==>
      s.fields.Keys == prior.value.fields.Keys + WithChatId(saveObj, chatId).Keys &&
      (forall k :: k in WithChatId(saveObj, chatId) ==> s.fields[k] == WithChatId(saveObj, chatId)[k]) &&
      (forall k :: k in prior.value.fields && k !in WithChatId(saveObj, chatId) ==> s.fields[k] == prior.value.fields[k])
    ensures prior.Some? && prior.value.Garbage? ==>
      s.fields == saveObj["chatId" := Json.Str(prior.value.raw)]
  {
    var obj := WithChatId(saveObj, chatId);
    match prior
    case None => Parsed(obj)
    case Some(Parsed(p)) => Parsed(p + obj)
    case Some(Garbage(raw)) => Parsed(obj["chatId" := Json.Str(raw)])
  }

  /** What `getLocalStorageChatflow` returns: `{}` for a missing or unparseable entry. */
  function Details(prior: Option<Stored>): map<string, Json.Value>
  {
    if prior.Some? && prior.value.Parsed? then prior.value.fields else map[]
  }

  /** The store after `removeLocalStorageChatHistory`. */
  function AfterRemove(entries: map<string, Stored>, key: string): map<string, Stored>
  {
    match Lookup(entries, key)
    case Some(Parsed(p)) =>
      var lead := Json.Get(Json.Obj(p), "lead");
      if Json.Present(lead) then entries[key := Parsed(map["lead" := lead.value])] else entries - {key}
    case _ => entries
  }

  /** Reading back what was just written: the saved keys, the new chat id
    * (unless the old entry was unparseable, whose raw text then becomes the
    * chat id), and every other key of a parseable old entry. */
  lemma SetThenGet(prior: Option<Stored>, chatId: string, saveObj: map<string, Json.Value>)
    ensures var r := Details(Some(AfterSet(prior, chatId, saveObj)));
      (forall k :: k in saveObj && k != "chatId" ==> k in r && r[k] == saveObj[k]) &&
      (chatId != "" && !(prior.Some? && prior.value.Garbage?) ==> "chatId" in r && r["chatId"] == Json.Str(chatId)) &&
      (prior.Some? && prior.value.Garbage? ==> "chatId" in r && r["chatId"] == Json.Str(prior.value.raw)) &&
      (prior.Some? && prior.value.Parsed? ==> prior.value.fields.Keys <= r.Keys)
  {
    var s := AfterSet(prior, chatId, saveObj);
    var obj := WithChatId(saveObj, chatId);
    forall k | k in saveObj && k != "chatId"
      ensures k in s.fields && s.fields[k] == saveObj[k]
    {
      assert k in obj && obj[k] == saveObj[k];
    }
  }

  /** The chat id an entry's fields hold: '' when there is no string `chatId`. */
  function ChatIdIn(fields: map<string, Json.Value>): string
  {
    if "chatId" in fields && fields["chatId"].Str? then fields["chatId"].s else ""
  }

  /** What a write with `chatId` leaves as the stored chat id. */
  function NextChatId(prior: string, chatId: string): string
  {
    if chatId != "" then chatId else prior
  }

  /** Saving a history (an object without a `chatId` key) over a missing or
    * parseable entry replaces the stored chat id by a non-empty one and keeps
    * it otherwise; clearing such an entry leaves no chat id. */
  lemma StoredChatIdRules(prior: Option<Stored>, chatId: string, saveObj: map<string, Json.Value>, entries: map<string, Stored>, key: string)
    requires "chatId" !in saveObj
    requires prior.None? || prior.value.Parsed?
    requires Lookup(entries, key).None? || Lookup(entries, key).value.Parsed?
    ensures ChatIdIn(Details(Some(AfterSet(prior, chatId, saveObj)))) == NextChatId(ChatIdIn(Details(prior)), chatId)
    ensures ChatIdIn(Details(Lookup(AfterRemove(entries, key), key))) == ""
  {
    var obj := WithChatId(saveObj, chatId);
    if chatId == "" {
      assert "chatId" !in obj;
    }
    RemoveKeepsOnlyLead(entries, key);
  }

  /** Clearing keeps exactly the lead of a parseable entry that has one,
    * deletes a parseable entry without one, and touches nothing else. */
  lemma RemoveKeepsOnlyLead(entries: map<string, Stored>, key: string)
    ensures forall k :: k != key ==> (k in AfterRemove(entries, key) <==> k in entries)
    ensures forall k :: k != key && k in entries ==> AfterRemove(entries, key)[k] == entries[k]
    ensures Lookup(entries, key).None? || Lookup(entries, key).value.Garbage? ==> AfterRemove(entries, key) == entries
    ensures Lookup(entries, key).Some? && Lookup(entries, key).value.Parsed? ==>
      var p := Lookup(entries, key).value.fields;
      Details(Lookup(AfterRemove(entries, key), key)) ==
        (if "lead" in p && Json.Truthy(p["lead"]) then map["lead" := p["lead"]] else map[])
  {
    match Lookup(entries, key)
    case Some(Parsed(p)) =>
      var lead := Json.Get(Json.Obj(p), "lead");
      if Json.Present(lead) {
        assert AfterRemove(entries, key) == entries[key := Parsed(map["lead" := lead.value])];
      } else {
        assert AfterRemove(entries, key) == entries - {key};
      }
    case _ =>
  }

  /** The key-value store behind `localStorage`. */
  class LocalStore {
    var entries: map<string, Stored>

    constructor (initial: map<string, Stored>)
      ensures entries == initial
    {
      entries := initial;
    }

    /** `setLocalStorageChatflow`: read, merge, write back. */
    method SetChatflow(chatflowId: string, chatId: string, saveObj: map<string, Json.Value>)
      modifies this
      ensures entries == old(entries)[ChatflowKey(chatflowId) := AfterSet(Lookup(old(entries), ChatflowKey(chatflowId)), chatId, saveObj)]
    {
      var key := ChatflowKey(chatflowId);
      var chatDetails := Lookup(entries, key);
      var obj := WithChatId(saveObj, chatId);
      if chatDetails.None? {
        entries := entries[key := Parsed(obj)];
      } else if chatDetails.value.Parsed? {
        entries := entries[key := Parsed(chatDetails.value.fields + obj)];
      } else {
        obj := obj["chatId" := Json.Str(chatDetails.value.raw)];
        entries := entries[key := Parsed(obj)];
      }
    }

    /** `getLocalStorageChatflow`. */
    method GetChatflow(chatflowId: string) returns (r: map<string, Json.Value>)
      ensures r == Details(Lookup(entries, ChatflowKey(chatflowId)))
      ensures ChatflowKey(chatflowId) !in entries ==> r == map[]
    {
      var chatDetails := Lookup(entries, ChatflowKey(chatflowId));
      if chatDetails.None? {
        return map[];
      }
      match chatDetails.value
      case Parsed(p) => r := p;
      case Garbage(_) => r := map[];
    }

    /** `removeLocalStorageChatHistory`. */
    method RemoveChatHistory(chatflowId: string)
      modifies this
      ensures entries == AfterRemove(old(entries), ChatflowKey(chatflowId))
    {
      var key := ChatflowKey(chatflowId);
      var chatDetails := Lookup(entries, key);
      if chatDetails.None? {
        return;
      }
      match chatDetails.value
      case Garbage(_) =>
        return;
      case Parsed(p) =>
        var lead := Json.Get(Json.Obj(p), "lead");
        if Json.Present(lead) {
          entries := entries - {key};
          entries := entries[key := Parsed(map["lead" := lead.value])];
        } else {
          entries := entries - {key};
        }
    }
  }

  // ---- bubble button size ----

  /** The `size` setting: a named size, a number, or undefined. */
  datatype SizeSetting = Named(name: string) | Px(n: int) | Unset

  function ButtonSize(size: SizeSetting): int
  {
    match size
    case Unset => 48
    case Px(n) => if n == 0 then 48 else n
    case Named(name) =>
      if name == "small" then 32
      else if name == "medium" then 48
      else if name == "large" then 64
      else 48
  }

  /** Falsy settings get the default 48, numbers are kept, and the named
    * sizes ascend 32 < 48 < 64. */
  lemma ButtonSizeRules(n: int, other: string)
    requires other != "small" && other != "large"
    ensures ButtonSize(Unset) == 48 && ButtonSize(Px(0)) == 48
    ensures n != 0 ==> ButtonSize(Px(n)) == n
    ensures ButtonSize(Named("small")) < ButtonSize(Named("medium")) < ButtonSize(Named("large"))
    ensures ButtonSize(Named(other)) == 48
  {
  }

  // ---- cookies ----

  /** The segment with its leading blanks (only ' ') removed. */
  function DropSpaces(c: string): (r: string)
    ensures |r| <= |c| && r == c[|c| - |r|..]
    ensures forall j :: 0 <= j < |c| - |r| ==> c[j] == ' '
    ensures |r| > 0 ==> r[0] != ' '
    decreases |c|
  {
    if |c| > 0 && c[0] == ' ' then DropSpaces(c[1..]) else c
  }

  /** Segment `i` is the first whose blank-stripped text starts with `name`. */
  predicate FirstNaming(segments: seq<string>, name: string, i: int)
  {
    0 <= i < |segments| && Strings.StartsWith(DropSpaces(segments[i]), name) &&
    forall j :: 0 <= j < i ==> !Strings.StartsWith(DropSpaces(segments[j]), name)
  }

  /** The value of the first `;`-segment naming the cookie, or "". */
  function CookieIn(segments: seq<string>, name: string): string
    decreases |segments|
  {
    if |segments| == 0 then ""
    else
      var c := DropSpaces(segments[0]);
      if Strings.StartsWith(c, name) then c[|name|..] else CookieIn(segments[1..], name)
  }

  /** The cookie's value is "" when no segment names it, and otherwise what
    * follows the name in the first segment that does. */
  lemma {:induction false} CookieInRules(segments: seq<string>, name: string)
    ensures (forall i :: 0 <= i < |segments| ==> !Strings.StartsWith(DropSpaces(segments[i]), name)) ==>
      CookieIn(segments, name) == ""
    ensures forall i :: FirstNaming(segments, name, i) ==> CookieIn(segments, name) == DropSpaces(segments[i])[|name|..]
    decreases |segments|
  {
    if |segments| > 0 && !Strings.StartsWith(DropSpaces(segments[0]), name) {
      var tail := segments[1..];
      CookieInRules(tail, name);
      forall i | FirstNaming(segments, name, i)
        ensures i >= 1 && FirstNaming(tail, name, i - 1)
      {
        FirstNamingShifts(segments, name, i);
      }
      if forall i :: 0 <= i < |segments| ==> !Strings.StartsWith(DropSpaces(segments[i]), name) {
        assert forall i :: 0 <= i < |tail| ==> tail[i] == segments[i + 1];
      }
    }
  }

  lemma FirstNamingShifts(segments: seq<string>, name: string, i: int)
    requires |segments| > 0 && !Strings.StartsWith(DropSpaces(segments[0]), name) && FirstNaming(segments, name, i)
    ensures i >= 1 && FirstNaming(segments[1..], name, i - 1)
  {
    assert forall j :: 0 <= j < i - 1 ==> segments[1..][j] == segments[j + 1];
  }

  /** `getCookie` over the decoded cookie string (absent outside a browser). */
  method GetCookie(cookie: Option<string>, cname: string) returns (r: string)
    ensures r == (if cookie.None? then "" else CookieIn(Strings.Split(cookie.value, ';'), cname + "="))
  {
    if cookie.None? {
      return "";
    }
    var name := cname + "=";
    var ca := Strings.Split(cookie.value, ';');
    var i := 0;
    while i < |ca|
      invariant 0 <= i <= |ca|
      invariant CookieIn(ca, name) == CookieIn(ca[i..], name)
    {
      var c := ca[i];
      while |c| > 0 && c[0] == ' '
        invariant DropSpaces(c) == DropSpaces(ca[i])
        decreases |c|
      {
        c := c[1..];
      }
      if Strings.StartsWith(c, name) {
        return c[|name|..];
      }
      assert ca[i..][1..] == ca[i + 1..];
      i := i + 1;
    }
    return "";
  }
}
