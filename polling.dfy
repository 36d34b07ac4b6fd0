/**
 * The pure pipeline of one AutoFAQ poll tick in src/components/Bot.tsx:
 * normalising the response shape, keeping records whose id the transcript
 * does not know yet, mapping them to transcript entries, spotting a closing
 * phrase, merging with a stable ascending sort by time, and choosing the
 * watermark (the id of the newest message that is not a transfer marker).
 */
module Polling {
  import opened Wrappers
  import Json
  import Strings
  import opened Messages

  // ---- response shape ----

  /** The list a response body stands for: an array as is, an object's `data`
    * or `messages` array, or the object itself as the only record. */
  function NormalizeBody(body: Option<Json.Value>): (rs: seq<Json.Value>)
    ensures body.Some? && body.value.Arr? ==> rs == body.value.items
    ensures body.Some? && body.value.Obj? ==>
      if Json.Get(body.value, "data").Some? && Json.Get(body.value, "data").value.Arr? then rs == body.value.fields["data"].items
      else if Json.Get(body.value, "messages").Some? && Json.Get(body.value, "messages").value.Arr? then rs == body.value.fields["messages"].items
      else rs == [body.value]
    ensures body.None? || !(body.value.Arr? || body.value.Obj?) ==> rs == []
  {
    match body
    case None => []
    case Some(v) =>
      match v
      case Arr(items) => items
      case Obj(fields) =>
        if "data" in fields && fields["data"].Arr? then fields["data"].items
        else if "messages" in fields && fields["messages"].Arr? then fields["messages"].items
        else [v]
      case _ => []
  }

  /** The four accepted shapes carry the same records as the bare array of them. */
  lemma NormalizeBodyAgrees(rs: seq<Json.Value>, extra: map<string, Json.Value>)
    ensures NormalizeBody(Some(Json.Obj(extra["data" := Json.Arr(rs)]))) == rs
    ensures "data" !in extra ==> NormalizeBody(Some(Json.Obj(extra["messages" := Json.Arr(rs)]))) == rs
    ensures NormalizeBody(Some(Json.Arr(NormalizeBody(Some(Json.Obj(extra)))))) == NormalizeBody(Some(Json.Obj(extra)))
  {
  }

  // ---- de-duplication ----

  /** `msg.id || msg.messageId` of a record, when it is a non-empty id. */
  function RecordKey(r: Json.Value): Option<string>
  {
    Json.TruthyText(Json.Or(Json.Get(r, "id"), Json.Get(r, "messageId")))
  }

  /** The ids of the transcript (`messageId || id`, dropping empty ones). */
  function KnownIds(t: seq<Message>): set<string>
  {
    set i | 0 <= i < |t| && Key(t[i]).Some? :: Key(t[i]).value
  }

  /** A record is new when it has an id that is not among `known`. */
  predicate IsNewRecord(r: Json.Value, known: set<string>)
  {
    RecordKey(r).Some? && RecordKey(r).value !in known
  }

  /** The records whose id is new, in order (records repeating an id of the same
    * response are all kept, as in the source). */
  function NewRecords(rs: seq<Json.Value>, known: set<string>): (r: seq<Json.Value>)
    ensures |r| <= |rs|
    ensures forall x :: x in r ==> x in rs && IsNewRecord(x, known)
    ensures forall x :: x in rs && IsNewRecord(x, known) ==> x in r
    ensures (forall x :: x in rs ==> !IsNewRecord(x, known)) ==> r == []
    decreases |rs|
  {
    if |rs| == 0 then []
    else if IsNewRecord(rs[0], known) then [rs[0]] + NewRecords(rs[1..], known)
    else NewRecords(rs[1..], known)
  }

  /** `NewRecords` is the source's `.filter`: it works record by record and
    * keeps the order of the response. */
  lemma {:induction false} NewRecordsFilter(a: seq<Json.Value>, b: seq<Json.Value>, known: set<string>, x: Json.Value)
    ensures NewRecords(a + b, known) == NewRecords(a, known) + NewRecords(b, known)
    ensures NewRecords([x], known) == if IsNewRecord(x, known) then [x] else []
    decreases |a|
  {
    if |a| == 0 {
      assert a + b == b;
    } else {
      assert (a + b)[1..] == a[1..] + b;
      NewRecordsFilter(a[1..], b, known, x);
    }
    assert [x][1..] == [];
  }

  // ---- mapping a record to a transcript entry ----

  /** A poll record as a transcript entry. Both ids are taken from the raw `id`
    * alone, although the record was accepted on `id || messageId`. */
  function MapRecord(r: Json.Value, now: int): Message
  {
    var role := Json.TruthyText(Json.Get(r, "role"));
    var created := Json.Get(r, "createdDate");
    var reasoning := Json.Get(r, "agentReasoning");
    Message(
      kind := if role.Some? then KindOf(role.value) else ApiMessage,
      text := if Json.TruthyText(Json.Get(r, "content")).Some? then Json.TruthyText(Json.Get(r, "content")).value
              else if Json.TruthyText(Json.Get(r, "message")).Some? then Json.TruthyText(Json.Get(r, "message")).value
              else "",
      messageId := Json.Text(Json.Get(r, "id")),
      id := Json.Text(Json.Get(r, "id")),
      rating := None,
      action := Json.Get(r, "action"),
      dateTime := if created.Some? && created.value.Num? && created.value.n != 0 then Some(created.value.n) else Some(now),
      sourceDocuments := Json.Get(r, "sourceDocuments"),
      usedTools := Json.Get(r, "usedTools"),
      fileAnnotations := Json.Get(r, "fileAnnotations"),
      agentReasoning := if reasoning.Some? && reasoning.value.Arr? then Some(reasoning.value.items) else None,
      agentFlowEventStatus := None,
      agentFlowExecutedData := None,
      artifacts := Json.Get(r, "artifacts"),
      fileUploads := None,
      followUpPrompts := None)
  }

  function MapRecords(rs: seq<Json.Value>, now: int): (ms: seq<Message>)
    ensures |ms| == |rs| && forall k :: 0 <= k < |rs| ==> ms[k] == MapRecord(rs[k], now)
  {
    seq(|rs|, k requires 0 <= k < |rs| => MapRecord(rs[k], now))
  }

  /** The entries a tick adds to transcript `t`. */
  function NewMessages(t: seq<Message>, rs: seq<Json.Value>, now: int): seq<Message>
  {
    MapRecords(NewRecords(rs, KnownIds(t)), now)
  }

  // ---- closing phrases ----

  const ClosingPhrases: seq<string> := [
    "спасибо, что воспользовались нашим сервисом",
    "спасибо что воспользовались нашим сервисом",
    "благодарим за обращение",
    "чат завершен",
    "чат закрыт"]

  /** The lower-cased, trimmed text contains one of the closing phrases. */
  predicate IsClosing(m: Message)
  {
    exists k :: 0 <= k < |ClosingPhrases| && Strings.Contains(Strings.Trim(Strings.Lower(m.text)), ClosingPhrases[k])
  }

  predicate AnyClosing(ms: seq<Message>)
  {
    exists i :: 0 <= i < |ms| && IsClosing(ms[i])
  }

  predicate AnyAssistant(ms: seq<Message>)
  {
    exists i :: 0 <= i < |ms| && ms[i].kind == ApiMessage
  }

  // ---- stable merge ----

  predicate Sorted(s: seq<Message>)
  {
    forall i, j :: 0 <= i < j < |s| ==> SortKey(s[i]) <= SortKey(s[j])
  }

  /** `x` placed before the first entry that is not earlier than it. */
  function Insert(x: Message, s: seq<Message>): (r: seq<Message>)
    ensures |r| == |s| + 1 && multiset(r) == multiset(s) + multiset{x}
    decreases |s|
  {
    if |s| == 0 then [x]
    else if SortKey(x) <= SortKey(s[0]) then [x] + s
    else
      assert s == [s[0]] + s[1..];
      [s[0]] + Insert(x, s[1..])
  }

  /** Insertion sort from the back: a stable ascending sort by time. */
  function Sort(s: seq<Message>): (r: seq<Message>)
    ensures |r| == |s| && multiset(r) == multiset(s)
    decreases |s|
  {
    if |s| == 0 then [] else
      assert s == [s[0]] + s[1..];
      Insert(s[0], Sort(s[1..]))
  }

  lemma {:induction false} InsertSorted(x: Message, s: seq<Message>)
    requires Sorted(s)
    ensures Sorted(Insert(x, s))
    decreases |s|
  {
    if |s| > 0 && SortKey(x) > SortKey(s[0]) {
      var rest := Insert(x, s[1..]);
      InsertSorted(x, s[1..]);
      forall y | y in rest
        ensures SortKey(s[0]) <= SortKey(y)
      {
        assert y in multiset(s[1..]) + multiset{x};
      }
      assert Insert(x, s) == [s[0]] + rest;
    }
  }

  lemma {:induction false} SortSorted(s: seq<Message>)
    ensures Sorted(Sort(s))
    decreases |s|
  {
    if |s| > 0 {
      SortSorted(s[1..]);
      InsertSorted(s[0], Sort(s[1..]));
    }
  }

  /** The entries of `s` with time `k`, in order. */
  function WithKey(s: seq<Message>, k: int): seq<Message>
    decreases |s|
  {
    if |s| == 0 then [] else (if SortKey(s[0]) == k then [s[0]] else []) + WithKey(s[1..], k)
  }

  lemma {:induction false} InsertWithKey(x: Message, s: seq<Message>, k: int)
    requires Sorted(s)
    ensures WithKey(Insert(x, s), k) == (if SortKey(x) == k then [x] else []) + WithKey(s, k)
    decreases |s|
  {
    var hx := if SortKey(x) == k then [x] else [];
    if |s| == 0 {
      assert WithKey([x], k) == hx + WithKey([x][1..], k);
    } else if SortKey(x) <= SortKey(s[0]) {
      assert ([x] + s)[1..] == s;
      assert WithKey([x] + s, k) == hx + WithKey(s, k);
    } else {
      assert Sorted(s[1..]);
      InsertWithKey(x, s[1..], k);
      var r := Insert(x, s);
      assert r == [s[0]] + Insert(x, s[1..]);
      assert r[1..] == Insert(x, s[1..]);
      if SortKey(s[0]) == k {
        assert hx == [];
        assert WithKey(r, k) == [s[0]] + WithKey(Insert(x, s[1..]), k);
      } else {
        assert WithKey(r, k) == WithKey(Insert(x, s[1..]), k);
        assert WithKey(s, k) == WithKey(s[1..], k);
      }
    }
  }

  /** Stability: entries with equal times keep their relative order. */
  lemma {:induction false} SortWithKey(s: seq<Message>, k: int)
    ensures WithKey(Sort(s), k) == WithKey(s, k)
    decreases |s|
  {
    if |s| > 0 {
      SortWithKey(s[1..], k);
      SortSorted(s[1..]);
      InsertWithKey(s[0], Sort(s[1..]), k);
    }
  }

  /** The transcript after a tick: old entries and new ones, stably sorted by time. */
  function Merge(t: seq<Message>, incoming: seq<Message>): seq<Message>
  {
    Sort(t + incoming)
  }

  /** A merge keeps every entry, adds the new ones, sorts ascending by time and
    * keeps equal-time entries in their old-then-new order. */
  lemma MergeSpec(t: seq<Message>, incoming: seq<Message>)
    ensures var r := Merge(t, incoming);
      |r| == |t| + |incoming| && multiset(r) == multiset(t) + multiset(incoming) && Sorted(r) &&
      forall k :: WithKey(r, k) == WithKey(t + incoming, k)
  {
    SortSorted(t + incoming);
    forall k
      ensures WithKey(Merge(t, incoming), k) == WithKey(t + incoming, k)
    {
      SortWithKey(t + incoming, k);
    }
  }

  // ---- watermark ----

  /** An entry whose id may serve as the watermark. */
  predicate Eligible(m: Message)
  {
    Key(m).Some? && !Strings.StartsWith(Key(m).value, "transfer-")
  }

  /** The position of the first eligible entry with the latest time: the head
    * of a stable descending sort of the eligible entries. */
  function Newest(ms: seq<Message>): (r: Option<nat>)
    ensures r.None? <==> forall j :: 0 <= j < |ms| ==> !Eligible(ms[j])
    ensures r.Some? ==> r.value < |ms| && Eligible(ms[r.value])
    ensures r.Some? ==> forall j :: 0 <= j < |ms| && Eligible(ms[j]) ==> SortKey(ms[j]) <= SortKey(ms[r.value])
    ensures r.Some? ==> forall j :: 0 <= j < r.value && Eligible(ms[j]) ==> SortKey(ms[j]) < SortKey(ms[r.value])
    decreases |ms|
  {
    if |ms| == 0 then None
    else
      var rest := Newest(ms[1..]);
      if Eligible(ms[0]) && (rest.None? || SortKey(ms[0]) >= SortKey(ms[1 + rest.value])) then Some(0)
      else if rest.Some? then Some(1 + rest.value)
      else None
  }

  /** The watermark after looking at `ms`: the newest eligible id, or the old one. */
  function Advance(ms: seq<Message>, watermark: Option<string>): (w: Option<string>)
    ensures (forall j :: 0 <= j < |ms| ==> !Eligible(ms[j])) ==> w == watermark
    ensures (exists j :: 0 <= j < |ms| && Eligible(ms[j])) ==>
      exists i :: 0 <= i < |ms| && Eligible(ms[i]) && w == Key(ms[i]) &&
        forall j :: 0 <= j < |ms| && Eligible(ms[j]) ==> SortKey(ms[j]) <= SortKey(ms[i])
  {
    match Newest(ms)
    case Some(i) => Key(ms[i])
    case None => watermark
  }

  /** The watermark is sent to the server only when it is a non-empty id. */
  function QueryWatermark(w: Option<string>): Option<string>
  {
    if w.Some? && w.value != "" then w else None
  }

  // ---- repeated ticks ----

  lemma KnownIdsGrow(t: seq<Message>, r: seq<Message>)
    requires multiset(t) <= multiset(r)
    ensures KnownIds(t) <= KnownIds(r)
  {
    forall x | x in KnownIds(t)
      ensures x in KnownIds(r)
    {
      var i :| 0 <= i < |t| && Key(t[i]).Some? && Key(t[i]).value == x;
      assert t[i] in multiset(r);
      var j :| 0 <= j < |r| && r[j] == t[i];
    }
  }

  /** A record that carries a non-empty string `id`. */
  predicate CarriesId(r: Json.Value)
  {
    Json.TruthyText(Json.Get(r, "id")).Some?
  }

  lemma MapRecordKey(x: Json.Value, now: int)
    requires CarriesId(x)
    ensures Key(MapRecord(x, now)) == RecordKey(x)
  {
  }

  /** Repeating a tick against the same remote records adds nothing, provided
    * every record carries its id under `id`. */
  lemma RepeatedTickAddsNothing(t: seq<Message>, rs: seq<Json.Value>, now1: int, now2: int)
    requires forall x :: x in rs ==> CarriesId(x)
    ensures NewMessages(Merge(t, NewMessages(t, rs, now1)), rs, now2) == []
  {
    var known := KnownIds(t);
    var added := NewMessages(t, rs, now1);
    var t2 := Merge(t, added);
    MergeSpec(t, added);
    KnownIdsGrow(t, t2);
    var picked := NewRecords(rs, known);
    forall x | x in rs
      ensures !IsNewRecord(x, KnownIds(t2))
    {
      if IsNewRecord(x, known) {
        var k :| 0 <= k < |picked| && picked[k] == x;
        var m := added[k];
        assert m == MapRecord(x, now1);
        MapRecordKey(x, now1);
        assert m in multiset(t2);
        var j :| 0 <= j < |t2| && t2[j] == m;
        assert RecordKey(x).value in KnownIds(t2);
      }
    }
    assert NewRecords(rs, KnownIds(t2)) == [];
  }

  /** Records that carry only `messageId` are mapped without any id, so the
    * next tick against the same response adds them again. */
  lemma MessageIdOnlyRecordsRepeat(now1: int, now2: int)
    ensures var r := Json.Obj(map["messageId" := Json.Str("m1")]);
      var t2 := Merge([], NewMessages([], [r], now1));
      |t2| == 1 && |NewMessages(t2, [r], now2)| == 1
  {
    var r := Json.Obj(map["messageId" := Json.Str("m1")]);
    assert RecordKey(r) == Some("m1");
    assert NewRecords([r], {}) == [r];
    var m := MapRecord(r, now1);
    assert Key(m).None?;
    var t2 := Merge([], NewMessages([], [r], now1));
    assert NewMessages([], [r], now1) == [m];
    assert Insert(m, []) == [m];
    assert Sort([m]) == [m];
    assert t2 == [m];
    assert KnownIds(t2) == {};
    assert NewRecords([r], KnownIds(t2)) == [r];
  }
}
