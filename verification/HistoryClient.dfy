/**
 The browser's copy of a session's messages: a list of records, merged by id
 and kept in history order.
 */
module HistoryClient {
  import opened Prelude
  import opened Json
  import opened MessageHistory

  /** An event as it reaches the browser. */
  datatype HistoryEvent = HistoryEvent(turnId: string, seqNo: int, kind: EventType, payload: Record)

  /** `message.lastEventSeq ?? 0`. */
  function LastSeq(m: Record): int {
    var v := Get(m, KeyLastEventSeq);
    if v.Num? then v.n else 0
  }

  function ReadSnapshot(e: HistoryEvent): Option<Record> {
    var snapshot := Get(e.payload, KeyMessage);
    if !Truthy(Property(snapshot, KeyId)) then None
    else
      var itemId := Get(e.payload, KeyItemId);
      Some(snapshot.fields + map[
        KeyTurnId := OrElse(Get(snapshot.fields, KeyTurnId), Str(e.turnId)),
        KeyBackendItemId := OrElse(Get(snapshot.fields, KeyBackendItemId), if itemId.Str? then itemId else Undefined)])
  }

  // ---- Order ---------------------------------------------------------------

  /** `a` comes before `b` in code-unit order. */
  predicate TextLess(a: string, b: string) {
    if b == "" then false
    else if a == "" then true
    else a[0] < b[0] || (a[0] == b[0] && TextLess(a[1..], b[1..]))
  }

  /** The list order: by history number where both have one, else by creation time and id. */
  predicate Before(a: Record, b: Record) {
    var x, y := Get(a, KeyHistorySeq), Get(b, KeyHistorySeq);
    if x.Num? && y.Num? then x.n < y.n
    else
      var s, t := StringOr(Get(a, KeyCreatedAt), ""), StringOr(Get(b, KeyCreatedAt), "");
      TextLess(s, t) || (s == t && TextLess(StringOr(Get(a, KeyId), ""), StringOr(Get(b, KeyId), "")))
  }

  /** Insert after everything that is not later. */
  function Insert(list: seq<Record>, m: Record): seq<Record> {
    if list == [] then [m]
    else if Before(m, list[|list| - 1]) then Insert(list[..|list| - 1], m) + [list[|list| - 1]]
    else list + [m]
  }

  /** Stable sort. */
  function Sort(list: seq<Record>): seq<Record> {
    if list == [] then [] else Insert(Sort(list[..|list| - 1]), list[|list| - 1])
  }

  // ---- Merging -------------------------------------------------------------

  /** The position of the entry for this id, or the length of the list. */
  function IndexOf(list: seq<Record>, id: Value): (i: nat)
    ensures i <= |list|
    ensures i < |list| ==> Get(list[i], KeyId) == id
    ensures forall j :: 0 <= j < i ==> Get(list[j], KeyId) != id
  {
    if list == [] || Get(list[0], KeyId) == id then 0 else 1 + IndexOf(list[1..], id)
  }

  /** `map.set(message.id, message)` on a map kept in insertion order. */
  function SetEntry(list: seq<Record>, m: Record): seq<Record> {
    var i := IndexOf(list, Get(m, KeyId));
    if i < |list| then list[i := m] else list + [m]
  }

  function ToMap(list: seq<Record>): seq<Record> {
    if list == [] then [] else SetEntry(ToMap(list[..|list| - 1]), list[|list| - 1])
  }

  function MergeOne(list: seq<Record>, m: Record): seq<Record> {
    var i := IndexOf(list, Get(m, KeyId));
    if i == |list| then list + [m]
    else if LastSeq(list[i]) > LastSeq(m) then list
    else list[i := list[i] + m]
  }

  function MergeEach(list: seq<Record>, incoming: seq<Record>): seq<Record> {
    if incoming == [] then list
    else MergeOne(MergeEach(list, incoming[..|incoming| - 1]), incoming[|incoming| - 1])
  }

  function Merge(current: seq<Record>, incoming: seq<Record>): seq<Record> {
    Sort(MergeEach(ToMap(current), incoming))
  }

  /** The same merge, filling an insertion-ordered map in loops. */
  method MergeHistoryMessages(current: seq<Record>, incoming: seq<Record>) returns (merged: seq<Record>)
    ensures merged == Merge(current, incoming)
  {
    var byId := [];
    for i := 0 to |current|
      invariant byId == ToMap(current[..i])
    {
      assert current[..i + 1][..i] == current[..i];
      byId := SetEntry(byId, current[i]);
    }
    assert current[..|current|] == current;
    for i := 0 to |incoming|
      invariant byId == MergeEach(ToMap(current), incoming[..i])
    {
      assert incoming[..i + 1][..i] == incoming[..i];
      var message := incoming[i];
      var at := IndexOf(byId, Get(message, KeyId));
      if at < |byId| && LastSeq(byId[at]) > LastSeq(message) { continue; }
      var previous := if at < |byId| then byId[at] else map[];
      assert map[] + message == message;
      assert Get(previous + message, KeyId) == Get(message, KeyId);
      byId := SetEntry(byId, previous + message);
    }
    assert incoming[..|incoming|] == incoming;
    merged := Sort(byId);
  }

  // ---- Events --------------------------------------------------------------

  function Fields(v: Value): Record {
    if v.Obj? then v.fields else map[]
  }

  /** An entry of a terminal event's list, given its turn and event number. */
  function Restore(e: HistoryEvent, v: Value): Record {
    Fields(v) + map[KeyTurnId := OrElse(Get(Fields(v), KeyTurnId), Str(e.turnId)), KeyLastEventSeq := Num(e.seqNo)]
  }

  function Restored(e: HistoryEvent, items: seq<Value>): seq<Record> {
    seq(|items|, i requires 0 <= i < |items| => Restore(e, items[i]))
  }

  function ApplyDelta(m: Record, e: HistoryEvent): Record {
    if Get(m, KeyId) != Get(e.payload, KeyMessageId) || Get(m, KeyState) != StateValue(Streaming) || LastSeq(m) >= e.seqNo
    then m
    else m + map[
      KeyContent := Str(StringOr(Get(m, KeyContent), "") + StringOr(Get(e.payload, KeyText), "")),
      KeyLastEventSeq := Num(e.seqNo)]
  }

  function ApplyHistoryEvent(current: seq<Record>, e: HistoryEvent): seq<Record> {
    var snapshot := ReadSnapshot(e);
    var messages := Get(e.payload, KeyMessages);
    if Get(e.payload, KeyIgnored) == Bool(true) then current
    else if snapshot.Some? then Merge(current, [snapshot.value[KeyLastEventSeq := Num(e.seqNo)]])
    else if messages.Arr? then Merge(current, Restored(e, messages.items))
    else if !e.kind.AssistantDelta? || !Get(e.payload, KeyItemId).Str? then current
    else seq(|current|, i requires 0 <= i < |current| => ApplyDelta(current[i], e))
  }

  /** The client after the events `events`, oldest first. */
  function ApplyAll(current: seq<Record>, events: seq<HistoryEvent>): seq<Record> {
    if events == [] then current
    else ApplyHistoryEvent(ApplyAll(current, events[..|events| - 1]), events[|events| - 1])
  }
}
