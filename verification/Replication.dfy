/**
 Message-history replication: a browser that loads the history at any event
 number and applies the published events after it holds the server's messages.
 */
module Replication {
  import opened Prelude
  import opened Json
  import opened MessageHistory
  import opened HistoryTables
  import opened HistoryInvariants
  import opened TimelineWire
  import opened HistoryClient

  // ---- What the browser receives -------------------------------------------

  function Wire(turnId: string, e: Event, stored: Record): HistoryEvent {
    HistoryEvent(turnId, e.seqNo, e.kind, Summarize(e.kind, stored))
  }

  /** The events of a log as published, without those whose transaction was rolled back. */
  function Published(db: Db, log: seq<Event>): seq<HistoryEvent> {
    if log == [] then []
    else
      var n := |log| - 1;
      Published(db, log[..n]) + PublishedOne(db.turn.id, After(db, log[..n]), log[n])
  }

  function PublishedOne(turnId: string, at: Db, e: Event): seq<HistoryEvent> {
    var outcome := Project(at, e);
    if outcome.Projected? then [Wire(turnId, e, outcome.payload)] else []
  }

  /** The history endpoint's row, stamped with the event number it was read at. */
  function LoadRow(turn: Turn, m: Message, cursor: int): Record {
    var turnId := if m.turnId.None? && turn.userMessageId == Some(m.id) then Some(turn.id) else m.turnId;
    (Snapshot(m) - {KeySessionId, KeyTokenCount})[KeyTurnId := StringOrNull(turnId)]
      [KeyLastEventSeq := Num(if turnId == Some(turn.id) then cursor else 0)]
  }

  function Load(db: Db, cursor: int): seq<Record> {
    seq(|db.messages|, i requires 0 <= i < |db.messages| => LoadRow(db.turn, db.messages[i], cursor))
  }

  // ---- Agreement -----------------------------------------------------------

  /** Same message on every replicated field (all but `phase`). */
  predicate Agree(r: Record, m: Message) {
    && Get(r, KeyId) == Str(m.id)
    && Get(r, KeyRole) == RoleValue(m.role)
    && Get(r, KeyContent) == Str(m.content)
    && Get(r, KeyCreatedAt) == Str(m.createdAt)
    && Get(r, KeyTurnId) == StringOrNull(m.turnId)
    && Get(r, KeyBackendItemId) == StringOrNull(m.backendItemId)
    && Get(r, KeyHistorySeq) == Num(m.historySeq)
    && Get(r, KeyState) == StateValue(m.state)
    && Get(r, KeyStartEventSeq) == NumberOrNull(m.startEventSeq)
    && Get(r, KeyEndEventSeq) == NumberOrNull(m.endEventSeq)
    && Get(r, KeyTimelineStartSeq) == NumberOrNull(m.timelineStartSeq)
  }

  /** The browser's list is the server's list, entry by entry, and no entry is stamped past `cursor`. */
  ghost predicate InSync(list: seq<Record>, rows: seq<Message>, cursor: int) {
    && |list| == |rows|
    && forall i :: 0 <= i < |rows| ==> Agree(list[i], rows[i]) && LastSeq(list[i]) <= cursor
  }

  /** The one replicated field a delta can change on the server alone. */
  ghost predicate PhaseInSync(list: seq<Record>, rows: seq<Message>) {
    && |list| == |rows|
    && forall i :: 0 <= i < |rows| ==> Get(list[i], KeyPhase) == StringOrNull(rows[i].phase)
  }

  /** What the browser stores for a snapshot of `m` in event `seqNo`. */
  function ClientRow(m: Message, seqNo: int): Record {
    (Snapshot(m) - {KeySessionId, KeyTokenCount})[KeyLastEventSeq := Num(seqNo)]
  }

  /** What the browser reads off an entry that agrees with its row. */
  lemma NamesAgree(r: Record, m: Message)
    requires Agree(r, m)
    ensures Get(r, KeyRole) == Str("user") <==> m.role == User
    ensures Get(r, KeyRole) == Str("assistant") <==> m.role == Assistant
    ensures Get(r, KeyRole) == Str("system") <==> m.role == System
    ensures Get(r, KeyState) == Str("streaming") <==> m.state == Streaming
    ensures Get(r, KeyState) == Str("completed") <==> m.state == Completed
    ensures Get(r, KeyState) == Str("interrupted") <==> m.state == Interrupted
    ensures Get(r, KeyTurnId) == (if m.turnId.Some? then Str(m.turnId.value) else Null)
    ensures Get(r, KeyBackendItemId) == (if m.backendItemId.Some? then Str(m.backendItemId.value) else Null)
    ensures Get(r, KeyStartEventSeq) == (if m.startEventSeq.Some? then Num(m.startEventSeq.value) else Null)
    ensures Get(r, KeyEndEventSeq) == (if m.endEventSeq.Some? then Num(m.endEventSeq.value) else Null)
    ensures Get(r, KeyTimelineStartSeq) == (if m.timelineStartSeq.Some? then Num(m.timelineStartSeq.value) else Null)
  {
    assert "user"[0] == 'u' && "assistant"[0] == 'a' && "system"[0] == 's';
    assert "streaming"[0] == 's' && "completed"[0] == 'c' && "interrupted"[0] == 'i';
  }

  // ---- Clean payloads ------------------------------------------------------

  predicate SnapshotLike(p: Record) {
    Truthy(Property(Get(p, KeyMessage), KeyId))
  }

  predicate ListsMessages(p: Record) {
    Get(p, KeyMessages).Arr? && Get(p, KeyMessages) != Arr([])
  }

  /**
   A raw payload that does not use the names the projection itself publishes
   (`ignored`, `message`, `messages`) in a way the browser would act on.
   */
  predicate Clean(kind: EventType, p: Record) {
    match kind
    case DiffUpdated => true
    case ToolStarted => true
    case ToolOutput => true
    case ToolCompleted => true
    case ApprovalRequested => true
    case AssistantStarted => ItemId(p) != "" ==> Get(p, KeyIgnored) != Bool(true)
    case AssistantCompleted => ItemId(p) != "" ==> Get(p, KeyIgnored) != Bool(true)
    case UserAccepted => ItemId(p) != "" ==> Get(p, KeyIgnored) != Bool(true)
    case AssistantDelta =>
      if Get(p, KeyItemId).Str? then
        ItemId(p) != "" ==>
          && Get(p, KeyIgnored) != Bool(true) && !SnapshotLike(p) && !ListsMessages(p)
          && (Get(p, KeyMessages).Arr? ==> StringOr(Get(p, KeyText), "") == "")
      else Get(p, KeyIgnored) == Bool(true) || (!SnapshotLike(p) && !ListsMessages(p))
    case OtherEvent(_) => Get(p, KeyIgnored) == Bool(true) || (!SnapshotLike(p) && !ListsMessages(p))
    case _ => Get(p, KeyIgnored) != Bool(true) && !SnapshotLike(p)
  }

  predicate CleanLog(log: seq<Event>) {
    forall i :: 0 <= i < |log| ==> Clean(log[i].kind, log[i].payload)
  }

  // ---- Sorted lists are left alone -----------------------------------------

  predicate Numbered(r: Record) {
    Get(r, KeyHistorySeq).Num?
  }

  /** Two numbered entries, the earlier first. */
  predicate Precedes(a: Record, b: Record)
    requires Numbered(a) && Numbered(b)
  {
    Get(a, KeyHistorySeq).n < Get(b, KeyHistorySeq).n && Get(a, KeyId) != Get(b, KeyId)
  }

  /** Entries with different ids, in strictly rising history order. */
  ghost predicate Kept(list: seq<Record>) {
    && (forall i :: 0 <= i < |list| ==> Numbered(list[i]))
    && (forall i, j :: 0 <= i < j < |list| ==> Precedes(list[i], list[j]))
  }

  lemma {:induction false} SortKept(list: seq<Record>)
    requires Kept(list)
    ensures Sort(list) == list
  {
    if list != [] {
      var n := |list| - 1;
      var front := list[..n];
      SortKept(front);
      if n > 0 {
        assert front[n - 1] == list[n - 1] && Precedes(list[n - 1], list[n]);
        assert !Before(list[n], front[n - 1]);
      }
      assert Insert(front, list[n]) == front + [list[n]];
      assert list == front + [list[n]];
    }
  }

  lemma {:induction false} ToMapKept(list: seq<Record>)
    requires Kept(list)
    ensures ToMap(list) == list
  {
    if list != [] {
      var n := |list| - 1;
      var front := list[..n];
      ToMapKept(front);
      forall j | 0 <= j < n ensures Get(front[j], KeyId) != Get(list[n], KeyId) {
        assert Precedes(list[j], list[n]);
      }
      assert list == front + [list[n]];
    }
  }

  lemma InSyncIsKept(list: seq<Record>, rows: seq<Message>, cursor: int)
    requires Keyed(rows) && InSync(list, rows, cursor)
    ensures Kept(list)
  {
    forall i | 0 <= i < |list| ensures Numbered(list[i]) {
      assert Agree(list[i], rows[i]);
    }
    forall i, j | 0 <= i < j < |list| ensures Precedes(list[i], list[j]) {
      assert Apart(rows[i], rows[j]) && Agree(list[i], rows[i]) && Agree(list[j], rows[j]);
    }
  }

  // ---- Merging one snapshot ------------------------------------------------

  predicate Complete(r: Record) {
    && KeyId in r && KeyRole in r && KeyContent in r && KeyCreatedAt in r && KeyTurnId in r && KeyBackendItemId in r
    && KeyHistorySeq in r && KeyState in r && KeyStartEventSeq in r && KeyEndEventSeq in r && KeyTimelineStartSeq in r
    && KeyPhase in r && KeyLastEventSeq in r
  }

  lemma ClientRowAgrees(m: Message, seqNo: int)
    ensures var r := ClientRow(m, seqNo);
      Complete(r) && Agree(r, m) && LastSeq(r) == seqNo && Get(r, KeyPhase) == StringOrNull(m.phase)
  {
    ClientRowComplete(m, seqNo);
  }

  lemma ClientRowComplete(m: Message, seqNo: int)
    ensures Complete(ClientRow(m, seqNo))
  {
  }

  /** `{...previous, ...snapshot}` shows the snapshot. */
  lemma SpreadAgrees(previous: Record, r: Record, m: Message)
    requires Complete(r) && Agree(r, m)
    ensures Agree(previous + r, m) && LastSeq(previous + r) == LastSeq(r) && Get(previous + r, KeyPhase) == Get(r, KeyPhase)
  {
  }

  /** Where the entry for row `i` is found. */
  lemma IndexInSync(list: seq<Record>, rows: seq<Message>, cursor: int, i: nat)
    requires Keyed(rows) && InSync(list, rows, cursor) && i < |rows|
    ensures IndexOf(list, Str(rows[i].id)) == i
  {
    var at := IndexOf(list, Str(rows[i].id));
    assert Agree(list[i], rows[i]);
    assert at <= i;
    assert at < i ==> Agree(list[at], rows[at]) && Apart(rows[at], rows[i]);
  }

  /** Which rows a replacement touches. */
  lemma ReplacedAt(rows: seq<Message>, i: nat, m: Message)
    requires Keyed(rows) && i < |rows| && m.id == rows[i].id
    ensures Replace(rows, m) == rows[i := m]
  {
    forall k | 0 <= k < |rows| && k != i ensures rows[k].id != m.id {
      assert if k < i then Apart(rows[k], rows[i]) else Apart(rows[i], rows[k]);
    }
  }

  lemma MergeOneAt(list: seq<Record>, r: Record, i: nat)
    requires i < |list| && IndexOf(list, Get(r, KeyId)) == i && LastSeq(list[i]) <= LastSeq(r)
    ensures MergeOne(list, r) == list[i := list[i] + r]
  {
  }

  lemma MergeKnown(list: seq<Record>, rows: seq<Message>, cursor: int, was: Message, m: Message, seqNo: int)
    requires Keyed(rows) && InSync(list, rows, cursor) && cursor <= seqNo
    requires was in rows && m.id == was.id
    ensures InSync(MergeOne(list, ClientRow(m, seqNo)), Replace(rows, m), seqNo)
    ensures PhaseInSync(list, rows) ==> PhaseInSync(MergeOne(list, ClientRow(m, seqNo)), Replace(rows, m))
  {
    var r := ClientRow(m, seqNo);
    var i :| 0 <= i < |rows| && rows[i] == was;
    IndexInSync(list, rows, cursor, i);
    ClientRowAgrees(m, seqNo);
    SpreadAgrees(list[i], r, m);
    ReplacedAt(rows, i, m);
    assert Agree(list[i], rows[i]) && LastSeq(list[i]) <= cursor;
    MergeOneAt(list, r, i);
    SetInSync(list, rows, cursor, i, list[i] + r, m, seqNo);
  }

  lemma SetInSync(list: seq<Record>, rows: seq<Message>, cursor: int, i: nat, r: Record, m: Message, seqNo: int)
    requires InSync(list, rows, cursor) && cursor <= seqNo && i < |rows|
    requires Agree(r, m) && LastSeq(r) <= seqNo
    ensures InSync(list[i := r], rows[i := m], seqNo)
    ensures PhaseInSync(list, rows) && Get(r, KeyPhase) == StringOrNull(m.phase) ==> PhaseInSync(list[i := r], rows[i := m])
    ensures PhaseInSync(list, rows) && Get(r, KeyPhase) != StringOrNull(m.phase) ==> !PhaseInSync(list[i := r], rows[i := m])
  {
    var out, next := list[i := r], rows[i := m];
    forall k | 0 <= k < |rows| ensures Agree(out[k], next[k]) && LastSeq(out[k]) <= seqNo {
      if k != i { assert Agree(list[k], rows[k]) && LastSeq(list[k]) <= cursor; }
    }
    if PhaseInSync(list, rows) {
      assert out[i] == r && next[i] == m;
    }
  }

  lemma MergeNew(list: seq<Record>, rows: seq<Message>, cursor: int, m: Message, seqNo: int)
    requires InSync(list, rows, cursor) && cursor <= seqNo && FreshId(rows, m.id)
    ensures InSync(MergeOne(list, ClientRow(m, seqNo)), rows + [m], seqNo)
    ensures PhaseInSync(list, rows) ==> PhaseInSync(MergeOne(list, ClientRow(m, seqNo)), rows + [m])
  {
    var r := ClientRow(m, seqNo);
    ClientRowAgrees(m, seqNo);
    forall j | 0 <= j < |list| ensures Get(list[j], KeyId) != Get(r, KeyId) {
      assert Agree(list[j], rows[j]) && rows[j] in rows;
    }
    var next := list + [r];
    forall k | 0 <= k < |next| ensures Agree(next[k], (rows + [m])[k]) && LastSeq(next[k]) <= seqNo {
      if k < |list| { assert Agree(list[k], rows[k]) && LastSeq(list[k]) <= cursor; }
    }
  }

  lemma MergeSingle(list: seq<Record>, rows: seq<Message>, cursor: int, next: seq<Message>, m: Message, seqNo: int)
    requires Keyed(rows) && InSync(list, rows, cursor) && cursor <= seqNo && Keyed(next)
    requires (m in rows && next == rows)
          || (FreshId(rows, m.id) && next == rows + [m])
          || (HasId(rows, m.id) && next == Replace(rows, m))
    ensures InSync(Merge(list, [ClientRow(m, seqNo)]), next, seqNo)
    ensures PhaseInSync(list, rows) ==> PhaseInSync(Merge(list, [ClientRow(m, seqNo)]), next)
  {
    var r := ClientRow(m, seqNo);
    InSyncIsKept(list, rows, cursor);
    ToMapKept(list);
    assert [r][..0] == [];
    assert MergeEach(list, [r]) == MergeOne(list, r);
    if m in rows && next == rows {
      MergeKnown(list, rows, cursor, m, m, seqNo);
      ReplaceSame(rows, m);
    } else if FreshId(rows, m.id) {
      MergeNew(list, rows, cursor, m, seqNo);
    } else {
      var was :| was in rows && was.id == m.id;
      MergeKnown(list, rows, cursor, was, m, seqNo);
    }
    InSyncIsKept(MergeOne(list, r), next, seqNo);
    SortKept(MergeOne(list, r));
  }

  lemma ReplaceSame(rows: seq<Message>, m: Message)
    requires Keyed(rows) && m in rows
    ensures Replace(rows, m) == rows
  {
    forall i | 0 <= i < |rows| && rows[i].id == m.id ensures rows[i] == m {
      SameId(rows, rows[i], m);
    }
  }

  // ---- The wire form gives the snapshot back -------------------------------

  predicate General(kind: EventType) {
    !kind.DiffUpdated? && !kind.ToolStarted? && !kind.ToolOutput? && !kind.ToolCompleted? && !kind.ApprovalRequested?
  }

  /** The fields a message snapshot loses on the wire and gets back from its event. */
  lemma SnapshotRestored(m: Message, turnId: string, itemId: string)
    requires IsItem(m, turnId, itemId)
    ensures var s := SummarizeSnapshot(Snapshot(m), Str(itemId));
      && Get(s, KeyId) == Str(m.id)
      && s + map[KeyTurnId := OrElse(Get(s, KeyTurnId), Str(turnId)),
                 KeyBackendItemId := OrElse(Get(s, KeyBackendItemId), Str(itemId))]
         == Snapshot(m) - {KeySessionId, KeyTokenCount}
  {
  }

  lemma EntryRestored(m: Message, e: HistoryEvent)
    requires m.turnId == Some(e.turnId)
    ensures Restore(e, SummarizeEntry(Obj(Snapshot(m)))) == ClientRow(m, e.seqNo)
  {
  }

  /** An event that carries a snapshot of `m` for its own item shows the browser `m`. */
  lemma WireSnapshot(e: Event, stored: Record, m: Message, turnId: string, itemId: string)
    requires General(e.kind) && Get(stored, KeyMessage) == Obj(Snapshot(m)) && Get(stored, KeyItemId) == Str(itemId)
    ensures var w := Wire(turnId, e, stored);
      && Get(w.payload, KeyMessage) == Obj(SummarizeSnapshot(Snapshot(m), Str(itemId)))
      && Get(w.payload, KeyItemId) == Str(itemId) && Get(w.payload, KeyIgnored) == Get(stored, KeyIgnored)
  {
    MessageSummary(e.kind, stored, m, itemId);
    ListSummary(SummarizeMessage(e.kind, stored));
    assert Wire(turnId, e, stored).payload == SummarizeMessages(SummarizeMessage(e.kind, stored));
  }

  lemma MessageSummary(kind: EventType, stored: Record, m: Message, itemId: string)
    requires Get(stored, KeyMessage) == Obj(Snapshot(m)) && Get(stored, KeyItemId) == Str(itemId)
    ensures var s := SummarizeMessage(kind, stored);
      && Get(s, KeyMessage) == Obj(SummarizeSnapshot(Snapshot(m), Str(itemId)))
      && Get(s, KeyItemId) == Str(itemId) && Get(s, KeyIgnored) == Get(stored, KeyIgnored)
  {
    assert Get(Snapshot(m), KeyId) == Str(m.id);
  }

  /** Summarising the list of messages leaves the other fields alone. */
  lemma ListSummary(r: Record)
    ensures forall k :: k != KeyMessages ==> Get(SummarizeMessages(r), k) == Get(r, k)
  {
  }

  lemma SingleSnapshot(e: Event, stored: Record, m: Message, turnId: string, itemId: string, list: seq<Record>)
    requires General(e.kind) && IsItem(m, turnId, itemId) && m.id != ""
    requires Get(stored, KeyMessage) == Obj(Snapshot(m)) && Get(stored, KeyItemId) == Str(itemId)
    requires Get(stored, KeyIgnored) != Bool(true)
    ensures ApplyHistoryEvent(list, Wire(turnId, e, stored)) == Merge(list, [ClientRow(m, e.seqNo)])
    ensures ReadSnapshot(Wire(turnId, e, stored)) == Some(Snapshot(m) - {KeySessionId, KeyTokenCount})
    ensures Get(Wire(turnId, e, stored).payload, KeyIgnored) != Bool(true)
  {
    SnapshotRestored(m, turnId, itemId);
    WireSnapshot(e, stored, m, turnId, itemId);
    var w := Wire(turnId, e, stored);
    assert ReadSnapshot(w) == Some(Snapshot(m) - {KeySessionId, KeyTokenCount});
  }

  /** Without a snapshot to show, the general summary keeps what the browser looks at. */
  lemma PlainSummary(kind: EventType, p: Record)
    requires General(kind) && !SnapshotLike(p)
    ensures var s := Summarize(kind, p);
      && !SnapshotLike(s)
      && Get(s, KeyIgnored) == Get(p, KeyIgnored)
      && Get(s, KeyMessageId) == Get(p, KeyMessageId)
      && Get(s, KeyItemId) == Get(p, KeyItemId)
      && (!kind.AssistantCompleted? ==> Get(s, KeyText) == Get(p, KeyText))
      && (Get(s, KeyMessages).Arr? <==> Get(p, KeyMessages).Arr?)
      && (Get(p, KeyMessages).Arr? ==>
            Get(s, KeyMessages).items ==
              seq(|Get(p, KeyMessages).items|, i requires 0 <= i < |Get(p, KeyMessages).items| => SummarizeEntry(Get(p, KeyMessages).items[i])))
  {
  }

  lemma MergeNothing(list: seq<Record>)
    requires Kept(list)
    ensures Merge(list, []) == list
  {
    ToMapKept(list);
    SortKept(list);
  }

  // ---- One event -----------------------------------------------------------

  lemma SpecialSummary(kind: EventType, p: Record)
    requires !General(kind)
    ensures var s := Summarize(kind, p); KeyIgnored !in s && KeyMessage !in s && KeyMessages !in s
  {
    assert NotCopied(OUTPUT_FIELDS) && NotCopied(TOOL_FIELDS) && NotCopied(APPROVAL_FIELDS);
  }

  predicate NotCopied(keys: set<Field>) {
    KeyIgnored !in keys && KeyMessage !in keys && KeyMessages !in keys
  }

  lemma EmptyRestored(w: HistoryEvent, list: seq<Record>)
    requires Kept(list) && !SnapshotLike(w.payload) && Get(w.payload, KeyMessages) == Arr([])
    ensures ApplyHistoryEvent(list, w) == list
  {
    MergeNothing(list);
    assert Restored(w, []) == [];
  }

  lemma PlainEmptyList(kind: EventType, p: Record)
    requires General(kind) && !SnapshotLike(p) && !ListsMessages(p) && Get(p, KeyMessages).Arr?
    ensures Get(Summarize(kind, p), KeyMessages) == Arr([])
  {
    PlainSummary(kind, p);
    assert Get(Summarize(kind, p), KeyMessages).items == [];
  }

  /** An event the projection leaves alone changes nothing in the browser either. */
  lemma OtherStep(turnId: string, e: Event, list: seq<Record>)
    requires !IsTerminal(e.kind) && !IsAssistant(e) && !e.kind.UserAccepted? && Clean(e.kind, e.payload)
    requires Kept(list)
    ensures ApplyHistoryEvent(list, Wire(turnId, e, e.payload)) == list
  {
    var w := Wire(turnId, e, e.payload);
    if !General(e.kind) {
      SpecialSummary(e.kind, e.payload);
    } else if Get(e.payload, KeyIgnored) == Bool(true) {
      IgnoredSurvives(e.kind, e.payload);
    } else {
      PlainSummary(e.kind, e.payload);
      if Get(e.payload, KeyMessages).Arr? {
        PlainEmptyList(e.kind, e.payload);
        EmptyRestored(w, list);
      }
    }
  }

  lemma IgnoredSurvives(kind: EventType, p: Record)
    requires General(kind)
    ensures Get(Summarize(kind, p), KeyIgnored) == Get(p, KeyIgnored)
  {
  }

  lemma DeltaOnce(r: Record, m: Message, w: HistoryEvent, cursor: int)
    requires Agree(r, m) && LastSeq(r) <= cursor < w.seqNo && m.state == Streaming
    requires Get(w.payload, KeyMessageId) == Str(m.id)
    ensures var text := StringOr(Get(w.payload, KeyText), "");
      Agree(ApplyDelta(r, w), m.(content := m.content + text)) && LastSeq(ApplyDelta(r, w)) == w.seqNo
    ensures Get(ApplyDelta(r, w), KeyPhase) == Get(r, KeyPhase)
  {
  }

  /** A delta that is neither ignored nor mistaken for a snapshot. */
  predicate PlainDelta(w: HistoryEvent, m: Message) {
    && w.kind.AssistantDelta? && Get(w.payload, KeyItemId).Str?
    && Get(w.payload, KeyIgnored) != Bool(true) && !SnapshotLike(w.payload)
    && Get(w.payload, KeyMessageId) == Str(m.id)
    && (Get(w.payload, KeyMessages).Arr? ==>
          Get(w.payload, KeyMessages) == Arr([]) && StringOr(Get(w.payload, KeyText), "") == "")
  }

  /** What a plain delta does to a list in step: it touches the one entry. */
  lemma DeltaTouchesOne(rows: seq<Message>, cursor: int, w: HistoryEvent, list: seq<Record>, i: nat)
    requires Keyed(rows) && InSync(list, rows, cursor) && cursor < w.seqNo
    requires i < |rows| && rows[i].state == Streaming && PlainDelta(w, rows[i]) && !Get(w.payload, KeyMessages).Arr?
    ensures ApplyHistoryEvent(list, w) == list[i := ApplyDelta(list[i], w)]
  {
    forall k | 0 <= k < |rows| && k != i ensures ApplyDelta(list[k], w) == list[k] {
      assert if k < i then Apart(rows[k], rows[i]) else Apart(rows[i], rows[k]);
      assert Agree(list[k], rows[k]);
    }
    DeltaIsMapped(w, list);
  }

  lemma DeltaIsMapped(w: HistoryEvent, list: seq<Record>)
    requires w.kind.AssistantDelta? && Get(w.payload, KeyItemId).Str? && Get(w.payload, KeyIgnored) != Bool(true)
    requires !SnapshotLike(w.payload) && !Get(w.payload, KeyMessages).Arr?
    ensures ApplyHistoryEvent(list, w) == seq(|list|, k requires 0 <= k < |list| => ApplyDelta(list[k], w))
  {
  }

  /** A delta on a streaming message extends the browser's text the same way. */
  lemma DeltaStep(rows: seq<Message>, cursor: int, w: HistoryEvent, list: seq<Record>, m: Message, after: Message)
    requires Keyed(rows) && InSync(list, rows, cursor) && cursor < w.seqNo
    requires m in rows && m.state == Streaming && PlainDelta(w, m)
    requires after == m.(content := m.content + StringOr(Get(w.payload, KeyText), ""), phase := after.phase)
    ensures InSync(ApplyHistoryEvent(list, w), Replace(rows, after), w.seqNo)
    ensures PhaseInSync(list, rows) ==> (PhaseInSync(ApplyHistoryEvent(list, w), Replace(rows, after)) <==> after.phase == m.phase)
  {
    var i :| 0 <= i < |rows| && rows[i] == m;
    var r := DeltaEntry(rows, cursor, w, list, i);
    ReplacedAt(rows, i, after);
    DeltaAgrees(r, m, after, StringOr(Get(w.payload, KeyText), ""));
    assert PhaseInSync(list, rows) ==> Get(list[i], KeyPhase) == StringOrNull(m.phase);
    SetInSync(list, rows, cursor, i, r, after, w.seqNo);
  }

  /** The entry a plain delta leaves in place `i`. */
  lemma DeltaEntry(rows: seq<Message>, cursor: int, w: HistoryEvent, list: seq<Record>, i: nat) returns (r: Record)
    requires Keyed(rows) && InSync(list, rows, cursor) && cursor < w.seqNo
    requires i < |rows| && rows[i].state == Streaming && PlainDelta(w, rows[i])
    ensures ApplyHistoryEvent(list, w) == list[i := r]
    ensures Agree(r, rows[i].(content := rows[i].content + StringOr(Get(w.payload, KeyText), "")))
    ensures LastSeq(r) <= w.seqNo && Get(r, KeyPhase) == Get(list[i], KeyPhase)
  {
    assert Agree(list[i], rows[i]) && LastSeq(list[i]) <= cursor;
    if Get(w.payload, KeyMessages).Arr? {
      InSyncIsKept(list, rows, cursor);
      EmptyRestored(w, list);
      assert rows[i].content + "" == rows[i].content;
      r := list[i];
    } else {
      DeltaTouchesOne(rows, cursor, w, list, i);
      DeltaOnce(list[i], rows[i], w, cursor);
      r := ApplyDelta(list[i], w);
    }
  }

  lemma DeltaAgrees(r: Record, m: Message, after: Message, text: string)
    requires Agree(r, m.(content := m.content + text))
    requires after == m.(content := m.content + text, phase := after.phase)
    ensures Agree(r, after)
  {
  }

  /** What a stored payload with a snapshot of `m` looks like, and how the rows got to `next`. */
  ghost predicate StoresSnapshot(rows: seq<Message>, next: seq<Message>, turnId: string, itemId: string, stored: Record, m: Message) {
    && ((m in rows && next == rows) || (FreshId(rows, m.id) && next == rows + [m]) || (HasId(rows, m.id) && next == Replace(rows, m)))
    && IsItem(m, turnId, itemId) && m.id != ""
    && Get(stored, KeyMessage) == Obj(Snapshot(m)) && Get(stored, KeyItemId) == Str(itemId)
    && Get(stored, KeyIgnored) != Bool(true)
  }

  lemma SnapshotStep(rows: seq<Message>, next: seq<Message>, turnId: string, cursor: int, e: Event, stored: Record, m: Message, list: seq<Record>)
    requires Keyed(rows) && Keyed(next) && InSync(list, rows, cursor) && cursor < e.seqNo && General(e.kind)
    requires StoresSnapshot(rows, next, turnId, ItemId(e.payload), stored, m)
    ensures InSync(ApplyHistoryEvent(list, Wire(turnId, e, stored)), next, e.seqNo)
    ensures PhaseInSync(list, rows) ==> PhaseInSync(ApplyHistoryEvent(list, Wire(turnId, e, stored)), next)
  {
    SingleSnapshot(e, stored, m, turnId, ItemId(e.payload), list);
    MergeSingle(list, rows, cursor, next, m, e.seqNo);
  }

  /** The payload published with a user message. */
  lemma UserPayload(db: Db, e: Event, itemId: string, rows: seq<Message>, m: Message)
    requires ItemId(e.payload) == itemId != "" && Get(e.payload, KeyIgnored) != Bool(true)
    ensures var stored := FinishUser(db, e, itemId, rows, m).payload;
      && Get(stored, KeyMessage) == Obj(Snapshot(m)) && Get(stored, KeyItemId) == Str(itemId)
      && Get(stored, KeyIgnored) != Bool(true)
  {
  }

  lemma UserOutcome(db: Db, e: Event) returns (m: Message)
    requires Keyed(db.messages) && FreshId(db.messages, e.newId)
    requires e.kind.UserAccepted? && Project(db, e).Projected? && Clean(e.kind, e.payload)
    ensures StoresSnapshot(db.messages, Step(db, e).messages, db.turn.id, ItemId(e.payload), Project(db, e).payload, m)
  {
    var rows, itemId := db.messages, ItemId(e.payload);
    FoundItem(rows, db.turn.id, itemId);
    var existing := FindItem(rows, db.turn.id, itemId);
    assert Project(db, e) == ProjectUser(db, e, itemId);
    if existing.Some? {
      m := existing.value;
      UserPayload(db, e, itemId, rows, m);
    } else if Get(e.payload, KeyInitial) == Bool(true) && db.turn.userMessageId.Some? {
      FoundById(rows, db.turn.userMessageId.value);
      var was := FindById(rows, db.turn.userMessageId.value).value;
      m := was.(turnId := Some(db.turn.id), backendItemId := Some(itemId),
                startEventSeq := Some(e.seqNo), endEventSeq := Some(e.seqNo));
      assert was in rows && was.id == m.id;
      UserPayload(db, e, itemId, Replace(rows, m), m);
    } else {
      m := NewMessage(db, e, User, UserContent(db, e), itemId).(endEventSeq := Some(e.seqNo));
      UserPayload(db, e, itemId, rows + [m], m);
    }
  }

  lemma AssistantOutcome(db: Db, e: Event) returns (m: Message)
    requires Keyed(db.messages) && FreshId(db.messages, e.newId)
    requires IsAssistant(e) && Project(db, e).Projected? && Clean(e.kind, e.payload)
    requires var existing := FindItem(db.messages, db.turn.id, ItemId(e.payload));
      existing.None? || (existing.value.state == Streaming && !e.kind.AssistantDelta?)
    ensures StoresSnapshot(db.messages, Step(db, e).messages, db.turn.id, ItemId(e.payload), Project(db, e).payload, m)
  {
    var rows, itemId := db.messages, ItemId(e.payload);
    FoundItem(rows, db.turn.id, itemId);
    var existing := FindItem(rows, db.turn.id, itemId);
    m := Advance(if existing.Some? then existing.value else StartMessage(db, e, itemId), e);
    assert existing.Some? ==> HasId(rows, m.id) by {
      if existing.Some? { assert existing.value in rows && existing.value.id == m.id; }
    }
    var stored := e.payload + map[KeyMessageId := Str(m.id)] + map[KeyMessage := Obj(Snapshot(m))];
    assert Project(db, e) == ProjectAssistant(db, e, itemId);
    assert Project(db, e).payload == stored;
    assert Get(stored, KeyItemId) == Str(itemId) && Get(stored, KeyIgnored) == Get(e.payload, KeyIgnored);
  }

  /** The payload published for a delta on a streaming message is a plain delta. */
  lemma DeltaOutcome(db: Db, e: Event, m: Message)
    requires e.kind.AssistantDelta? && IsAssistant(e) && ItemId(e.payload) != "" && Clean(e.kind, e.payload)
    requires FindItem(db.messages, db.turn.id, ItemId(e.payload)) == Some(m) && m.state == Streaming
    ensures var w := Wire(db.turn.id, e, Project(db, e).payload);
      && PlainDelta(w, m)
      && StringOr(Get(w.payload, KeyText), "") == StringOr(Get(e.payload, KeyText), "")
    ensures Step(db, e).messages == Replace(db.messages, Advance(m, e))
  {
    var stored := Project(db, e).payload;
    assert stored == e.payload + map[KeyMessageId := Str(m.id)];
    assert Get(stored, KeyMessage) == Get(e.payload, KeyMessage) && Get(stored, KeyMessages) == Get(e.payload, KeyMessages);
    PlainSummary(e.kind, stored);
    if Get(stored, KeyMessages).Arr? {
      PlainEmptyList(e.kind, stored);
    }
  }

  /** A delta that gives a streaming message another phase. */
  predicate PhaseDrifts(db: Db, e: Event) {
    var existing := FindItem(db.messages, db.turn.id, ItemId(e.payload));
    && IsAssistant(e) && e.kind.AssistantDelta? && ItemId(e.payload) != ""
    && existing.Some? && existing.value.state == Streaming
    && Get(e.payload, KeyPhase).Str? && existing.value.phase != Some(Get(e.payload, KeyPhase).s)
  }

  lemma LaterInSync(list: seq<Record>, rows: seq<Message>, cursor: int, later: int)
    requires InSync(list, rows, cursor) && cursor <= later
    ensures InSync(list, rows, later)
  {
    forall i | 0 <= i < |rows| ensures Agree(list[i], rows[i]) && LastSeq(list[i]) <= later {
    }
  }

  lemma AssistantInSync(db: Db, cursor: int, e: Event, list: seq<Record>)
    requires Keyed(db.messages) && Keyed(Step(db, e).messages) && Admissible(db, cursor, e) && InSync(list, db.messages, cursor)
    requires IsAssistant(e) && Project(db, e).Projected? && Clean(e.kind, e.payload)
    ensures InSync(ApplyHistoryEvent(list, Wire(db.turn.id, e, Project(db, e).payload)), Step(db, e).messages, e.seqNo)
    ensures PhaseInSync(list, db.messages) ==>
      (PhaseInSync(ApplyHistoryEvent(list, Wire(db.turn.id, e, Project(db, e).payload)), Step(db, e).messages) <==> !PhaseDrifts(db, e))
  {
    var existing := FindItem(db.messages, db.turn.id, ItemId(e.payload));
    if existing.Some? && existing.value.state != Streaming {
      IgnoredSurvives(e.kind, Project(db, e).payload);
      LaterInSync(list, db.messages, cursor, e.seqNo);
    } else if existing.Some? && e.kind.AssistantDelta? {
      FoundItem(db.messages, db.turn.id, ItemId(e.payload));
      DeltaOutcome(db, e, existing.value);
      DeltaStep(db.messages, cursor, Wire(db.turn.id, e, Project(db, e).payload), list, existing.value, Advance(existing.value, e));
    } else {
      var m := AssistantOutcome(db, e);
      SnapshotStep(db.messages, Step(db, e).messages, db.turn.id, cursor, e, Project(db, e).payload, m, list);
    }
  }

  // ---- Terminal events -----------------------------------------------------

  /** Row by row: the server interrupts, the browser merges the snapshot. */
  lemma {:induction false} MergeClosed(list: seq<Record>, before: seq<Message>, cursor: int, todo: seq<Message>, n: nat, seqNo: int)
    returns (now: seq<Message>)
    requires Keyed(before) && InSync(list, before, cursor) && cursor <= seqNo
    requires n <= |todo| && forall m :: m in todo ==> m in before
    ensures Keyed(now) && ClosedUpTo(before, now, todo, n, seqNo)
    ensures InSync(MergeEach(list, seq(n, i requires 0 <= i < n => ClientRow(Close(todo[i], seqNo), seqNo))), now, seqNo)
    ensures PhaseInSync(list, before) ==>
      PhaseInSync(MergeEach(list, seq(n, i requires 0 <= i < n => ClientRow(Close(todo[i], seqNo), seqNo))), now)
  {
    var incoming := seq(n, i requires 0 <= i < n => ClientRow(Close(todo[i], seqNo), seqNo));
    if n == 0 {
      now := before;
      forall i | 0 <= i < |before| ensures Agree(list[i], before[i]) && LastSeq(list[i]) <= seqNo {
      }
    } else {
      var front := seq(n - 1, i requires 0 <= i < n - 1 => ClientRow(Close(todo[i], seqNo), seqNo));
      assert incoming[..n - 1] == front;
      var was := MergeClosed(list, before, cursor, todo, n - 1, seqNo);
      now := MergeClosedOne(MergeEach(list, front), before, was, todo, n - 1, seqNo);
    }
  }

  lemma MergeClosedOne(list: seq<Record>, before: seq<Message>, was: seq<Message>, todo: seq<Message>, n: nat, seqNo: int)
    returns (now: seq<Message>)
    requires Keyed(before) && Keyed(was) && InSync(list, was, seqNo)
    requires n < |todo| && (forall m :: m in todo ==> m in before) && ClosedUpTo(before, was, todo, n, seqNo)
    ensures Keyed(now) && ClosedUpTo(before, now, todo, n + 1, seqNo)
    ensures InSync(MergeOne(list, ClientRow(Close(todo[n], seqNo), seqNo)), now, seqNo)
    ensures PhaseInSync(list, was) ==> PhaseInSync(MergeOne(list, ClientRow(Close(todo[n], seqNo), seqNo)), now)
  {
    var m := Close(todo[n], seqNo);
    assert todo[n] in before;
    var i :| 0 <= i < |before| && before[i] == todo[n];
    ClosedKeepsKeys(before, was, todo, n, seqNo);
    MergeKnown(list, was, seqNo, was[i], m, seqNo);
    KeyedUnique(before);
    CloseOne(before, was, todo, n, seqNo);
    now := Replace(was, m);
    ClosedKeepsKeys(before, now, todo, n + 1, seqNo);
  }

  lemma ClosedKeepsKeys(before: seq<Message>, now: seq<Message>, todo: seq<Message>, n: nat, seqNo: int)
    requires Keyed(before) && n <= |todo| && ClosedUpTo(before, now, todo, n, seqNo)
    ensures Keyed(now)
    ensures forall i :: 0 <= i < |before| ==> now[i].id == before[i].id
  {
    KeyedSameKeys(before, now);
  }

  lemma KeyedUnique(rows: seq<Message>)
    requires Keyed(rows)
    ensures UniqueIds(rows)
  {
    forall i, j | 0 <= i < j < |rows| ensures rows[i].id != rows[j].id {
      assert Apart(rows[i], rows[j]);
    }
  }

  lemma KeyedSameKeys(rows: seq<Message>, next: seq<Message>)
    requires Keyed(rows) && |next| == |rows|
    requires forall i :: 0 <= i < |rows| ==>
      && next[i].id == rows[i].id && next[i].historySeq == rows[i].historySeq
      && next[i].turnId == rows[i].turnId && next[i].backendItemId == rows[i].backendItemId
    ensures Keyed(next)
  {
    forall i, j | 0 <= i < j < |next| ensures Apart(next[i], next[j]) {
      assert Apart(rows[i], rows[j]);
    }
    forall m | m in next ensures m.id != "" && m.historySeq >= 1 {
      var i :| 0 <= i < |next| && next[i] == m;
      assert rows[i] in rows;
    }
  }

  /** The list a terminal event publishes, as the browser restores it. */
  lemma TerminalOutcome(db: Db, e: Event)
    requires IsTerminal(e.kind) && Clean(e.kind, e.payload) && db.turn.historyVersion == 2
    ensures var w := Wire(db.turn.id, e, Project(db, e).payload);
      var todo := UnfinishedRows(db.messages, db.turn.id);
      && Get(w.payload, KeyIgnored) != Bool(true) && !SnapshotLike(w.payload) && Get(w.payload, KeyMessages).Arr?
      && Restored(w, Get(w.payload, KeyMessages).items)
           == seq(|todo|, i requires 0 <= i < |todo| => ClientRow(Close(todo[i], e.seqNo), e.seqNo))
  {
    var stored := Project(db, e).payload;
    var w := Wire(db.turn.id, e, stored);
    var todo := UnfinishedRows(db.messages, db.turn.id);
    var closed := ClosedRows(todo, e.seqNo);
    assert Get(stored, KeyMessage) == Get(e.payload, KeyMessage) && Get(stored, KeyIgnored) == Get(e.payload, KeyIgnored);
    assert Get(stored, KeyMessages) == Arr(Snapshots(closed));
    PlainSummary(e.kind, stored);
    UnfinishedExactly(db.messages, db.turn.id);
    forall i | 0 <= i < |todo|
      ensures Restore(w, SummarizeEntry(Snapshots(closed)[i])) == ClientRow(Close(todo[i], e.seqNo), e.seqNo)
    {
      assert todo[i] in todo;
      EntryRestored(closed[i], w);
    }
  }

  lemma TerminalInSync(db: Db, cursor: int, e: Event, list: seq<Record>)
    requires Keyed(db.messages) && db.turn.historyVersion == 2 && cursor < e.seqNo && InSync(list, db.messages, cursor)
    requires IsTerminal(e.kind) && Clean(e.kind, e.payload)
    ensures InSync(ApplyHistoryEvent(list, Wire(db.turn.id, e, Project(db, e).payload)), Step(db, e).messages, e.seqNo)
    ensures PhaseInSync(list, db.messages) ==>
      (PhaseInSync(ApplyHistoryEvent(list, Wire(db.turn.id, e, Project(db, e).payload)), Step(db, e).messages) <==> !PhaseDrifts(db, e))
  {
    var rows := db.messages;
    var todo := UnfinishedRows(rows, db.turn.id);
    var incoming := seq(|todo|, i requires 0 <= i < |todo| => ClientRow(Close(todo[i], e.seqNo), e.seqNo));
    TerminalOutcome(db, e);
    UnfinishedExactly(rows, db.turn.id);
    var now := MergeClosed(list, rows, cursor, todo, |todo|, e.seqNo);
    AllClosed(rows, now, db.turn.id, e.seqNo);
    InSyncIsKept(list, rows, cursor);
    ToMapKept(list);
    InSyncIsKept(MergeEach(list, incoming), now, e.seqNo);
    SortKept(MergeEach(list, incoming));
  }

  /**
   Replication of one event: the browser's step keeps pace with the transaction;
   the phase does too, except for a delta that changes it on the server.
   */
  lemma StepInSync(db: Db, cursor: int, e: Event, list: seq<Record>)
    requires Ok(db, cursor) && Admissible(db, cursor, e) && InSync(list, db.messages, cursor)
    requires Project(db, e).Projected? && Clean(e.kind, e.payload)
    ensures InSync(ApplyHistoryEvent(list, Wire(db.turn.id, e, Project(db, e).payload)), Step(db, e).messages, e.seqNo)
    ensures PhaseInSync(list, db.messages) ==>
      (PhaseInSync(ApplyHistoryEvent(list, Wire(db.turn.id, e, Project(db, e).payload)), Step(db, e).messages) <==> !PhaseDrifts(db, e))
  {
    StepKeepsOk(db, cursor, e);
    if IsTerminal(e.kind) {
      TerminalInSync(db, cursor, e, list);
    } else if e.kind.UserAccepted? {
      var m := UserOutcome(db, e);
      SnapshotStep(db.messages, Step(db, e).messages, db.turn.id, cursor, e, Project(db, e).payload, m, list);
    } else if IsAssistant(e) {
      AssistantInSync(db, cursor, e, list);
    } else {
      InSyncIsKept(list, db.messages, cursor);
      OtherStep(db.turn.id, e, list);
      LaterInSync(list, db.messages, cursor, e.seqNo);
    }
  }

  // ---- Whole logs ----------------------------------------------------------

  lemma LoadRowAgrees(turn: Turn, m: Message, cursor: int)
    requires RowOk(m, turn, cursor) && cursor >= 0
    ensures var r := LoadRow(turn, m, cursor);
      Agree(r, m) && LastSeq(r) <= cursor && Get(r, KeyPhase) == StringOrNull(m.phase)
  {
    var stamp := if m.turnId == Some(turn.id) then cursor else 0;
    var row := Snapshot(m) - {KeySessionId, KeyTokenCount};
    assert row[KeyTurnId := StringOrNull(m.turnId)] == row;
    assert LoadRow(turn, m, cursor) == ClientRow(m, stamp);
    ClientRowAgrees(m, stamp);
  }

  lemma LoadInSync(db: Db, cursor: int)
    requires Ok(db, cursor) && cursor >= 0
    ensures InSync(Load(db, cursor), db.messages, cursor)
    ensures PhaseInSync(Load(db, cursor), db.messages)
  {
    forall i | 0 <= i < |db.messages|
      ensures Agree(Load(db, cursor)[i], db.messages[i]) && LastSeq(Load(db, cursor)[i]) <= cursor
      ensures Get(Load(db, cursor)[i], KeyPhase) == StringOrNull(db.messages[i].phase)
    {
      assert db.messages[i] in db.messages;
      LoadRowAgrees(db.turn, db.messages[i], cursor);
    }
  }

  lemma PublishedOneMore(db: Db, log: seq<Event>, e: Event)
    ensures Published(db, log + [e]) == Published(db, log) + PublishedOne(db.turn.id, After(db, log), e)
  {
    assert (log + [e])[..|log|] == log;
  }

  ghost predicate SplitsAt(db: Db, log: seq<Event>, k: nat)
    requires k <= |log|
  {
    Published(db, log) == Published(db, log[..k]) + Published(After(db, log[..k]), log[k..])
  }

  /** The events after the first `k` stored ones are what is published next. */
  lemma {:induction false} PublishedSplits(db: Db, log: seq<Event>, k: nat)
    requires k <= |log|
    ensures SplitsAt(db, log, k)
    decreases |log|
  {
    if k == |log| {
      SplitsAtEnd(db, log);
    } else {
      var front, e := log[..|log| - 1], log[|log| - 1];
      PublishedSplits(db, front, k);
      SplitsLater(db, front, e, k);
      assert log == front + [e];
    }
  }

  lemma SplitsAtEnd(db: Db, log: seq<Event>)
    ensures SplitsAt(db, log, |log|)
  {
    assert log[..|log|] == log && log[|log|..] == [];
    assert Published(db, log) + [] == Published(db, log);
  }

  lemma SplitsLater(db: Db, front: seq<Event>, e: Event, k: nat)
    requires k <= |front| && SplitsAt(db, front, k)
    ensures SplitsAt(db, front + [e], k)
  {
    PublishedRest(db, front, e, k);
    assert (front + [e])[..k] == front[..k] && (front + [e])[k..] == front[k..] + [e];
  }

  lemma PublishedRest(db: Db, front: seq<Event>, e: Event, k: nat)
    requires k <= |front|
    requires Published(db, front) == Published(db, front[..k]) + Published(After(db, front[..k]), front[k..])
    ensures Published(db, front + [e]) == Published(db, front[..k]) + Published(After(db, front[..k]), front[k..] + [e])
  {
    var at := After(db, front[..k]);
    RunSplits(db, 0, front, k);
    SameTurn(db, front[..k]);
    PublishedOneMore(db, front, e);
    PublishedOneMore(at, front[k..], e);
  }

  lemma ApplyAllOneMore(list: seq<Record>, events: seq<HistoryEvent>, e: HistoryEvent)
    ensures ApplyAll(list, events + [e]) == ApplyHistoryEvent(ApplyAll(list, events), e)
  {
    assert (events + [e])[..|events|] == events;
  }

  /** A list that was in step and got what the log published is in step with its end. */
  ghost predicate RunSynced(db: Db, cursor: int, log: seq<Event>, list: seq<Record>) {
    && InSync(ApplyAll(list, Published(db, log)), After(db, log).messages, Cursor(db, cursor, log))
    && (PhaseInSync(list, db.messages) && NoPhaseDrift(db, log) ==>
          PhaseInSync(ApplyAll(list, Published(db, log)), After(db, log).messages))
  }

  /** From a list in step with the server, the published events of any log keep it in step. */
  lemma {:induction false} RunInSync(db: Db, cursor: int, log: seq<Event>, list: seq<Record>)
    requires Ok(db, cursor) && ValidLog(db, cursor, log) && CleanLog(log)
    requires InSync(list, db.messages, cursor)
    ensures RunSynced(db, cursor, log, list)
    decreases |log|
  {
    if log == [] {
      RunStarts(db, cursor, list);
    } else {
      var front, e := log[..|log| - 1], log[|log| - 1];
      assert log == front + [e];
      ValidPrefix(db, cursor, log, |front|);
      LastIsAdmissible(db, cursor, front, e);
      RunInSync(db, cursor, front, list);
      RunKeepsOk(db, cursor, front);
      RunNext(db, cursor, front, e, list);
    }
  }

  lemma RunStarts(db: Db, cursor: int, list: seq<Record>)
    requires InSync(list, db.messages, cursor)
    ensures RunSynced(db, cursor, [], list)
  {
  }

  lemma LastIsAdmissible(db: Db, cursor: int, front: seq<Event>, e: Event)
    requires ValidLog(db, cursor, front + [e]) && CleanLog(front + [e])
    ensures Admissible(After(db, front), Cursor(db, cursor, front), e) && Clean(e.kind, e.payload) && CleanLog(front)
  {
    var log := front + [e];
    assert log[..|front|] == front && log[|front|] == e;
    assert forall i :: 0 <= i < |front| ==> log[i] == front[i];
  }

  lemma RunNext(db: Db, cursor: int, front: seq<Event>, e: Event, list: seq<Record>)
    requires RunSynced(db, cursor, front, list) && Clean(e.kind, e.payload)
    requires Ok(After(db, front), Cursor(db, cursor, front)) && Admissible(After(db, front), Cursor(db, cursor, front), e)
    ensures RunSynced(db, cursor, front + [e], list)
  {
    var log := front + [e];
    assert log[..|front|] == front;
    SameTurn(db, front);
    NoDriftBefore(db, log);
    PublishedOneMore(db, front, e);
    OneMore(db, cursor, log, |front|);
    assert log[..|front| + 1] == log;
    LastInSync(After(db, front), Cursor(db, cursor, front), e, list, Published(db, front));
  }

  lemma NoDriftBefore(db: Db, log: seq<Event>)
    requires log != []
    ensures NoPhaseDrift(db, log) ==>
      NoPhaseDrift(db, log[..|log| - 1]) && !PhaseDrifts(After(db, log[..|log| - 1]), log[|log| - 1])
  {
    var n := |log| - 1;
    if NoPhaseDrift(db, log) {
      forall k | 0 <= k < n ensures !PhaseDrifts(After(db, log[..n][..k]), log[..n][k]) {
        assert log[..n][..k] == log[..k];
      }
    }
  }

  /** One event more, published or rolled back. */
  lemma LastInSync(at: Db, cursor: int, e: Event, list: seq<Record>, events: seq<HistoryEvent>)
    requires Ok(at, cursor) && Admissible(at, cursor, e) && Clean(e.kind, e.payload)
    requires InSync(ApplyAll(list, events), at.messages, cursor)
    ensures var out := ApplyAll(list, events + PublishedOne(at.turn.id, at, e));
      && InSync(out, Step(at, e).messages, if Project(at, e).Rejected? then cursor else e.seqNo)
      && (PhaseInSync(ApplyAll(list, events), at.messages) && !PhaseDrifts(at, e) ==> PhaseInSync(out, Step(at, e).messages))
  {
    if Project(at, e).Projected? {
      ApplyAllOneMore(list, events, Wire(at.turn.id, e, Project(at, e).payload));
      StepInSync(at, cursor, e, ApplyAll(list, events));
    } else {
      assert events + PublishedOne(at.turn.id, at, e) == events;
    }
  }

  ghost predicate NoPhaseDrift(db: Db, log: seq<Event>) {
    forall k :: 0 <= k < |log| ==> !PhaseDrifts(After(db, log[..k]), log[k])
  }

  /**
   Message-history replication. For every log of a version-2 turn and every
   point `k` of it: load the history there, apply the events published after
   it, and the browser holds exactly the server's messages, in history order.
   */
  lemma HistoryReplication(db: Db, cursor: int, log: seq<Event>, k: nat)
    requires Ok(db, cursor) && cursor >= 0 && ValidLog(db, cursor, log) && CleanLog(log) && k <= |log|
    ensures var at := After(db, log[..k]);
      var list := ApplyAll(Load(at, Cursor(db, cursor, log[..k])), Published(at, log[k..]));
      && InSync(list, After(db, log).messages, Cursor(db, cursor, log))
      && (NoPhaseDrift(at, log[k..]) ==> PhaseInSync(list, After(db, log).messages))
  {
    var at, reached := After(db, log[..k]), Cursor(db, cursor, log[..k]);
    ValidPrefix(db, cursor, log, k);
    RunKeepsOk(db, cursor, log[..k]);
    LoadInSync(at, reached);
    ValidSuffix(db, cursor, log, k);
    RunInSync(at, reached, log[k..], Load(at, reached));
    RunSplits(db, cursor, log, k);
  }
}
