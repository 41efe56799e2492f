/**
 Which raw payloads the replication of messages survives: exactly the clean
 ones. For every other payload there is a turn in which storing it makes the
 browser's list differ from the server's.
 */
module CleanPayloads {
  import opened Prelude
  import opened Json
  import opened MessageHistory
  import opened HistoryInvariants
  import opened TimelineWire
  import opened HistoryClient
  import opened Replication

  /** If event `e` is stored while the browser is in step, the browser stays in step. */
  ghost predicate StaysInSync(db: Db, cursor: int, e: Event, list: seq<Record>) {
    Ok(db, cursor) && Admissible(db, cursor, e) && InSync(list, db.messages, cursor) && Project(db, e).Projected?
    ==> InSync(ApplyHistoryEvent(list, Wire(db.turn.id, e, Project(db, e).payload)), Step(db, e).messages, e.seqNo)
  }

  ghost predicate AlwaysInSync(kind: EventType, p: Record) {
    forall db: Db, cursor: int, e: Event, list: seq<Record> :: e.kind == kind && e.payload == p ==> StaysInSync(db, cursor, e, list)
  }

  // ---- Sizes ---------------------------------------------------------------

  lemma {:induction false} SortSize(list: seq<Record>)
    ensures |Sort(list)| == |list|
  {
    if list != [] {
      SortSize(list[..|list| - 1]);
      InsertSize(Sort(list[..|list| - 1]), list[|list| - 1]);
    }
  }

  lemma {:induction false} InsertSize(list: seq<Record>, m: Record)
    ensures |Insert(list, m)| == |list| + 1
  {
    if list != [] {
      InsertSize(list[..|list| - 1], m);
    }
  }

  /** A record with a new id makes the list longer, whatever is merged after it. */
  lemma {:induction false} MergeGrows(list: seq<Record>, incoming: seq<Record>)
    requires incoming != []
    requires forall i :: 0 <= i < |list| ==> Get(list[i], KeyId) != Get(incoming[0], KeyId)
    ensures |MergeEach(list, incoming)| > |list|
  {
    var front := incoming[..|incoming| - 1];
    if front == [] {
      assert MergeEach(list, front) == list;
    } else {
      MergeGrows(list, front);
    }
  }

  lemma MergeLonger(list: seq<Record>, incoming: seq<Record>)
    requires incoming != [] && |list| <= 1
    requires forall i :: 0 <= i < |list| ==> Get(list[i], KeyId) != Get(incoming[0], KeyId)
    ensures |Merge(list, incoming)| > |list|
  {
    assert ToMap(list) == list by {
      if |list| == 1 { assert list[..0] == []; }
    }
    MergeGrows(list, incoming);
    SortSize(MergeEach(list, incoming));
  }

  // ---- Two small turns -----------------------------------------------------

  const TURN := Turn("turn", "session", None, 2, "running", None, None, None)

  function EmptyTurn(): Db {
    Db([], TURN, [], map[])
  }

  function StreamingRow(id: string, itemId: string): Message {
    Message(id, "session", Assistant, "", None, "created", Some("turn"), Some(itemId), 1, Streaming, None, Some(1), None, Some(0))
  }

  function StreamingTurn(id: string, itemId: string): Db {
    Db([StreamingRow(id, itemId)], TURN, [], map[])
  }

  lemma SmallTurnsOk(id: string, itemId: string)
    requires id != ""
    ensures Ok(EmptyTurn(), 1)
    ensures Ok(StreamingTurn(id, itemId), 1)
    ensures InSync([], EmptyTurn().messages, 1)
    ensures InSync(Load(StreamingTurn(id, itemId), 1), StreamingTurn(id, itemId).messages, 1)
  {
    assert Ok(StreamingTurn(id, itemId), 1);
    LoadInSync(StreamingTurn(id, itemId), 1);
  }

  // ---- What a leaking payload does -----------------------------------------

  /** The browser acts on a leaked snapshot or list by growing its list. */
  lemma LeakGrows(w: HistoryEvent, list: seq<Record>)
    requires |list| <= 1 && Get(w.payload, KeyIgnored) != Bool(true)
    requires SnapshotLike(w.payload) || (Get(w.payload, KeyMessages).Arr? && Get(w.payload, KeyMessages).items != [])
    requires forall i :: 0 <= i < |list| ==> Get(list[i], KeyId) != LeakedId(w.payload)
    ensures |ApplyHistoryEvent(list, w)| > |list|
  {
    if SnapshotLike(w.payload) {
      var r := ReadSnapshot(w).value[KeyLastEventSeq := Num(w.seqNo)];
      assert Get(r, KeyId) == LeakedId(w.payload);
      MergeLonger(list, [r]);
    } else {
      var items := Get(w.payload, KeyMessages).items;
      assert Get(Restored(w, items)[0], KeyId) == LeakedId(w.payload);
      MergeLonger(list, Restored(w, items));
    }
  }

  /** The id of the first message the browser would take from this payload. */
  function LeakedId(p: Record): Value {
    var messages := Get(p, KeyMessages);
    if SnapshotLike(p) then Property(Get(p, KeyMessage), KeyId)
    else if messages.Arr? && messages.items != [] then Get(Fields(messages.items[0]), KeyId)
    else Undefined
  }

  /** The general summary leaks what the payload leaks. */
  lemma LeakSurvives(kind: EventType, p: Record)
    requires General(kind) && (SnapshotLike(p) || ListsMessages(p))
    ensures var s := Summarize(kind, p);
      && Get(s, KeyIgnored) == Get(p, KeyIgnored)
      && (SnapshotLike(s) || (Get(s, KeyMessages).Arr? && Get(s, KeyMessages).items != []))
      && LeakedId(s) == LeakedId(p)
  {
    if !SnapshotLike(p) { PlainSummary(kind, p); }
  }

  function AnyEvent(kind: EventType, p: Record): Event {
    Event(2, kind, p, "new", "now")
  }

  /** An id other than `v`, and other than the one given to new messages. */
  function OtherId(v: Value): string {
    if v == Str("a") then "b" else "a"
  }

  lemma OutOfSync(db: Db, list: seq<Record>, kind: EventType, p: Record)
    requires !StaysInSync(db, 1, AnyEvent(kind, p), list)
    ensures !AlwaysInSync(kind, p)
  {
    var e := AnyEvent(kind, p);
    assert e.kind == kind && e.payload == p;
  }

  /** An ignored event that creates a message: the browser misses it. */
  lemma IgnoredCreates(kind: EventType, p: Record)
    requires kind.AssistantStarted? || kind.AssistantCompleted? || kind.UserAccepted? || (kind.AssistantDelta? && Get(p, KeyItemId).Str?)
    requires ItemId(p) != "" && Get(p, KeyIgnored) == Bool(true)
    ensures !AlwaysInSync(kind, p)
  {
    SmallTurnsOk("a", "");
    var db, e := EmptyTurn(), AnyEvent(kind, p);
    var stored := Project(db, e).payload;
    assert Get(stored, KeyIgnored) == Bool(true);
    IgnoredSurvives(kind, stored);
    assert |Step(db, e).messages| == 1;
    assert ApplyHistoryEvent([], Wire(db.turn.id, e, stored)) == [];
    OutOfSync(db, [], kind, p);
  }

  /** An ignored terminal event: the browser goes on showing the message as streaming. */
  lemma IgnoredTerminal(kind: EventType, p: Record)
    requires IsTerminal(kind) && Get(p, KeyIgnored) == Bool(true)
    ensures !AlwaysInSync(kind, p)
  {
    SmallTurnsOk("a", "item");
    var db, e := StreamingTurn("a", "item"), AnyEvent(kind, p);
    var list := Load(db, 1);
    var stored := Project(db, e).payload;
    assert Get(stored, KeyIgnored) == Bool(true);
    IgnoredSurvives(kind, stored);
    assert Agree(list[0], db.messages[0]);
    assert Step(db, e).messages[0].state == Interrupted;
    OutOfSync(db, list, kind, p);
  }

  /** A leak in an event that adds no message of its own: a phantom appears. */
  lemma LeakOnEmptyTurn(kind: EventType, p: Record)
    requires General(kind) && Get(p, KeyIgnored) != Bool(true)
    requires if IsTerminal(kind) then SnapshotLike(p) else SnapshotLike(p) || ListsMessages(p)
    requires kind.OtherEvent? || IsTerminal(kind) || (kind.AssistantDelta? && !Get(p, KeyItemId).Str?)
    ensures !AlwaysInSync(kind, p)
  {
    SmallTurnsOk("a", "");
    var db, e := EmptyTurn(), AnyEvent(kind, p);
    var stored := Project(db, e).payload;
    assert Get(stored, KeyIgnored) == Get(p, KeyIgnored) && Get(stored, KeyMessage) == Get(p, KeyMessage);
    LeakSurvives(kind, stored);
    LeakGrows(Wire(db.turn.id, e, stored), []);
    OutOfSync(db, [], kind, p);
  }

  lemma DeltaStored(id: string, p: Record)
    requires id != "" && Get(p, KeyItemId).Str? && ItemId(p) != ""
    ensures var db, e := StreamingTurn(id, ItemId(p)), AnyEvent(AssistantDelta, p);
      && Project(db, e).Projected?
      && Project(db, e).payload == p + map[KeyMessageId := Str(id)]
      && Step(db, e).messages == [Advance(StreamingRow(id, ItemId(p)), e)]
  {
    var db := StreamingTurn(id, ItemId(p));
    assert FindItem(db.messages, "turn", ItemId(p)) == Some(StreamingRow(id, ItemId(p)));
  }

  lemma LoadedOne(id: string, itemId: string)
    requires id != ""
    ensures var list := Load(StreamingTurn(id, itemId), 1);
      |list| == 1 && Get(list[0], KeyId) == Str(id) && Get(list[0], KeyContent) == Str("")
  {
    var row := StreamingRow(id, itemId);
    LoadRowAgrees(TURN, row, 1);
    assert Load(StreamingTurn(id, itemId), 1)[0] == LoadRow(TURN, row, 1);
  }

  /** What the browser shows for this delta is not what the server holds. */
  lemma DeltaRefutes(id: string, p: Record)
    requires id != "" && id != "new" && Get(p, KeyItemId).Str? && ItemId(p) != ""
    requires var after := Advance(StreamingRow(id, ItemId(p)), AnyEvent(AssistantDelta, p));
      var w := Wire("turn", AnyEvent(AssistantDelta, p), p + map[KeyMessageId := Str(id)]);
      !InSync(ApplyHistoryEvent(Load(StreamingTurn(id, ItemId(p)), 1), w), [after], 2)
    ensures !AlwaysInSync(AssistantDelta, p)
  {
    SmallTurnsOk(id, ItemId(p));
    DeltaStored(id, p);
    OutOfSync(StreamingTurn(id, ItemId(p)), Load(StreamingTurn(id, ItemId(p)), 1), AssistantDelta, p);
  }

  /** The payload stored for a delta on a streaming message still leaks. */
  lemma DeltaLeakSurvives(p: Record, id: string)
    requires SnapshotLike(p) || ListsMessages(p)
    ensures var s := Summarize(AssistantDelta, p + map[KeyMessageId := Str(id)]);
      && Get(s, KeyIgnored) == Get(p, KeyIgnored)
      && (SnapshotLike(s) || (Get(s, KeyMessages).Arr? && Get(s, KeyMessages).items != []))
      && LeakedId(s) == LeakedId(p)
  {
    var stored := p + map[KeyMessageId := Str(id)];
    assert Get(stored, KeyMessage) == Get(p, KeyMessage) && Get(stored, KeyMessages) == Get(p, KeyMessages);
    LeakSurvives(AssistantDelta, stored);
  }

  /** A leak in a delta on a streaming message. */
  lemma LeakInDelta(p: Record)
    requires Get(p, KeyItemId).Str? && ItemId(p) != "" && Get(p, KeyIgnored) != Bool(true)
    requires SnapshotLike(p) || ListsMessages(p)
    ensures !AlwaysInSync(AssistantDelta, p)
  {
    var id := OtherId(LeakedId(p));
    DeltaLeakSurvives(p, id);
    LoadedOne(id, ItemId(p));
    LeakGrows(Wire("turn", AnyEvent(AssistantDelta, p), p + map[KeyMessageId := Str(id)]),
              Load(StreamingTurn(id, ItemId(p)), 1));
    DeltaRefutes(id, p);
  }

  /** The browser does nothing for a delta with an empty list. */
  lemma EmptyListDoesNothing(p: Record, id: string, list: seq<Record>)
    requires Kept(list) && !SnapshotLike(p) && Get(p, KeyMessages) == Arr([])
    ensures ApplyHistoryEvent(list, Wire("turn", AnyEvent(AssistantDelta, p), p + map[KeyMessageId := Str(id)])) == list
  {
    var stored := p + map[KeyMessageId := Str(id)];
    assert Get(stored, KeyMessage) == Get(p, KeyMessage) && Get(stored, KeyMessages) == Get(p, KeyMessages);
    PlainSummary(AssistantDelta, stored);
    PlainEmptyList(AssistantDelta, stored);
    EmptyRestored(Wire("turn", AnyEvent(AssistantDelta, p), stored), list);
  }

  /** An empty list in a delta with text: the browser loses the text. */
  lemma ListHidesText(p: Record)
    requires Get(p, KeyItemId).Str? && ItemId(p) != "" && Get(p, KeyIgnored) != Bool(true) && !SnapshotLike(p)
    requires Get(p, KeyMessages) == Arr([]) && StringOr(Get(p, KeyText), "") != ""
    ensures !AlwaysInSync(AssistantDelta, p)
  {
    var list := Load(StreamingTurn("a", ItemId(p)), 1);
    SmallTurnsOk("a", ItemId(p));
    InSyncIsKept(list, StreamingTurn("a", ItemId(p)).messages, 1);
    EmptyListDoesNothing(p, "a", list);
    LoadedOne("a", ItemId(p));
    var after := Advance(StreamingRow("a", ItemId(p)), AnyEvent(AssistantDelta, p));
    assert after.content == "" + StringOr(Get(p, KeyText), "");
    assert !Agree(list[0], [after][0]);
    DeltaRefutes("a", p);
  }

  /** The browser stays in step in every turn if and only if the raw payload is clean. */
  lemma CleanIsExact(kind: EventType, p: Record)
    ensures Clean(kind, p) <==> AlwaysInSync(kind, p)
  {
    if Clean(kind, p) {
      forall db: Db, cursor: int, e: Event, list: seq<Record> | e.kind == kind && e.payload == p ensures StaysInSync(db, cursor, e, list) {
        if Ok(db, cursor) && Admissible(db, cursor, e) && InSync(list, db.messages, cursor) && Project(db, e).Projected? {
          StepInSync(db, cursor, e, list);
        }
      }
    } else if kind.OtherEvent? || (kind.AssistantDelta? && !Get(p, KeyItemId).Str?) {
      LeakOnEmptyTurn(kind, p);
    } else if Get(p, KeyIgnored) == Bool(true) {
      if IsTerminal(kind) { IgnoredTerminal(kind, p); } else { IgnoredCreates(kind, p); }
    } else if IsTerminal(kind) {
      LeakOnEmptyTurn(kind, p);
    } else if SnapshotLike(p) || ListsMessages(p) {
      LeakInDelta(p);
    } else {
      ListHidesText(p);
    }
  }
}
