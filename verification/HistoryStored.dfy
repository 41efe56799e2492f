/** What is stored back with a turn's events, and what turns of the first history version keep. */
module HistoryStored {
  import opened Prelude
  import opened Json
  import opened MessageHistory
  import opened HistoryInvariants
  import opened HistoryInputs

  // ---- Acceptances and ends ------------------------------------------------

  ghost predicate SomebodyAsked(db: Db, e: Event) {
    exists x :: x in db.inputs && x.turnId == db.turn.id && Accepts(e, x.clientRequestId)
  }

  /** An acceptance names the request of the input it accepted, or none; its other fields are as they came. */
  lemma AcceptanceTells(db: Db, e: Event)
    requires Project(db, e).Projected? && e.kind.UserAccepted?
    ensures var stored := Project(db, e).payload;
      && (forall k :: k != KeyMessage && k != KeyClientRequestId ==> Get(stored, k) == Get(e.payload, k))
      && Get(stored, KeyClientRequestId) == if SomebodyAsked(db, e) then Get(e.payload, KeyClientId) else Null
  {
    AskedIffFound(db, e);
    StoredAcceptance(db, e);
  }

  ghost predicate NamesRequest(db: Db, e: Event, stored: Record) {
    var input := InputFor(db, e);
    && (forall k :: k != KeyMessage && k != KeyClientRequestId ==> Get(stored, k) == Get(e.payload, k))
    && Get(stored, KeyClientRequestId) == if input.Some? then Str(input.value.clientRequestId) else Null
  }

  lemma FinishNames(db: Db, e: Event, itemId: string, rows: seq<Message>, m: Message)
    ensures NamesRequest(db, e, FinishUser(db, e, itemId, rows, m).payload)
  {
  }

  lemma StoredAcceptance(db: Db, e: Event)
    requires Project(db, e).Projected? && e.kind.UserAccepted?
    ensures NamesRequest(db, e, Project(db, e).payload)
  {
    var itemId := ItemId(e.payload);
    var existing := FindItem(db.messages, db.turn.id, itemId);
    if existing.Some? {
      FinishNames(db, e, itemId, db.messages, existing.value);
    } else if Get(e.payload, KeyInitial) == Bool(true) && db.turn.userMessageId.Some? {
      var m := FindById(db.messages, db.turn.userMessageId.value).value.(
        turnId := Some(db.turn.id), backendItemId := Some(itemId),
        startEventSeq := Some(e.seqNo), endEventSeq := Some(e.seqNo));
      FinishNames(db, e, itemId, Replace(db.messages, m), m);
    } else {
      var m := NewMessage(db, e, User, UserContent(db, e), itemId).(endEventSeq := Some(e.seqNo));
      FinishNames(db, e, itemId, db.messages + [m], m);
    }
  }

  lemma AskedIffFound(db: Db, e: Event)
    requires e.kind.UserAccepted?
    ensures SomebodyAsked(db, e) <==> InputFor(db, e).Some?
    ensures InputFor(db, e).Some? ==> Get(e.payload, KeyClientId) == Str(InputFor(db, e).value.clientRequestId)
  {
    FoundInput(db.inputs, db.turn.id, StringOr(Get(e.payload, KeyClientId), ""));
    var input := InputFor(db, e);
    if input.Some? { assert input.value in db.inputs && Accepts(e, input.value.clientRequestId); }
  }

  /** The stored end of a turn is marked as one of the message history and has lost its text. */
  lemma EndTells(db: Db, e: Event)
    requires IsTerminal(e.kind) && db.turn.historyVersion == 2
    ensures var stored := Project(db, e).payload;
      && Get(stored, KeyHistoryVersion) == Num(2) && KeyContent !in stored
      && forall k :: k != KeyMessages && k != KeyHistoryVersion && k != KeyContent ==> Get(stored, k) == Get(e.payload, k)
  {
  }

  // ---- Assistant events ----------------------------------------------------

  /** The row that the stored payload names is the item's. */
  ghost predicate NamesRow(rows: seq<Message>, turnId: string, stored: Record, itemId: string) {
    exists m :: m in rows && IsItem(m, turnId, itemId) && Get(stored, KeyMessageId) == Str(m.id)
  }

  ghost predicate ClosedItem(db: Db, itemId: string) {
    var existing := FindItem(db.messages, db.turn.id, itemId);
    existing.Some? && existing.value.state != Streaming
  }

  /** Marked as ignored, and nothing else of the event. */
  predicate MarkedLate(stored: Record, e: Event) {
    && stored.Keys == {KeyItemId, KeyMessageId, KeyIgnored} && Get(stored, KeyIgnored) == Bool(true)
    && Get(stored, KeyItemId) == Get(e.payload, KeyItemId)
  }

  /** The fields that the event came with, but for the row's. */
  ghost predicate KeepsFields(stored: Record, e: Event) {
    forall k :: k != KeyMessageId && k != KeyMessage ==> Get(stored, k) == Get(e.payload, k)
  }

  /**
   An assistant event names the row of its item. One that comes after the row was
   closed is marked as ignored, and nothing else of it is stored; the other
   fields of every other one are as they came.
   */
  lemma AssistantTells(db: Db, e: Event)
    requires Project(db, e).Projected? && IsAssistant(e)
    ensures var stored, next, itemId := Project(db, e).payload, Project(db, e).db.messages, ItemId(e.payload);
      && NamesRow(next, db.turn.id, stored, itemId)
      && if ClosedItem(db, itemId) then MarkedLate(stored, e) && next == db.messages else KeepsFields(stored, e)
  {
    ItemTells(db, e, ItemId(e.payload));
  }

  lemma ItemTells(db: Db, e: Event, itemId: string)
    requires ProjectAssistant(db, e, itemId).Projected? && itemId == ItemId(e.payload) && itemId != ""
    ensures var stored, next := ProjectAssistant(db, e, itemId).payload, ProjectAssistant(db, e, itemId).db.messages;
      && NamesRow(next, db.turn.id, stored, itemId)
      && if ClosedItem(db, itemId) then MarkedLate(stored, e) && next == db.messages else KeepsFields(stored, e)
  {
    FoundItem(db.messages, db.turn.id, itemId);
    if ClosedItem(db, itemId) {
      LateTells(db, e, itemId);
    } else {
      OpenTells(db, e, itemId);
      OpenRow(db, e, itemId);
    }
  }

  lemma LateTells(db: Db, e: Event, itemId: string)
    requires ClosedItem(db, itemId) && itemId == ItemId(e.payload) && itemId != ""
    requires var m := FindItem(db.messages, db.turn.id, itemId).value; m in db.messages && IsItem(m, db.turn.id, itemId)
    ensures var r := ProjectAssistant(db, e, itemId);
      r.db.messages == db.messages && MarkedLate(r.payload, e) && NamesRow(db.messages, db.turn.id, r.payload, itemId)
  {
    var m := FindItem(db.messages, db.turn.id, itemId).value;
    assert Get(ProjectAssistant(db, e, itemId).payload, KeyMessageId) == Str(m.id);
  }

  /** The row of an item after an event of it that came in time. */
  lemma OpenRow(db: Db, e: Event, itemId: string)
    requires var existing := FindItem(db.messages, db.turn.id, itemId);
      existing.Some? ==> existing.value in db.messages && IsItem(existing.value, db.turn.id, itemId)
    ensures var existing := FindItem(db.messages, db.turn.id, itemId);
      var m := Advance(if existing.Some? then existing.value else StartMessage(db, e, itemId), e);
      && IsItem(m, db.turn.id, itemId)
      && m in if existing.Some? then Replace(db.messages, m) else db.messages + [m]
  {
    var existing := FindItem(db.messages, db.turn.id, itemId);
    if existing.Some? {
      RowReplaced(db.messages, existing.value, Advance(existing.value, e));
    } else {
      var m := Advance(StartMessage(db, e, itemId), e);
      assert (db.messages + [m])[|db.messages|] == m;
    }
  }

  lemma RowReplaced(rows: seq<Message>, was: Message, m: Message)
    requires was in rows && m.id == was.id
    ensures m in Replace(rows, m)
  {
    var i :| 0 <= i < |rows| && rows[i] == was;
    assert Replace(rows, m)[i] == m;
  }

  lemma StoredFields(p: Record, id: string, more: Record)
    requires more.Keys <= {KeyMessage}
    ensures var stored := p + map[KeyMessageId := Str(id)] + more;
      Get(stored, KeyMessageId) == Str(id) && forall k :: k != KeyMessageId && k != KeyMessage ==> Get(stored, k) == Get(p, k)
  {
  }

  lemma OpenTells(db: Db, e: Event, itemId: string)
    requires ProjectAssistant(db, e, itemId).Projected? && !ClosedItem(db, itemId)
    ensures var existing := FindItem(db.messages, db.turn.id, itemId);
      var m := Advance(if existing.Some? then existing.value else StartMessage(db, e, itemId), e);
      var r := ProjectAssistant(db, e, itemId);
      && Get(r.payload, KeyMessageId) == Str(m.id) && KeepsFields(r.payload, e)
      && r.db.messages == if existing.Some? then Replace(db.messages, m) else db.messages + [m]
  {
    var existing := FindItem(db.messages, db.turn.id, itemId);
    var m := Advance(if existing.Some? then existing.value else StartMessage(db, e, itemId), e);
    var more: Record := if existing.None? || !e.kind.AssistantDelta? then map[KeyMessage := Obj(Snapshot(m))] else map[];
    StoredFields(e.payload, m.id, more);
  }

  // ---- The first history version -------------------------------------------

  ghost predicate HeardAssistant(db: Db, log: seq<Event>) {
    exists k :: StoredAt(db, log, k) && IsAssistant(log[k])
  }

  /** A turn changes to the second version with its first stored assistant event, and never back. */
  lemma {:induction false} VersionFollows(db: Db, log: seq<Event>)
    ensures After(db, log).turn.historyVersion == if HeardAssistant(db, log) then 2 else db.turn.historyVersion
  {
    if log != [] {
      VersionFollows(db, log[..|log| - 1]);
      VersionStep(After(db, log[..|log| - 1]), log[|log| - 1]);
      MoreHeard(db, log);
    }
  }

  lemma VersionStep(db: Db, e: Event)
    ensures Step(db, e).turn.historyVersion == if Project(db, e).Projected? && IsAssistant(e) then 2 else db.turn.historyVersion
    ensures !(Project(db, e).Projected? && IsAssistant(e)) && db.turn.historyVersion != 2 ==>
      Step(db, e).turn == db.turn && Step(db, e).outbox == db.outbox
  {
  }

  lemma MoreHeard(db: Db, log: seq<Event>)
    requires log != []
    ensures var front, e := log[..|log| - 1], log[|log| - 1];
      HeardAssistant(db, log) <==> HeardAssistant(db, front) || (Project(After(db, front), e).Projected? && IsAssistant(e))
  {
    var front, e := log[..|log| - 1], log[|log| - 1];
    assert log == front + [e];
    MoreSaid(db, front, e, "");
    if k :| StoredAt(db, front, k) && IsAssistant(front[k]) { assert StoredAt(db, log, k) && log[k] == front[k]; }
    if k :| StoredAt(db, log, k) && IsAssistant(log[k]) { assert k < |front| ==> StoredAt(db, front, k) && log[k] == front[k]; }
  }

  /** Until then its end changes nothing. */
  lemma {:induction false} FirstVersionKeeps(db: Db, log: seq<Event>)
    requires db.turn.historyVersion != 2 && !HeardAssistant(db, log)
    ensures After(db, log).turn == db.turn && After(db, log).outbox == db.outbox
  {
    if log != [] {
      MoreHeard(db, log);
      FirstVersionKeeps(db, log[..|log| - 1]);
      VersionStep(After(db, log[..|log| - 1]), log[|log| - 1]);
    }
  }
}
