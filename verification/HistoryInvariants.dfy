/**
 What every stored event keeps true of a version-2 turn's rows, over whole
 logs: keys and order, when a message is closed, and its outbox row.
 */
module HistoryInvariants {
  import opened Prelude
  import opened Json
  import opened Text
  import opened MessageHistory
  import opened HistoryTables

  // ---- Runs ----------------------------------------------------------------

  /** The rows after one event; a rolled-back transaction changes nothing. */
  function Step(db: Db, e: Event): Db {
    match Project(db, e)
    case Projected(next, _) => next
    case Rejected => db
  }

  function After(db: Db, log: seq<Event>): Db {
    if log == [] then db else Step(After(db, log[..|log| - 1]), log[|log| - 1])
  }

  /** The event number reached: a rolled-back event leaves no number behind. */
  function Cursor(db: Db, cursor: int, log: seq<Event>): int {
    if log == [] then cursor
    else
      var n := |log| - 1;
      if Project(After(db, log[..n]), log[n]).Rejected? then Cursor(db, cursor, log[..n]) else log[n].seqNo
  }

  /** The database supplies a new number and a new message id for each event. */
  predicate Admissible(db: Db, cursor: int, e: Event) {
    e.seqNo > cursor && FreshId(db.messages, e.newId)
  }

  predicate ValidLog(db: Db, cursor: int, log: seq<Event>) {
    forall i :: 0 <= i < |log| ==>
      Admissible(After(db, log[..i]), Cursor(db, cursor, log[..i]), log[i])
  }

  lemma ValidPrefix(db: Db, cursor: int, log: seq<Event>, n: nat)
    requires n <= |log| && ValidLog(db, cursor, log)
    ensures ValidLog(db, cursor, log[..n])
  {
    forall i | 0 <= i < n
      ensures Admissible(After(db, log[..n][..i]), Cursor(db, cursor, log[..n][..i]), log[..n][i])
    {
      assert log[..n][..i] == log[..i];
    }
  }

  lemma OneMore(db: Db, cursor: int, log: seq<Event>, k: nat)
    requires k < |log|
    ensures After(db, log[..k + 1]) == Step(After(db, log[..k]), log[k])
    ensures Cursor(db, cursor, log[..k + 1]) ==
      if Project(After(db, log[..k]), log[k]).Rejected? then Cursor(db, cursor, log[..k]) else log[k].seqNo
  {
    assert log[..k + 1][..k] == log[..k];
  }

  /** Storing a log is storing its first part and then the rest. */
  lemma {:induction false} RunSplits(db: Db, cursor: int, log: seq<Event>, k: nat)
    requires k <= |log|
    ensures After(db, log) == After(After(db, log[..k]), log[k..])
    ensures Cursor(db, cursor, log) == Cursor(After(db, log[..k]), Cursor(db, cursor, log[..k]), log[k..])
  {
    if k == |log| {
      assert log[..k] == log;
    } else {
      var n := |log| - 1;
      RunSplits(db, cursor, log[..n], k);
      assert log[..n][..k] == log[..k];
      assert log[..n][k..] == log[k..][..n - k];
    }
  }

  lemma ValidSuffix(db: Db, cursor: int, log: seq<Event>, k: nat)
    requires k <= |log| && ValidLog(db, cursor, log)
    ensures ValidLog(After(db, log[..k]), Cursor(db, cursor, log[..k]), log[k..])
  {
    forall i | 0 <= i < |log| - k
      ensures Admissible(After(After(db, log[..k]), log[k..][..i]),
                         Cursor(After(db, log[..k]), Cursor(db, cursor, log[..k]), log[k..][..i]), log[k..][i])
    {
      RunSplits(db, cursor, log[..k + i], k);
      assert log[..k + i][..k] == log[..k];
      assert log[..k + i][k..] == log[k..][..i];
    }
  }

  // ---- The invariant -------------------------------------------------------

  /** Two rows, the earlier first: different ids, rising history numbers, different items. */
  predicate Apart(a: Message, b: Message) {
    && a.id != b.id
    && a.historySeq < b.historySeq
    && (a.turnId.Some? && a.backendItemId.Some? ==> a.turnId != b.turnId || a.backendItemId != b.backendItemId)
  }

  /** Primary key, history order and the unique (turn, item) key. */
  ghost predicate Keyed(rows: seq<Message>) {
    && (forall m :: m in rows ==> m.id != "" && m.historySeq >= 1)
    && (forall i, j :: 0 <= i < j < |rows| ==> Apart(rows[i], rows[j]))
  }

  /** One row, seen from the turn whose events are being stored. */
  ghost predicate RowOk(m: Message, turn: Turn, cursor: int) {
    && (m.state == Streaming ==> m.turnId == Some(turn.id) && m.role == Assistant && m.backendItemId.Some?)
    && (m.turnId == Some(turn.id) ==>
          && (m.endEventSeq.Some? ==> m.endEventSeq.value <= cursor)
          && (m.role == Assistant ==> (m.state == Streaming <==> m.endEventSeq.None?)))
    && (Some(m.id) == turn.userMessageId ==>
          m.role == User && m.turnId == Some(turn.id) && m.state == Completed)
  }

  /** An assistant message of the turn is queued for delivery exactly when closed with something to say, as it is. */
  ghost predicate OutboxRowOk(m: Message, turn: Turn, outbox: map<string, OutboxRow>) {
    m.turnId == Some(turn.id) && m.role == Assistant ==>
      && (m.id in outbox <==> m.state != Streaming && !IsBlank(m.content))
      && (m.id in outbox ==>
            outbox[m.id] == OutboxRow(m.id, turn.sessionId, turn.id, m.phase, m.state, m.historySeq, m.content))
  }

  ghost predicate HasId(rows: seq<Message>, id: string) {
    exists m :: m in rows && m.id == id
  }

  ghost predicate RowsOk(rows: seq<Message>, turn: Turn, cursor: int) {
    forall m :: m in rows ==> RowOk(m, turn, cursor)
  }

  ghost predicate OutboxOk(rows: seq<Message>, turn: Turn, outbox: map<string, OutboxRow>) {
    && (forall m :: m in rows ==> OutboxRowOk(m, turn, outbox))
    && (forall id :: id in outbox ==> HasId(rows, id))
  }

  ghost predicate Ok(db: Db, cursor: int) {
    && db.turn.historyVersion == 2
    && Keyed(db.messages)
    && (db.turn.userMessageId.Some? ==> HasId(db.messages, db.turn.userMessageId.value))
    && RowsOk(db.messages, db.turn, cursor)
    && OutboxOk(db.messages, db.turn, db.outbox)
  }

  // ---- Queries -------------------------------------------------------------

  lemma {:induction false} FoundItem(rows: seq<Message>, turnId: string, itemId: string)
    ensures var r := FindItem(rows, turnId, itemId);
      if r.Some? then r.value in rows && IsItem(r.value, turnId, itemId)
      else forall m :: m in rows ==> !IsItem(m, turnId, itemId)
  {
    if rows != [] {
      FoundItem(rows[1..], turnId, itemId);
      assert rows == [rows[0]] + rows[1..];
    }
  }

  lemma {:induction false} FoundById(rows: seq<Message>, id: string)
    ensures var r := FindById(rows, id);
      if r.Some? then r.value in rows && r.value.id == id
      else forall m :: m in rows ==> m.id != id
  {
    if rows != [] {
      FoundById(rows[1..], id);
      assert rows == [rows[0]] + rows[1..];
    }
  }

  lemma {:induction false} HistorySeqBound(rows: seq<Message>)
    ensures MaxHistorySeq(rows) >= 0
    ensures forall m :: m in rows ==> m.historySeq <= MaxHistorySeq(rows)
  {
    if rows != [] {
      HistorySeqBound(rows[1..]);
      assert rows == [rows[0]] + rows[1..];
    }
  }

  // ---- Keeping the keys ----------------------------------------------------

  lemma KeyedAppend(rows: seq<Message>, m: Message)
    requires Keyed(rows)
    requires FreshId(rows, m.id) && m.historySeq == MaxHistorySeq(rows) + 1
    requires m.turnId.Some? && m.backendItemId.Some?
    requires FindItem(rows, m.turnId.value, m.backendItemId.value).None?
    ensures Keyed(rows + [m])
  {
    HistorySeqBound(rows);
    FoundItem(rows, m.turnId.value, m.backendItemId.value);
    var next := rows + [m];
    forall i, j | 0 <= i < j < |next| ensures Apart(next[i], next[j]) {
      if j == |rows| {
        assert rows[i] in rows;
        assert !IsItem(rows[i], m.turnId.value, m.backendItemId.value);
      }
    }
  }

  /** Replacing a row keeps the keys if its item is its own or nobody's. */
  lemma KeyedReplace(rows: seq<Message>, was: Message, m: Message)
    requires Keyed(rows)
    requires was in rows && m.id == was.id && m.historySeq == was.historySeq
    requires m.turnId.Some? && m.backendItemId.Some?
    requires (m.turnId == was.turnId && m.backendItemId == was.backendItemId)
          || FindItem(rows, m.turnId.value, m.backendItemId.value).None?
    ensures Keyed(Replace(rows, m))
  {
    var next := Replace(rows, m);
    FoundItem(rows, m.turnId.value, m.backendItemId.value);
    var at :| 0 <= at < |rows| && rows[at] == was;
    forall i | 0 <= i < |rows| && i != at
      ensures next[i] == rows[i] && (if i < at then Apart(rows[i], m) else Apart(m, rows[i]))
    {
      assert if i < at then Apart(rows[i], rows[at]) else Apart(rows[at], rows[i]);
      assert rows[i] in rows;
    }
    assert next[at] == m;
    forall i, j | 0 <= i < j < |next| ensures Apart(next[i], next[j]) {
      assert Apart(rows[i], rows[j]);
    }
    forall x | x in next ensures x.id != "" && x.historySeq >= 1 {
      var i :| 0 <= i < |next| && next[i] == x;
      assert rows[i] in rows;
    }
  }

  lemma KeyedClose(rows: seq<Message>, turnId: string, seqNo: int)
    requires Keyed(rows)
    ensures Keyed(CloseRows(rows, turnId, seqNo))
  {
    var next := CloseRows(rows, turnId, seqNo);
    forall i, j | 0 <= i < j < |next| ensures Apart(next[i], next[j]) {
      assert Apart(rows[i], rows[j]);
    }
    forall m | m in next ensures m.id != "" && m.historySeq >= 1 {
      var i :| 0 <= i < |next| && next[i] == m;
      assert rows[i] in rows;
    }
  }

  // ---- Keeping the outbox --------------------------------------------------

  /** Queueing a list touches no row that exists already and no other message. */
  lemma {:induction false} EnqueueOther(outbox: map<string, OutboxRow>, turn: Turn, rows: seq<Message>, id: string)
    requires id in outbox || forall i :: 0 <= i < |rows| ==> rows[i].id != id
    ensures var r := EnqueueAll(outbox, turn, rows);
      (id in r <==> id in outbox) && (id in outbox ==> r[id] == outbox[id])
  {
    if rows != [] {
      EnqueueOther(outbox, turn, rows[..|rows| - 1], id);
    }
  }

  /** A listed message without a row gets one with its content exactly when it is not blank. */
  lemma {:induction false} EnqueueListed(outbox: map<string, OutboxRow>, turn: Turn, rows: seq<Message>, k: nat)
    requires k < |rows| && UniqueIds(rows) && rows[k].id !in outbox
    ensures var r := EnqueueAll(outbox, turn, rows);
      && (rows[k].id in r <==> !IsBlank(rows[k].content))
      && (rows[k].id in r ==>
            r[rows[k].id] ==
            OutboxRow(rows[k].id, turn.sessionId, turn.id, rows[k].phase, rows[k].state, rows[k].historySeq, rows[k].content))
  {
    var n := |rows| - 1;
    if k < n {
      EnqueueListed(outbox, turn, rows[..n], k);
      assert rows[n].id != rows[k].id;
    } else {
      EnqueueOther(outbox, turn, rows[..n], rows[k].id);
    }
  }

  // ---- One event -----------------------------------------------------------

  /** How a row may change at event `seqNo`. */
  ghost predicate Evolves(m: Message, next: Message, turnId: string, seqNo: int) {
    && next.id == m.id && next.sessionId == m.sessionId && next.role == m.role && next.tokenCount == m.tokenCount
    && next.createdAt == m.createdAt && next.historySeq == m.historySeq && next.timelineStartSeq == m.timelineStartSeq
    && (m.state != Streaming ==>
          && next.state == m.state && next.content == m.content && next.phase == m.phase
          && (next == m || (m.role == User && m.turnId == next.turnId == Some(turnId) && next.endEventSeq == Some(seqNo))))
    && (m.state == Streaming ==>
          && next.turnId == m.turnId && next.backendItemId == m.backendItemId && next.startEventSeq == m.startEventSeq
          && (if next.state == Streaming then next.endEventSeq == m.endEventSeq else next.endEventSeq == Some(seqNo)))
  }

  /** Rows keep their places, evolve, and at most one is added at the end. */
  ghost predicate RowsEvolve(rows: seq<Message>, next: seq<Message>, turnId: string, seqNo: int) {
    && |rows| <= |next| <= |rows| + 1
    && (forall i :: 0 <= i < |rows| ==> Evolves(rows[i], next[i], turnId, seqNo))
    && (|next| > |rows| ==> next[|rows|].turnId == Some(turnId))
  }

  lemma ReplaceEvolves(rows: seq<Message>, was: Message, m: Message, turnId: string, seqNo: int)
    requires Keyed(rows) && was in rows && m.id == was.id && Evolves(was, m, turnId, seqNo)
    ensures RowsEvolve(rows, Replace(rows, m), turnId, seqNo)
    ensures forall x :: x in Replace(rows, m) ==> x == m || (x in rows && x.id != m.id)
  {
    var at :| 0 <= at < |rows| && rows[at] == was;
    var next := Replace(rows, m);
    forall i | 0 <= i < |rows| ensures Evolves(rows[i], next[i], turnId, seqNo) {
      if i != at {
        assert if i < at then Apart(rows[i], rows[at]) else Apart(rows[at], rows[i]);
      }
    }
    forall x | x in next ensures x == m || (x in rows && x.id != m.id) {
      var i :| 0 <= i < |next| && next[i] == x;
      assert rows[i] in rows;
    }
  }

  lemma TerminalOutboxRow(db: Db, cursor: int, e: Event, i: nat)
    requires Ok(db, cursor) && IsTerminal(e.kind) && i < |db.messages|
    ensures OutboxRowOk(Step(db, e).messages[i], db.turn, Step(db, e).outbox)
  {
    var rows, turnId := db.messages, db.turn.id;
    var m := Step(db, e).messages[i];
    var unfinished := UnfinishedRows(rows, turnId);
    var closed := ClosedRows(unfinished, e.seqNo);
    UnfinishedExactly(rows, turnId);
    UnfinishedUnique(rows, turnId);
    assert rows[i] in rows && OutboxRowOk(rows[i], db.turn, db.outbox);
    if Unfinished(rows[i], turnId) {
      var k :| 0 <= k < |unfinished| && unfinished[k] == rows[i];
      assert closed[k] == m;
      EnqueueListed(db.outbox, db.turn, closed, k);
    } else {
      forall k | 0 <= k < |closed| ensures closed[k].id != m.id {
        assert unfinished[k] in rows;
        if closed[k].id == m.id {
          SameId(rows, unfinished[k], rows[i]);
          assert false;
        }
      }
      EnqueueOther(db.outbox, db.turn, closed, m.id);
    }
  }

  lemma TerminalOutboxId(db: Db, cursor: int, e: Event, id: string)
    requires Ok(db, cursor) && IsTerminal(e.kind) && id in Step(db, e).outbox
    ensures HasId(Step(db, e).messages, id)
  {
    var rows := db.messages;
    var next := CloseRows(rows, db.turn.id, e.seqNo);
    var unfinished := UnfinishedRows(rows, db.turn.id);
    var closed := ClosedRows(unfinished, e.seqNo);
    UnfinishedExactly(rows, db.turn.id);
    var source: Message;
    if id in db.outbox {
      source :| source in rows && source.id == id;
    } else {
      if forall k :: 0 <= k < |closed| ==> closed[k].id != id {
        EnqueueOther(db.outbox, db.turn, closed, id);
      }
      var k :| 0 <= k < |closed| && closed[k].id == id;
      source := unfinished[k];
      assert source in unfinished;
    }
    var i :| 0 <= i < |rows| && rows[i] == source;
    assert next[i] in next && next[i].id == id;
  }

  lemma TerminalStep(db: Db, cursor: int, e: Event)
    requires Ok(db, cursor) && Admissible(db, cursor, e) && IsTerminal(e.kind)
    ensures Ok(Step(db, e), e.seqNo)
    ensures RowsEvolve(db.messages, Step(db, e).messages, db.turn.id, e.seqNo)
    ensures forall m :: m in Step(db, e).messages ==> m.state != Streaming
  {
    var rows, next := db.messages, Step(db, e);
    KeyedClose(rows, db.turn.id, e.seqNo);
    forall m | m in next.messages
      ensures RowOk(m, next.turn, e.seqNo) && OutboxRowOk(m, next.turn, next.outbox) && m.state != Streaming
    {
      var i :| 0 <= i < |rows| && next.messages[i] == m;
      assert rows[i] in rows && RowOk(rows[i], db.turn, cursor);
      TerminalOutboxRow(db, cursor, e, i);
    }
    forall id | id in next.outbox ensures HasId(next.messages, id) {
      TerminalOutboxId(db, cursor, e, id);
    }
    forall i | 0 <= i < |rows| ensures Evolves(rows[i], next.messages[i], db.turn.id, e.seqNo) {
      assert rows[i] in rows && RowOk(rows[i], db.turn, cursor);
    }
  }

  lemma SameId(rows: seq<Message>, a: Message, b: Message)
    requires Keyed(rows) && a in rows && b in rows && a.id == b.id
    ensures a == b
  {
    var i :| 0 <= i < |rows| && rows[i] == a;
    var j :| 0 <= j < |rows| && rows[j] == b;
    assert i < j ==> Apart(rows[i], rows[j]);
    assert j < i ==> Apart(rows[j], rows[i]);
  }

  lemma {:induction false} UnfinishedUnique(rows: seq<Message>, turnId: string)
    requires Keyed(rows)
    ensures UniqueIds(UnfinishedRows(rows, turnId))
    ensures UniqueIds(ClosedRows(UnfinishedRows(rows, turnId), 0))
  {
    if rows != [] {
      UnfinishedUnique(rows[1..], turnId);
      UnfinishedExactly(rows[1..], turnId);
      forall m | m in rows[1..] ensures m.id != rows[0].id {
        var j :| 1 <= j < |rows| && rows[j] == m;
        assert Apart(rows[0], rows[j]);
      }
    }
  }

  /** Ids that were there are still there. */
  lemma SameIds(rows: seq<Message>, next: seq<Message>)
    requires |rows| <= |next| && forall i :: 0 <= i < |rows| ==> next[i].id == rows[i].id
    ensures forall id :: HasId(rows, id) ==> HasId(next, id)
  {
    forall id | HasId(rows, id) ensures HasId(next, id) {
      var m :| m in rows && m.id == id;
      var i :| 0 <= i < |rows| && rows[i] == m;
      assert next[i] in next && next[i].id == id;
    }
  }

  predicate SameTurnRow(a: Turn, b: Turn) {
    a.id == b.id && a.userMessageId == b.userMessageId && a.sessionId == b.sessionId
  }

  lemma AppendKeepsOk(db: Db, cursor: int, next: Db, m: Message, seqNo: int)
    requires Ok(db, cursor) && cursor <= seqNo && next.turn.historyVersion == 2 && SameTurnRow(db.turn, next.turn)
    requires next.messages == db.messages + [m] && Keyed(next.messages)
    requires FreshId(db.messages, m.id) && m.turnId == Some(db.turn.id)
    requires RowOk(m, next.turn, seqNo)
    requires m.id !in db.outbox ==> OutboxRowOk(m, next.turn, next.outbox)
    requires next.outbox == db.outbox || next.outbox == Enqueue(db.outbox, next.turn, m)
    ensures Ok(next, seqNo)
    ensures RowsEvolve(db.messages, next.messages, db.turn.id, seqNo)
  {
    assert m.id !in db.outbox by {
      assert m.id in db.outbox ==> HasId(db.messages, m.id);
    }
    SameIds(db.messages, next.messages);
    assert m in next.messages;
    forall x | x in next.messages
      ensures RowOk(x, next.turn, seqNo) && OutboxRowOk(x, next.turn, next.outbox)
    {
      if x in db.messages {
        assert RowOk(x, db.turn, cursor) && OutboxRowOk(x, db.turn, db.outbox);
      }
    }
    forall id | id in next.outbox ensures HasId(next.messages, id) {
      if id in db.outbox { assert HasId(db.messages, id); }
    }
  }

  lemma ReplaceKeepsOk(db: Db, cursor: int, next: Db, was: Message, m: Message, seqNo: int)
    requires Ok(db, cursor) && cursor <= seqNo && next.turn.historyVersion == 2 && SameTurnRow(db.turn, next.turn)
    requires was in db.messages && m.id == was.id && Evolves(was, m, db.turn.id, seqNo)
    requires next.messages == Replace(db.messages, m) && Keyed(next.messages)
    requires RowOk(m, next.turn, seqNo) && OutboxRowOk(m, next.turn, next.outbox)
    requires next.outbox == db.outbox || next.outbox == Enqueue(db.outbox, next.turn, m)
    ensures Ok(next, seqNo)
    ensures RowsEvolve(db.messages, next.messages, db.turn.id, seqNo)
  {
    ReplaceEvolves(db.messages, was, m, db.turn.id, seqNo);
    SameIds(db.messages, next.messages);
    forall x | x in next.messages
      ensures RowOk(x, next.turn, seqNo) && OutboxRowOk(x, next.turn, next.outbox)
    {
      if x != m {
        assert RowOk(x, db.turn, cursor) && OutboxRowOk(x, db.turn, db.outbox);
      }
    }
    forall id | id in next.outbox ensures HasId(next.messages, id) {
      if id in db.outbox {
        assert HasId(db.messages, id);
      } else {
        assert HasId(db.messages, was.id);
      }
    }
  }

  lemma SameRowsKeepOk(db: Db, cursor: int, next: Db, seqNo: int)
    requires Ok(db, cursor) && cursor <= seqNo && next.turn.historyVersion == 2 && SameTurnRow(db.turn, next.turn)
    requires next.messages == db.messages && next.outbox == db.outbox
    ensures Ok(next, seqNo)
    ensures RowsEvolve(db.messages, next.messages, db.turn.id, seqNo)
  {
    forall m | m in next.messages ensures RowOk(m, next.turn, seqNo) && OutboxRowOk(m, next.turn, next.outbox) {
      assert RowOk(m, db.turn, cursor) && OutboxRowOk(m, db.turn, db.outbox);
    }
  }

  lemma UserStep(db: Db, cursor: int, e: Event)
    requires Ok(db, cursor) && Admissible(db, cursor, e) && e.kind.UserAccepted? && Project(db, e).Projected?
    ensures Ok(Step(db, e), e.seqNo)
    ensures RowsEvolve(db.messages, Step(db, e).messages, db.turn.id, e.seqNo)
  {
    var rows, itemId, next := db.messages, ItemId(e.payload), Step(db, e);
    var existing := FindItem(rows, db.turn.id, itemId);
    if existing.Some? {
      SameRowsKeepOk(db, cursor, next, e.seqNo);
    } else if Get(e.payload, KeyInitial) == Bool(true) && db.turn.userMessageId.Some? {
      FoundById(rows, db.turn.userMessageId.value);
      var was := FindById(rows, db.turn.userMessageId.value).value;
      var m := was.(turnId := Some(db.turn.id), backendItemId := Some(itemId),
                    startEventSeq := Some(e.seqNo), endEventSeq := Some(e.seqNo));
      assert RowOk(was, db.turn, cursor);
      KeyedReplace(rows, was, m);
      ReplaceKeepsOk(db, cursor, next, was, m, e.seqNo);
    } else {
      var m := NewMessage(db, e, User, UserContent(db, e), itemId).(endEventSeq := Some(e.seqNo));
      KeyedAppend(rows, m);
      AppendKeepsOk(db, cursor, next, m, e.seqNo);
    }
  }

  lemma AssistantStep(db: Db, cursor: int, e: Event)
    requires Ok(db, cursor) && Admissible(db, cursor, e) && IsAssistant(e) && Project(db, e).Projected?
    ensures Ok(Step(db, e), e.seqNo)
    ensures RowsEvolve(db.messages, Step(db, e).messages, db.turn.id, e.seqNo)
  {
    var rows, itemId, next := db.messages, ItemId(e.payload), Step(db, e);
    FoundItem(rows, db.turn.id, itemId);
    var existing := FindItem(rows, db.turn.id, itemId);
    if existing.Some? && existing.value.state != Streaming {
      SameRowsKeepOk(db, cursor, next, e.seqNo);
    } else if existing.Some? {
      var was := existing.value;
      var m := Advance(was, e);
      assert RowOk(was, db.turn, cursor) && OutboxRowOk(was, db.turn, db.outbox);
      KeyedReplace(rows, was, m);
      ReplaceKeepsOk(db, cursor, next, was, m, e.seqNo);
    } else {
      var m := Advance(StartMessage(db, e, itemId), e);
      KeyedAppend(rows, m);
      AppendKeepsOk(db, cursor, next, m, e.seqNo);
    }
  }

  /** One stored event keeps the invariant, and rows only evolve. */
  lemma StepKeepsOk(db: Db, cursor: int, e: Event)
    requires Ok(db, cursor) && Admissible(db, cursor, e)
    ensures Ok(Step(db, e), if Project(db, e).Rejected? then cursor else e.seqNo)
    ensures RowsEvolve(db.messages, Step(db, e).messages, db.turn.id, e.seqNo)
    ensures IsTerminal(e.kind) ==> forall m :: m in Step(db, e).messages ==> m.state != Streaming
  {
    if Project(db, e).Rejected? {
    } else if IsTerminal(e.kind) {
      TerminalStep(db, cursor, e);
    } else if e.kind.UserAccepted? {
      UserStep(db, cursor, e);
    } else if IsAssistant(e) {
      AssistantStep(db, cursor, e);
    } else {
      assert Step(db, e) == db;
    }
  }

  // ---- Whole logs ----------------------------------------------------------

  lemma {:induction false} RunKeepsOk(db: Db, cursor: int, log: seq<Event>)
    requires Ok(db, cursor) && ValidLog(db, cursor, log)
    ensures Ok(After(db, log), Cursor(db, cursor, log))
    ensures Cursor(db, cursor, log) >= cursor
  {
    if log != [] {
      var n := |log| - 1;
      ValidPrefix(db, cursor, log, n);
      RunKeepsOk(db, cursor, log[..n]);
      StepKeepsOk(After(db, log[..n]), Cursor(db, cursor, log[..n]), log[n]);
    }
  }

  /** A row that may still change, `next` being later: only a streaming row or the echoed input. */
  ghost predicate Later(m: Message, next: Message) {
    && next.id == m.id && next.role == m.role && next.historySeq == m.historySeq && next.createdAt == m.createdAt
    && next.timelineStartSeq == m.timelineStartSeq
    && (m.state != Streaming ==> next.state == m.state && next.content == m.content && next.phase == m.phase)
    && (m.state != Streaming && m.role != User ==> next == m)
  }

  /**
   Closed means closed: whatever is stored afterwards, a message stays in its
   place, and once completed or interrupted neither its state nor its content
   changes again; a closed assistant message does not change at all.
   */
  lemma {:induction false} ClosedStaysClosed(db: Db, cursor: int, log: seq<Event>, i: nat)
    requires Ok(db, cursor) && ValidLog(db, cursor, log) && i < |db.messages|
    ensures i < |After(db, log).messages|
    ensures Later(db.messages[i], After(db, log).messages[i])
  {
    if log != [] {
      var n := |log| - 1;
      ValidPrefix(db, cursor, log, n);
      ClosedStaysClosed(db, cursor, log[..n], i);
      RunKeepsOk(db, cursor, log[..n]);
      StepKeepsOk(After(db, log[..n]), Cursor(db, cursor, log[..n]), log[n]);
    }
  }

  /** Nothing is streaming right after a terminal event, wherever in the log it stands. */
  lemma NothingStreamsAfterTerminal(db: Db, cursor: int, log: seq<Event>, k: nat)
    requires Ok(db, cursor) && ValidLog(db, cursor, log)
    requires k < |log| && IsTerminal(log[k].kind)
    ensures forall m :: m in After(db, log[..k + 1]).messages ==> m.state != Streaming
  {
    ValidPrefix(db, cursor, log, k);
    RunKeepsOk(db, cursor, log[..k]);
    StepKeepsOk(After(db, log[..k]), Cursor(db, cursor, log[..k]), log[k]);
    assert log[..k + 1][..k] == log[..k];
  }

  /**
   Delivery: at every point of every log an assistant message of the turn has
   an outbox row if and only if it is closed with non-blank content, the row
   carries the message's content, phase, state and number, and it is the row the
   message keeps.
   */
  lemma OutboxFollowsClosing(db: Db, cursor: int, log: seq<Event>, k: nat, i: nat)
    requires Ok(db, cursor) && ValidLog(db, cursor, log) && k <= |log|
    requires i < |After(db, log[..k]).messages|
    requires var m := After(db, log[..k]).messages[i]; m.role == Assistant && m.turnId == Some(db.turn.id)
    ensures var at := After(db, log[..k]); var m := at.messages[i];
      && (m.id in at.outbox <==> m.state != Streaming && !IsBlank(m.content))
      && (m.id in at.outbox ==>
            && at.outbox[m.id] ==
                 OutboxRow(m.id, db.turn.sessionId, db.turn.id, m.phase, m.state, m.historySeq, m.content)
            && m.id in After(db, log).outbox && After(db, log).outbox[m.id] == at.outbox[m.id])
  {
    ValidPrefix(db, cursor, log, k);
    RunKeepsOk(db, cursor, log[..k]);
    RunKeepsOk(db, cursor, log);
    SameTurn(db, log);
    SameTurn(db, log[..k]);
    ValidSuffix(db, cursor, log, k);
    RunSplits(db, cursor, log, k);
    var at, end := After(db, log[..k]), After(db, log);
    ClosedStaysClosed(at, Cursor(db, cursor, log[..k]), log[k..], i);
    assert at.messages[i] in at.messages && end.messages[i] in end.messages;
  }

  lemma {:induction false} SameTurn(db: Db, log: seq<Event>)
    ensures SameTurnRow(After(db, log).turn, db.turn)
  {
    if log != [] {
      SameTurn(db, log[..|log| - 1]);
    }
  }
}
