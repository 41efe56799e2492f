/** An assistant message, told from the events alone: its text, phase, bounds and end. */
module HistoryContent {
  import opened Prelude
  import opened Json
  import opened MessageHistory
  import opened HistoryInvariants

  /** What the events so far say about one backend item; `first` is the one that spoke of it first. */
  datatype Said =
    | NotYet
    | Open(first: Event, text: string, phase: Option<string>)
    | Shut(first: Event, text: string, phase: Option<string>, last: int, completed: bool)

  function Hear(s: Said, e: Event, itemId: string): Said {
    if IsTerminal(e.kind) then if s.Open? then Shut(s.first, s.text, s.phase, e.seqNo, false) else s
    else if !IsAssistant(e) || ItemId(e.payload) != itemId || s.Shut? then s
    else
      var text := if Get(e.payload, KeyText).Str? then Get(e.payload, KeyText).s else "";
      var before := if s.Open? then s.text else "";
      var first := if s.Open? then s.first else e;
      var phase := if Get(e.payload, KeyPhase).Str? then Some(Get(e.payload, KeyPhase).s) else if s.Open? then s.phase else None;
      if e.kind.AssistantCompleted? then Shut(first, text, phase, e.seqNo, true)
      else if e.kind.AssistantDelta? then Open(first, before + text, phase)
      else Open(first, before, phase)
  }

  function HearAll(log: seq<Event>, itemId: string): Said {
    if log == [] then NotYet else Hear(HearAll(log[..|log| - 1], itemId), log[|log| - 1], itemId)
  }

  /** The item's row is as the events say. */
  ghost predicate RowSays(m: Message, s: Said) {
    && s != NotYet && m.role == Assistant && m.content == s.text && m.phase == s.phase && m.tokenCount == None
    && m.id == s.first.newId && m.createdAt == s.first.now && m.startEventSeq == Some(s.first.seqNo)
    && m.state == (if s.Open? then Streaming else if s.completed then Completed else Interrupted)
    && m.endEventSeq == if s.Open? then None else Some(s.last)
  }

  ghost predicate Matches(db: Db, itemId: string, s: Said) {
    var row := FindItem(db.messages, db.turn.id, itemId);
    if s == NotYet then row == None else row.Some? && RowSays(row.value, s) && row.value.sessionId == db.turn.sessionId
  }

  lemma FoundKeyed(rows: seq<Message>, turnId: string, itemId: string, i: nat)
    requires Keyed(rows) && i < |rows| && IsItem(rows[i], turnId, itemId)
    ensures FindItem(rows, turnId, itemId) == Some(rows[i])
  {
    FoundItem(rows, turnId, itemId);
    var found := FindItem(rows, turnId, itemId).value;
    var j :| 0 <= j < |rows| && rows[j] == found;
    assert i < j ==> Apart(rows[i], rows[j]);
    assert j < i ==> Apart(rows[j], rows[i]);
  }

  lemma {:induction false} NotFound(rows: seq<Message>, turnId: string, itemId: string)
    requires forall m :: m in rows ==> !IsItem(m, turnId, itemId)
    ensures FindItem(rows, turnId, itemId) == None
  {
    FoundItem(rows, turnId, itemId);
  }

  /** Rows that keep their places and items: the item is found where it was. */
  lemma FoundThrough(rows: seq<Message>, next: seq<Message>, turnId: string, itemId: string)
    requires Keyed(next) && |rows| <= |next|
    requires forall i :: 0 <= i < |rows| ==> (IsItem(rows[i], turnId, itemId) <==> IsItem(next[i], turnId, itemId))
    requires forall i :: |rows| <= i < |next| ==> !IsItem(next[i], turnId, itemId)
    ensures FindItem(rows, turnId, itemId).None? ==> FindItem(next, turnId, itemId) == None
    ensures FindItem(rows, turnId, itemId).Some? ==>
      exists i :: 0 <= i < |rows| && rows[i] == FindItem(rows, turnId, itemId).value && FindItem(next, turnId, itemId) == Some(next[i])
  {
    FoundItem(rows, turnId, itemId);
    var found := FindItem(rows, turnId, itemId);
    if found.Some? {
      var i :| 0 <= i < |rows| && rows[i] == found.value;
      FoundKeyed(next, turnId, itemId, i);
    } else {
      forall m | m in next ensures !IsItem(m, turnId, itemId) {
        var i :| 0 <= i < |next| && next[i] == m;
        if i < |rows| { assert rows[i] in rows; }
      }
      NotFound(next, turnId, itemId);
    }
  }

  lemma TerminalHears(db: Db, cursor: int, e: Event, itemId: string, s: Said)
    requires Ok(db, cursor) && IsTerminal(e.kind) && Matches(db, itemId, s)
    ensures Matches(Step(db, e), itemId, Hear(s, e, itemId))
  {
    var rows, next := db.messages, CloseRows(db.messages, db.turn.id, e.seqNo);
    KeyedClose(rows, db.turn.id, e.seqNo);
    FoundThrough(rows, next, db.turn.id, itemId);
    FoundItem(rows, db.turn.id, itemId);
    assert Step(db, e).messages == next && Step(db, e).turn.id == db.turn.id;
    var found := FindItem(rows, db.turn.id, itemId);
    if found.Some? {
      var i :| 0 <= i < |rows| && rows[i] == found.value && FindItem(next, db.turn.id, itemId) == Some(next[i]);
      assert found.value.state == Streaming ==> Unfinished(rows[i], db.turn.id);
    }
  }

  /** A row of another item is replaced or added. */
  lemma OtherRow(rows: seq<Message>, next: seq<Message>, m: Message, turnId: string, itemId: string)
    requires Keyed(rows) && Keyed(next) && !IsItem(m, turnId, itemId)
    requires next == rows + [m]
      || (next == Replace(rows, m) && forall x :: x in rows && x.id == m.id ==> !IsItem(x, turnId, itemId))
    ensures FindItem(next, turnId, itemId) == FindItem(rows, turnId, itemId)
  {
    forall i | 0 <= i < |rows| ensures IsItem(rows[i], turnId, itemId) <==> IsItem(next[i], turnId, itemId) {
      assert rows[i] in rows;
    }
    FoundThrough(rows, next, turnId, itemId);
    FoundItem(rows, turnId, itemId);
    forall i | 0 <= i < |rows| && IsItem(rows[i], turnId, itemId) ensures next[i] == rows[i] {
      assert rows[i] in rows;
    }
  }

  lemma UserHears(db: Db, cursor: int, e: Event, itemId: string, s: Said)
    requires Ok(db, cursor) && Admissible(db, cursor, e) && e.kind.UserAccepted? && Project(db, e).Projected?
    requires ItemId(e.payload) != itemId && Matches(db, itemId, s)
    ensures Matches(Step(db, e), itemId, s)
  {
    var rows, other, next := db.messages, ItemId(e.payload), Step(db, e);
    UserStep(db, cursor, e);
    if FindItem(rows, db.turn.id, other).None? {
      if Get(e.payload, KeyInitial) == Bool(true) && db.turn.userMessageId.Some? {
        FoundById(rows, db.turn.userMessageId.value);
        var was := FindById(rows, db.turn.userMessageId.value).value;
        var m := was.(turnId := Some(db.turn.id), backendItemId := Some(other),
                      startEventSeq := Some(e.seqNo), endEventSeq := Some(e.seqNo));
        InitialIsOther(db, cursor, itemId, s, was);
        OtherRow(rows, next.messages, m, db.turn.id, itemId);
      } else {
        var m := NewMessage(db, e, User, UserContent(db, e), other).(endEventSeq := Some(e.seqNo));
        OtherRow(rows, next.messages, m, db.turn.id, itemId);
      }
    }
  }

  /** The turn's own user message is not the item's row. */
  lemma InitialIsOther(db: Db, cursor: int, itemId: string, s: Said, was: Message)
    requires Ok(db, cursor) && Matches(db, itemId, s) && was in db.messages && Some(was.id) == db.turn.userMessageId
    ensures forall x :: x in db.messages && x.id == was.id ==> !IsItem(x, db.turn.id, itemId)
  {
    assert RowOk(was, db.turn, cursor);
    FoundItem(db.messages, db.turn.id, itemId);
    forall x | x in db.messages && x.id == was.id ensures !IsItem(x, db.turn.id, itemId) {
      assert RowOk(x, db.turn, cursor);
      if IsItem(x, db.turn.id, itemId) {
        var i :| 0 <= i < |db.messages| && db.messages[i] == x;
        FoundKeyed(db.messages, db.turn.id, itemId, i);
      }
    }
  }

  /** The row as it is before its first event has its effect. */
  predicate IsNew(m: Message, e: Event) {
    && m.content == "" && m.phase == None && m.tokenCount == None && m.endEventSeq == None
    && m.id == e.newId && m.createdAt == e.now && m.startEventSeq == Some(e.seqNo)
  }

  /** The row of the event's own item after the event. */
  lemma AdvanceHears(m: Message, s: Said, e: Event, itemId: string)
    requires IsAssistant(e) && ItemId(e.payload) == itemId && m.state == Streaming && m.role == Assistant
    requires (s.Open? && RowSays(m, s)) || (s == NotYet && IsNew(m, e))
    ensures RowSays(Advance(m, e), Hear(s, e, itemId)) && Advance(m, e).sessionId == m.sessionId
  {
  }

  lemma ExtendHears(db: Db, cursor: int, e: Event, itemId: string, s: Said)
    requires Ok(db, cursor) && IsAssistant(e) && itemId != "" && Matches(db, itemId, s)
    requires Keyed(Step(db, e).messages)
    requires ItemId(e.payload) != ""
    requires var existing := FindItem(db.messages, db.turn.id, ItemId(e.payload)); existing.Some? && existing.value.state == Streaming
    ensures Matches(Step(db, e), itemId, Hear(s, e, itemId))
  {
    var rows, item, next := db.messages, ItemId(e.payload), Step(db, e);
    var was := FindItem(rows, db.turn.id, item).value;
    var m := Advance(was, e);
    FoundItem(rows, db.turn.id, item);
    assert next.messages == Replace(rows, m);
    if item == itemId {
      var i :| 0 <= i < |rows| && rows[i] == was;
      assert next.messages[i] == m;
      FoundKeyed(next.messages, db.turn.id, itemId, i);
      AdvanceHears(was, s, e, itemId);
    } else {
      SameIdIsOther(rows, was, db.turn.id, itemId);
      OtherRow(rows, next.messages, m, db.turn.id, itemId);
    }
  }

  lemma StartHears(db: Db, cursor: int, e: Event, itemId: string, s: Said)
    requires Ok(db, cursor) && IsAssistant(e) && itemId != "" && Matches(db, itemId, s)
    requires Keyed(Step(db, e).messages)
    requires ItemId(e.payload) != "" && FindItem(db.messages, db.turn.id, ItemId(e.payload)).None?
    ensures Matches(Step(db, e), itemId, Hear(s, e, itemId))
  {
    var rows, item, next := db.messages, ItemId(e.payload), Step(db, e);
    var start := StartMessage(db, e, item);
    var m := Advance(start, e);
    assert next.messages == rows + [m];
    if item == itemId {
      assert next.messages[|rows|] == m;
      FoundKeyed(next.messages, db.turn.id, itemId, |rows|);
      AdvanceHears(start, s, e, itemId);
    } else {
      OtherRow(rows, next.messages, m, db.turn.id, itemId);
    }
  }

  lemma AssistantHears(db: Db, cursor: int, e: Event, itemId: string, s: Said)
    requires Ok(db, cursor) && Admissible(db, cursor, e) && IsAssistant(e) && Project(db, e).Projected?
    requires itemId != "" && Matches(db, itemId, s)
    ensures Matches(Step(db, e), itemId, Hear(s, e, itemId))
  {
    var existing := FindItem(db.messages, db.turn.id, ItemId(e.payload));
    AssistantStep(db, cursor, e);
    if existing.None? {
      StartHears(db, cursor, e, itemId, s);
    } else if existing.value.state == Streaming {
      ExtendHears(db, cursor, e, itemId, s);
    } else {
      assert Step(db, e).messages == db.messages && Step(db, e).turn.id == db.turn.id;
    }
  }

  lemma SameIdIsOther(rows: seq<Message>, was: Message, turnId: string, itemId: string)
    requires Keyed(rows) && was in rows && !IsItem(was, turnId, itemId)
    ensures forall x :: x in rows && x.id == was.id ==> !IsItem(x, turnId, itemId)
  {
    var i :| 0 <= i < |rows| && rows[i] == was;
    forall x | x in rows && x.id == was.id ensures x == was {
      var j :| 0 <= j < |rows| && rows[j] == x;
      assert i < j ==> Apart(rows[i], rows[j]);
      assert j < i ==> Apart(rows[j], rows[i]);
    }
  }

  /** The item id is not used for a user message too. */
  predicate OnlyAssistant(log: seq<Event>, itemId: string) {
    forall i :: 0 <= i < |log| && log[i].kind.UserAccepted? ==> ItemId(log[i].payload) != itemId
  }

  /**
   The stored message says what arrived: its content is the deltas of its item
   joined in order, or the text of its completion, up to the first event that
   closed it, and nothing later; its phase is the last one said until then, it
   starts with the first event that spoke of it and ends with the one that closed
   it, completed or interrupted accordingly; it exists exactly if an event spoke
   of it.
   */
  lemma {:induction false} ContentIsWhatArrived(db: Db, cursor: int, log: seq<Event>, itemId: string)
    requires Ok(db, cursor) && ValidLog(db, cursor, log) && itemId != ""
    requires FindItem(db.messages, db.turn.id, itemId) == None && OnlyAssistant(log, itemId)
    ensures Matches(After(db, log), itemId, HearAll(log, itemId))
  {
    if log != [] {
      var n := |log| - 1;
      var e, s := log[n], HearAll(log[..n], itemId);
      ValidPrefix(db, cursor, log, n);
      ContentIsWhatArrived(db, cursor, log[..n], itemId);
      RunKeepsOk(db, cursor, log[..n]);
      var at, c := After(db, log[..n]), Cursor(db, cursor, log[..n]);
      if IsTerminal(e.kind) {
        TerminalHears(at, c, e, itemId, s);
      } else if Project(at, e).Rejected? {
        RejectedIsUnheard(at, e, itemId, s);
      } else if e.kind.UserAccepted? {
        UserHears(at, c, e, itemId, s);
      } else if IsAssistant(e) {
        AssistantHears(at, c, e, itemId, s);
      }
    }
  }

  /** A rolled-back event names no item, or is not about an assistant message. */
  lemma RejectedIsUnheard(db: Db, e: Event, itemId: string, s: Said)
    requires Project(db, e).Rejected? && itemId != ""
    ensures Hear(s, e, itemId) == s
  {
  }
}
