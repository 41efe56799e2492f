/**
 The projection as the server runs it: one method per database routine, each
 updating rows in place, proved to have exactly the effect `Project` states.
 */
module HistoryTables {
  import opened Prelude
  import opened Json
  import opened Text
  import opened MessageHistory

  predicate UniqueIds(rows: seq<Message>) {
    forall i, j :: 0 <= i < j < |rows| ==> rows[i].id != rows[j].id
  }

  predicate FreshId(rows: seq<Message>, id: string) {
    id != "" && forall m :: m in rows ==> m.id != id
  }

  /** Rows `rows` with the first `n` of the unfinished ones already closed. */
  ghost predicate ClosedUpTo(before: seq<Message>, now: seq<Message>, todo: seq<Message>, n: int, seqNo: int)
    requires 0 <= n <= |todo|
  {
    && |now| == |before|
    && forall i :: 0 <= i < |before| ==>
      now[i] == if before[i] in todo[..n] then Close(before[i], seqNo) else before[i]
  }

  lemma {:induction false} UnfinishedExactly(rows: seq<Message>, turnId: string)
    ensures forall m :: m in UnfinishedRows(rows, turnId) <==> m in rows && Unfinished(m, turnId)
  {
    if rows != [] {
      UnfinishedExactly(rows[1..], turnId);
      assert rows == [rows[0]] + rows[1..];
    }
  }

  lemma CloseOne(before: seq<Message>, now: seq<Message>, todo: seq<Message>, n: int, seqNo: int)
    requires 0 <= n < |todo|
    requires UniqueIds(before)
    requires forall m :: m in todo ==> m in before
    requires ClosedUpTo(before, now, todo, n, seqNo)
    ensures ClosedUpTo(before, Replace(now, Close(todo[n], seqNo)), todo, n + 1, seqNo)
  {
    var next := Replace(now, Close(todo[n], seqNo));
    assert todo[..n + 1] == todo[..n] + [todo[n]];
    assert todo[n] in before;
    forall i | 0 <= i < |before|
      ensures next[i] == if before[i] in todo[..n + 1] then Close(before[i], seqNo) else before[i]
    {
      assert now[i].id == before[i].id;
    }
  }

  lemma AllClosed(before: seq<Message>, now: seq<Message>, turnId: string, seqNo: int)
    requires ClosedUpTo(before, now, UnfinishedRows(before, turnId), |UnfinishedRows(before, turnId)|, seqNo)
    ensures now == CloseRows(before, turnId, seqNo)
  {
    UnfinishedExactly(before, turnId);
    var todo := UnfinishedRows(before, turnId);
    assert todo[..|todo|] == todo;
  }

  lemma OneMoreClosed(rows: seq<Message>, n: int, outbox: map<string, OutboxRow>, turn: Turn)
    requires 0 <= n < |rows|
    ensures EnqueueAll(outbox, turn, rows[..n + 1]) == Enqueue(EnqueueAll(outbox, turn, rows[..n]), turn, rows[n])
    ensures Snapshots(rows[..n + 1]) == Snapshots(rows[..n]) + [Obj(Snapshot(rows[n]))]
  {
    assert rows[..n + 1][..n] == rows[..n];
  }

  class HistoryTables {
    var messages: seq<Message>
    var turn: Turn
    var inputs: seq<TurnInput>
    var outbox: map<string, OutboxRow>

    constructor (db: Db)
      ensures Contents() == db
    {
      messages, turn, inputs, outbox := db.messages, db.turn, db.inputs, db.outbox;
    }

    function Contents(): Db
      reads this
    {
      Db(messages, turn, inputs, outbox)
    }

    method CreateHistoryMessage(m: Message) returns (created: Message)
      modifies this`messages
      ensures created == m.(historySeq := MaxHistorySeq(old(messages)) + 1)
      ensures messages == old(messages) + [created]
    {
      var latest := MaxHistorySeq(messages);
      created := m.(historySeq := latest + 1);
      messages := messages + [created];
    }

    method EnqueueAssistantMessage(m: Message)
      modifies this`outbox
      ensures outbox == Enqueue(old(outbox), turn, m)
    {
      if IsBlank(m.content) { return; }
      if m.id !in outbox {
        outbox := outbox[m.id :=
          OutboxRow(m.id, turn.sessionId, turn.id, m.phase, m.state, m.historySeq, m.content)];
      }
    }

    method CloseUnfinished(seqNo: int) returns (snapshots: seq<Value>)
      requires UniqueIds(messages)
      modifies this`messages, this`outbox
      ensures messages == CloseRows(old(messages), turn.id, seqNo)
      ensures var closed := ClosedRows(UnfinishedRows(old(messages), turn.id), seqNo);
              snapshots == Snapshots(closed) && outbox == EnqueueAll(old(outbox), turn, closed)
    {
      var unfinished := UnfinishedRows(messages, turn.id);
      UnfinishedExactly(messages, turn.id);
      ghost var closed := ClosedRows(unfinished, seqNo);
      snapshots := [];
      for i := 0 to |unfinished|
        invariant ClosedUpTo(old(messages), messages, unfinished, i, seqNo)
        invariant snapshots == Snapshots(closed[..i])
        invariant outbox == EnqueueAll(old(outbox), turn, closed[..i])
      {
        CloseOne(old(messages), messages, unfinished, i, seqNo);
        OneMoreClosed(closed, i, old(outbox), turn);
        var message := Close(unfinished[i], seqNo);
        messages := Replace(messages, message);
        EnqueueAssistantMessage(message);
        snapshots := snapshots + [Obj(Snapshot(message))];
      }
      AllClosed(old(messages), messages, turn.id, seqNo);
      assert closed[..|unfinished|] == closed;
    }

    /** Process one event inside its transaction. `None` means the transaction was rolled back. */
    method ProjectMessageEvent(e: Event) returns (stored: Option<Record>)
      requires UniqueIds(messages) && FreshId(messages, e.newId)
      modifies this
      ensures stored.None? ==> Project(old(Contents()), e) == Rejected && Contents() == old(Contents())
      ensures stored.Some? ==> Project(old(Contents()), e) == Projected(Contents(), stored.value)
    {
      if !IsAssistant(e) && !e.kind.UserAccepted? && !IsTerminal(e.kind) {
        return Some(e.payload);
      }
      if IsTerminal(e.kind) {
        if turn.historyVersion != 2 { return Some(e.payload); }
        var snapshots := CloseUnfinished(e.seqNo);
        inputs := ExpireInputs(inputs, turn.id);
        turn := EndTurn(turn, e);
        return Some((e.payload - {KeyContent}) + map[KeyHistoryVersion := Num(2), KeyMessages := Arr(snapshots)]);
      }
      var itemId := ItemId(e.payload);
      if itemId == "" { return None; }
      if e.kind.UserAccepted? {
        stored := AcceptUserMessage(e, itemId);
      } else {
        stored := ExtendAssistantMessage(e, itemId);
      }
    }

    method AcceptUserMessage(e: Event, itemId: string) returns (stored: Option<Record>)
      requires UniqueIds(messages)
      modifies this
      ensures stored.None? ==> ProjectUser(old(Contents()), e, itemId) == Rejected && Contents() == old(Contents())
      ensures stored.Some? ==> ProjectUser(old(Contents()), e, itemId) == Projected(Contents(), stored.value)
    {
      var input := InputFor(Contents(), e);
      var message := FindItem(messages, turn.id, itemId);
      if message.None? {
        message := MakeUserMessage(e, input, itemId);
        if message.None? { return None; }
      }
      stored := FinishAccepted(e, input, message.value, itemId);
    }

    /** The row of an item that has none yet; without the turn's user message the transaction fails. */
    method MakeUserMessage(e: Event, input: Option<TurnInput>, itemId: string) returns (message: Option<Message>)
      requires input == InputFor(Contents(), e) && FindItem(messages, turn.id, itemId).None?
      modifies this`messages
      ensures message.None? ==>
        ProjectUser(old(Contents()), e, itemId) == Rejected && Contents() == old(Contents())
      ensures message.Some? ==>
        ProjectUser(old(Contents()), e, itemId) == FinishUser(old(Contents()), e, itemId, messages, message.value)
    {
      if Get(e.payload, KeyInitial) == Bool(true) && turn.userMessageId.Some? {
        message := LinkInitialMessage(e, itemId);
        return;
      }
      var created := CreateHistoryMessage(
        Message(e.newId, turn.sessionId, User,
                StringOr(Get(e.payload, KeyContent), if input.Some? then input.value.content else ""),
                None, e.now, Some(turn.id), Some(itemId), 0, Completed, None,
                Some(e.seqNo), Some(e.seqNo), None));
      message := Some(created);
    }

    /** The turn's own user message becomes the accepted item. */
    method LinkInitialMessage(e: Event, itemId: string) returns (message: Option<Message>)
      requires turn.userMessageId.Some?
      modifies this`messages
      ensures var initial := FindById(old(messages), turn.userMessageId.value);
        && (initial.None? ==> message == None && messages == old(messages))
        && (initial.Some? ==>
              && message == Some(initial.value.(turnId := Some(turn.id), backendItemId := Some(itemId),
                                                startEventSeq := Some(e.seqNo), endEventSeq := Some(e.seqNo)))
              && messages == Replace(old(messages), message.value))
    {
      message := FindById(messages, turn.userMessageId.value);
      if message.None? { return None; }
      message := Some(message.value.(turnId := Some(turn.id), backendItemId := Some(itemId),
                                     startEventSeq := Some(e.seqNo), endEventSeq := Some(e.seqNo)));
      messages := Replace(messages, message.value);
    }

    /** The input is accepted with the message, and both go into the payload. */
    method FinishAccepted(e: Event, input: Option<TurnInput>, message: Message, itemId: string) returns (stored: Option<Record>)
      requires input == InputFor(Contents(), e)
      modifies this`inputs
      ensures stored.Some? && FinishUser(old(Contents()), e, itemId, messages, message) == Projected(Contents(), stored.value)
    {
      if input.Some? {
        inputs := AcceptInput(inputs, input, message, itemId, e.now);
      }
      stored := Some(e.payload + map[
        KeyMessage := Obj(Snapshot(message)),
        KeyClientRequestId := if input.Some? then Str(input.value.clientRequestId) else Null]);
    }

    method ExtendAssistantMessage(e: Event, itemId: string) returns (stored: Option<Record>)
      requires UniqueIds(messages) && FreshId(messages, e.newId)
      modifies this
      ensures stored.Some? && ProjectAssistant(old(Contents()), e, itemId) == Projected(Contents(), stored.value)
    {
      var existing := FindItem(messages, turn.id, itemId);
      turn := turn.(historyVersion := 2);
      if existing.Some? && existing.value.state != Streaming {
        return Some(map[KeyItemId := Str(itemId), KeyMessageId := Str(existing.value.id), KeyIgnored := Bool(true)]);
      }
      var message;
      if existing.Some? {
        message := existing.value;
      } else {
        var previousEnd := MaxEnd(messages, turn.id);
        message := CreateHistoryMessage(
          Message(e.newId, turn.sessionId, Assistant, "", None, e.now, Some(turn.id), Some(itemId), 0,
                  Streaming, None, Some(e.seqNo), None, Some(previousEnd)));
      }
      message := Advance(message, e);
      messages := Replace(messages, message);
      if existing.None? {
        assert messages == old(messages) + [message];
      }
      if e.kind.AssistantCompleted? {
        EnqueueAssistantMessage(message);
      }
      stored := Some(e.payload + map[KeyMessageId := Str(message.id)]
        + if existing.None? || !e.kind.AssistantDelta? then map[KeyMessage := Obj(Snapshot(message))] else map[]);
    }
  }
}
