/** What a turn's events leave of its inputs, its own row and its user messages, told from the events alone. */
module HistoryInputs {
  import opened Prelude
  import opened Json
  import opened MessageHistory
  import opened HistoryInvariants

  // ---- What the events say -------------------------------------------------

  /** Event `k` was stored, and not rolled back. */
  ghost predicate StoredAt(db: Db, log: seq<Event>, k: int) {
    0 <= k < |log| && Project(After(db, log[..k]), log[k]).Projected?
  }

  /** The runner accepted a message that came from the client's request `client`. */
  predicate Accepts(e: Event, client: string) {
    e.kind.UserAccepted? && client != "" && Get(e.payload, KeyClientId) == Str(client)
  }

  /** Step `k` is the last stored event that accepted the request. */
  ghost predicate LastAccept(db: Db, log: seq<Event>, k: int, client: string) {
    && StoredAt(db, log, k) && Accepts(log[k], client)
    && forall j :: k < j < |log| && StoredAt(db, log, j) ==> !Accepts(log[j], client)
  }

  ghost predicate FirstAccept(db: Db, log: seq<Event>, k: int, client: string) {
    && StoredAt(db, log, k) && Accepts(log[k], client)
    && forall j :: 0 <= j < k && StoredAt(db, log, j) ==> !Accepts(log[j], client)
  }

  ghost predicate Accepted(db: Db, log: seq<Event>, client: string) {
    exists k :: StoredAt(db, log, k) && Accepts(log[k], client)
  }

  ghost predicate Ended(log: seq<Event>) {
    exists k :: 0 <= k < |log| && IsTerminal(log[k].kind)
  }

  /** Some message row with this id has the item. */
  ghost predicate HasItem(rows: seq<Message>, id: string, turnId: string, itemId: string) {
    exists m :: m in rows && m.id == id && m.turnId == Some(turnId) && m.backendItemId == Some(itemId)
  }

  // ---- Inputs --------------------------------------------------------------

  /** Primary key, and one input per request of a turn. */
  ghost predicate InputsKeyed(inputs: seq<TurnInput>) {
    forall i, j :: 0 <= i < j < |inputs| ==> InputsApart(inputs[i], inputs[j])
  }

  predicate InputsApart(a: TurnInput, b: TurnInput) {
    a.id != b.id && (a.turnId != b.turnId || a.clientRequestId != b.clientRequestId)
  }

  /** The input as it was made. */
  predicate SameRequest(was: TurnInput, now: TurnInput) {
    now.id == was.id && now.turnId == was.turnId && now.clientRequestId == was.clientRequestId && now.content == was.content
  }

  /** An accepted input points at the message that the last acceptance was about. */
  ghost predicate AcceptedAs(db: Db, log: seq<Event>, k: int, was: TurnInput, now: TurnInput)
    requires 0 <= k < |log|
  {
    && now.status == InputAccepted && now.errorMessage == None
    && Get(log[k].payload, KeyItemId).Str? && now.backendItemId == Some(Get(log[k].payload, KeyItemId).s)
    && now.messageId.Some?
    && HasItem(After(db, log[..k + 1]).messages, now.messageId.value, db.turn.id, Get(log[k].payload, KeyItemId).s)
  }

  ghost predicate PointsRight(db: Db, log: seq<Event>, was: TurnInput, now: TurnInput) {
    forall k :: LastAccept(db, log, k, was.clientRequestId) ==> AcceptedAs(db, log, k, was, now)
  }

  /** The time of acceptance is that of the first one, and stays. */
  ghost predicate TimeRight(db: Db, log: seq<Event>, was: TurnInput, at: Option<string>) {
    forall k :: FirstAccept(db, log, k, was.clientRequestId) ==>
      at == if was.acceptedAt.Some? then was.acceptedAt else Some(log[k].now)
  }

  /** An input that is accepted as message `id`. */
  function AcceptedInput(before: TurnInput, id: string, itemId: string, now: string): TurnInput {
    before.(status := InputAccepted, messageId := Some(id), backendItemId := Some(itemId),
            acceptedAt := if before.acceptedAt.Some? then before.acceptedAt else Some(now), errorMessage := None)
  }

  ghost predicate InputIs(db: Db, log: seq<Event>, was: TurnInput, now: TurnInput) {
    && SameRequest(was, now)
    && (was.turnId == db.turn.id && Accepted(db, log, was.clientRequestId) ==>
          PointsRight(db, log, was, now) && TimeRight(db, log, was, now.acceptedAt))
    && (!(was.turnId == db.turn.id && Accepted(db, log, was.clientRequestId)) ==>
          now == if was.turnId == db.turn.id && was.status == InputQueued && Ended(log)
                 then was.(status := InputUnconfirmed,
                           errorMessage := Some("Turn ended before input acceptance was confirmed."))
                 else was)
  }

  ghost predicate InputsAre(db: Db, log: seq<Event>) {
    && |After(db, log).inputs| == |db.inputs|
    && forall i :: 0 <= i < |db.inputs| ==> InputIs(db, log, db.inputs[i], After(db, log).inputs[i])
  }

  lemma {:induction false} FoundInput(inputs: seq<TurnInput>, turnId: string, client: string)
    ensures var r := FindInput(inputs, turnId, client);
      if r.Some? then r.value in inputs && r.value.turnId == turnId && r.value.clientRequestId == client
      else forall x :: x in inputs ==> x.turnId != turnId || x.clientRequestId != client
  {
    if inputs != [] {
      FoundInput(inputs[1..], turnId, client);
      assert inputs == [inputs[0]] + inputs[1..];
    }
  }

  /** What one more event adds to what was said. */
  lemma MoreSaid(db: Db, front: seq<Event>, e: Event, client: string)
    ensures var log := front + [e]; var stored := Project(After(db, front), e).Projected?;
      && (StoredAt(db, log, |front|) <==> stored)
      && (forall k :: 0 <= k < |front| ==> (StoredAt(db, log, k) <==> StoredAt(db, front, k)))
      && (Accepted(db, log, client) <==> Accepted(db, front, client) || (stored && Accepts(e, client)))
      && (Ended(log) <==> Ended(front) || IsTerminal(e.kind))
      && After(db, log) == Step(After(db, front), e)
  {
    var log := front + [e];
    assert log[..|front|] == front;
    forall k | 0 <= k < |front| ensures log[k] == front[k] && (StoredAt(db, log, k) <==> StoredAt(db, front, k)) {
      assert log[..k] == front[..k];
    }
    if Accepted(db, front, client) {
      var k :| StoredAt(db, front, k) && Accepts(front[k], client);
      assert StoredAt(db, log, k) && Accepts(log[k], client);
    }
    if Project(After(db, front), e).Projected? && Accepts(e, client) {
      assert StoredAt(db, log, |front|) && Accepts(log[|front|], client);
    }
    if Ended(front) {
      var k :| 0 <= k < |front| && IsTerminal(front[k].kind);
      assert IsTerminal(log[k].kind);
    }
    assert log[|front|] == e;
  }

  /** An event that is no acceptance of the request leaves the earlier acceptances the first and the last. */
  lemma SameAccepts(db: Db, front: seq<Event>, e: Event, was: TurnInput, now: TurnInput)
    requires InputIs(db, front, was, now) && was.turnId == db.turn.id && Accepted(db, front, was.clientRequestId)
    requires Project(After(db, front), e).Rejected? || !Accepts(e, was.clientRequestId)
    ensures InputIs(db, front + [e], was, now)
  {
    MoreSaid(db, front, e, was.clientRequestId);
    forall k | LastAccept(db, front + [e], k, was.clientRequestId) ensures AcceptedAs(db, front + [e], k, was, now) {
      SameLast(db, front, e, was.clientRequestId, k);
    }
    forall k | FirstAccept(db, front + [e], k, was.clientRequestId)
      ensures now.acceptedAt == if was.acceptedAt.Some? then was.acceptedAt else Some((front + [e])[k].now)
    {
      SameFirst(db, front, e, was.clientRequestId, k);
    }
  }

  lemma SameLast(db: Db, front: seq<Event>, e: Event, client: string, k: int)
    requires Project(After(db, front), e).Rejected? || !Accepts(e, client)
    requires LastAccept(db, front + [e], k, client)
    ensures k < |front| && LastAccept(db, front, k, client)
    ensures (front + [e])[k] == front[k] && (front + [e])[..k + 1] == front[..k + 1]
  {
    MoreSaid(db, front, e, client);
    assert forall j :: 0 <= j < |front| ==> (front + [e])[j] == front[j];
  }

  lemma SameFirst(db: Db, front: seq<Event>, e: Event, client: string, k: int)
    requires Project(After(db, front), e).Rejected? || !Accepts(e, client)
    requires FirstAccept(db, front + [e], k, client)
    ensures k < |front| && FirstAccept(db, front, k, client) && (front + [e])[k] == front[k]
  {
    MoreSaid(db, front, e, client);
    assert forall j :: 0 <= j < |front| ==> (front + [e])[j] == front[j];
  }

  /** The row of an accepted message, and the inputs with it. */
  lemma UserEffect(db: Db, cursor: int, e: Event) returns (m: Message)
    requires Ok(db, cursor) && Admissible(db, cursor, e) && e.kind.UserAccepted? && Project(db, e).Projected?
    ensures m in Step(db, e).messages && m.turnId == Some(db.turn.id) && m.backendItemId == Some(ItemId(e.payload))
    ensures Step(db, e).inputs == AcceptInput(db.inputs, InputFor(db, e), m, ItemId(e.payload), e.now)
  {
    var rows, itemId := db.messages, ItemId(e.payload);
    FoundItem(rows, db.turn.id, itemId);
    var existing := FindItem(rows, db.turn.id, itemId);
    if existing.Some? {
      m := existing.value;
    } else if Get(e.payload, KeyInitial) == Bool(true) && db.turn.userMessageId.Some? {
      FoundById(rows, db.turn.userMessageId.value);
      var was := FindById(rows, db.turn.userMessageId.value).value;
      m := was.(turnId := Some(db.turn.id), backendItemId := Some(itemId),
                startEventSeq := Some(e.seqNo), endEventSeq := Some(e.seqNo));
      var i :| 0 <= i < |rows| && rows[i] == was;
      assert Step(db, e).messages[i] == m;
    } else {
      m := NewMessage(db, e, User, UserContent(db, e), itemId).(endEventSeq := Some(e.seqNo));
      assert Step(db, e).messages[|rows|] == m;
    }
  }

  /** The accepted input changes, no other one does. */
  lemma AcceptTouches(inputs: seq<TurnInput>, turnId: string, client: string, m: Message, itemId: string, now: string, i: nat)
    requires InputsKeyed(inputs) && i < |inputs|
    ensures var found := if client == "" then None else FindInput(inputs, turnId, client);
      var after := AcceptInput(inputs, found, m, itemId, now);
      && |after| == |inputs|
      && after[i] == if client != "" && inputs[i].turnId == turnId && inputs[i].clientRequestId == client
                     then AcceptedInput(inputs[i], m.id, itemId, now)
                     else inputs[i]
  {
    if client != "" {
      FoundInput(inputs, turnId, client);
      var found := FindInput(inputs, turnId, client);
      assert inputs[i] in inputs;
      if found.Some? {
        var k :| 0 <= k < |inputs| && inputs[k] == found.value;
        assert k < i ==> InputsApart(inputs[k], inputs[i]);
        assert i < k ==> InputsApart(inputs[i], inputs[k]);
      }
    }
  }

  /** The acceptance of this very input. */
  lemma AcceptedNow(db: Db, front: seq<Event>, e: Event, m: Message, was: TurnInput, before: TurnInput)
    requires InputIs(db, front, was, before) && was.turnId == db.turn.id
    requires Project(After(db, front), e).Projected? && Accepts(e, was.clientRequestId) && ItemId(e.payload) != ""
    requires m in Step(After(db, front), e).messages && m.turnId == Some(db.turn.id) && m.backendItemId == Some(ItemId(e.payload))
    ensures InputIs(db, front + [e], was, AcceptedInput(before, m.id, ItemId(e.payload), e.now))
  {
    MoreSaid(db, front, e, was.clientRequestId);
    PointsNow(db, front, e, m, was, before);
    FirstStays(db, front, e, was, before);
  }

  lemma PointsNow(db: Db, front: seq<Event>, e: Event, m: Message, was: TurnInput, before: TurnInput)
    requires Project(After(db, front), e).Projected? && Accepts(e, was.clientRequestId) && ItemId(e.payload) != ""
    requires m in Step(After(db, front), e).messages && m.turnId == Some(db.turn.id) && m.backendItemId == Some(ItemId(e.payload))
    ensures PointsRight(db, front + [e], was, AcceptedInput(before, m.id, ItemId(e.payload), e.now))
  {
    var log, client := front + [e], was.clientRequestId;
    MoreSaid(db, front, e, client);
    assert log[..|front| + 1] == log && log[|front|] == e;
    assert StoredAt(db, log, |front|) && Accepts(log[|front|], client);
    forall k | LastAccept(db, log, k, client) ensures k == |front| { }
    assert HasItem(After(db, log).messages, m.id, db.turn.id, ItemId(e.payload));
  }

  /** The time of the first acceptance is kept, or is now. */
  lemma FirstStays(db: Db, front: seq<Event>, e: Event, was: TurnInput, before: TurnInput)
    requires InputIs(db, front, was, before) && was.turnId == db.turn.id
    ensures TimeRight(db, front + [e], was, if before.acceptedAt.Some? then before.acceptedAt else Some(e.now))
  {
    var log, client := front + [e], was.clientRequestId;
    MoreSaid(db, front, e, client);
    forall k | FirstAccept(db, log, k, client)
      ensures (if before.acceptedAt.Some? then before.acceptedAt else Some(e.now)) ==
        if was.acceptedAt.Some? then was.acceptedAt else Some(log[k].now)
    {
      if k < |front| {
        assert log[k] == front[k] && forall j :: 0 <= j < k ==> log[j] == front[j];
        assert FirstAccept(db, front, k, client) && StoredAt(db, front, k);
      } else {
        NoneBefore(db, front, e, client);
      }
    }
  }

  lemma NoneBefore(db: Db, front: seq<Event>, e: Event, client: string)
    requires FirstAccept(db, front + [e], |front|, client)
    ensures !Accepted(db, front, client)
  {
    MoreSaid(db, front, e, client);
    forall k | StoredAt(db, front, k) ensures !Accepts(front[k], client) {
      assert (front + [e])[k] == front[k];
    }
  }

  lemma NextInput(db: Db, cursor: int, front: seq<Event>, e: Event, i: nat)
    requires InputsAre(db, front) && i < |db.inputs| && InputsKeyed(After(db, front).inputs)
    requires Ok(After(db, front), cursor) && Admissible(After(db, front), cursor, e)
    requires After(db, front).turn.id == db.turn.id
    ensures |Step(After(db, front), e).inputs| == |db.inputs|
    ensures InputIs(db, front + [e], db.inputs[i], Step(After(db, front), e).inputs[i])
  {
    var at, was := After(db, front), db.inputs[i];
    assert InputIs(db, front, was, at.inputs[i]);
    if e.kind.UserAccepted? && Project(at, e).Projected? {
      NextAfterAccept(db, cursor, front, e, i);
    } else {
      NextAfterOther(db, front, e, i);
    }
  }

  lemma NextAfterAccept(db: Db, cursor: int, front: seq<Event>, e: Event, i: nat)
    requires i < |db.inputs| == |After(db, front).inputs| && InputIs(db, front, db.inputs[i], After(db, front).inputs[i])
    requires InputsKeyed(After(db, front).inputs) && After(db, front).turn.id == db.turn.id
    requires Ok(After(db, front), cursor) && Admissible(After(db, front), cursor, e)
    requires e.kind.UserAccepted? && Project(After(db, front), e).Projected?
    ensures |Step(After(db, front), e).inputs| == |db.inputs|
    ensures InputIs(db, front + [e], db.inputs[i], Step(After(db, front), e).inputs[i])
  {
    var at, was := After(db, front), db.inputs[i];
    var m := UserEffect(at, cursor, e);
    AcceptTouches(at.inputs, at.turn.id, StringOr(Get(e.payload, KeyClientId), ""), m, ItemId(e.payload), e.now, i);
    if Accepts(e, was.clientRequestId) && was.turnId == db.turn.id {
      AcceptedNow(db, front, e, m, was, at.inputs[i]);
    } else {
      Untouched(db, front, e, was, at.inputs[i]);
    }
  }

  lemma Untouched(db: Db, front: seq<Event>, e: Event, was: TurnInput, now: TurnInput)
    requires InputIs(db, front, was, now) && !IsTerminal(e.kind)
    requires Project(After(db, front), e).Rejected? || was.turnId != db.turn.id || !Accepts(e, was.clientRequestId)
    ensures InputIs(db, front + [e], was, now)
  {
    MoreSaid(db, front, e, was.clientRequestId);
    if was.turnId == db.turn.id && Accepted(db, front, was.clientRequestId) { SameAccepts(db, front, e, was, now); }
  }

  lemma NextAfterOther(db: Db, front: seq<Event>, e: Event, i: nat)
    requires i < |db.inputs| == |After(db, front).inputs| && InputIs(db, front, db.inputs[i], After(db, front).inputs[i])
    requires After(db, front).turn.id == db.turn.id && After(db, front).turn.historyVersion == 2
    requires !e.kind.UserAccepted? || Project(After(db, front), e).Rejected?
    ensures |Step(After(db, front), e).inputs| == |db.inputs|
    ensures InputIs(db, front + [e], db.inputs[i], Step(After(db, front), e).inputs[i])
  {
    var at, was := After(db, front), db.inputs[i];
    SameCount(at, e);
    if IsTerminal(e.kind) {
      MoreSaid(db, front, e, was.clientRequestId);
      if was.turnId == db.turn.id && Accepted(db, front, was.clientRequestId) {
        AcceptedStatus(db, front, was, at.inputs[i]);
        SameAccepts(db, front, e, was, at.inputs[i]);
      }
    } else {
      Untouched(db, front, e, was, at.inputs[i]);
    }
  }

  lemma AcceptedStatus(db: Db, log: seq<Event>, was: TurnInput, now: TurnInput)
    requires InputIs(db, log, was, now) && was.turnId == db.turn.id && Accepted(db, log, was.clientRequestId)
    ensures now.status == InputAccepted
  {
    var k := TheLast(db, log, was.clientRequestId);
  }

  lemma TheLast(db: Db, log: seq<Event>, client: string) returns (k: nat)
    requires Accepted(db, log, client)
    ensures LastAccept(db, log, k, client)
  {
    var accepts := seq(|log|, i requires 0 <= i < |log| => StoredAt(db, log, i) && Accepts(log[i], client));
    var any :| StoredAt(db, log, any) && Accepts(log[any], client);
    assert accepts[any];
    k := LastTrue(accepts);
    forall j | k < j < |log| ensures !(StoredAt(db, log, j) && Accepts(log[j], client)) {
      assert !accepts[j];
    }
  }

  lemma {:induction false} LastTrue(flags: seq<bool>) returns (k: nat)
    requires true in flags
    ensures k < |flags| && flags[k] && forall j :: k < j < |flags| ==> !flags[j]
  {
    var n := |flags| - 1;
    if flags[n] {
      k := n;
    } else {
      assert flags == flags[..n] + [flags[n]];
      k := LastTrue(flags[..n]);
    }
  }

  lemma KeysStay(db: Db, log: seq<Event>)
    requires InputsAre(db, log) && InputsKeyed(db.inputs)
    ensures InputsKeyed(After(db, log).inputs)
  {
    var now := After(db, log).inputs;
    forall i, j | 0 <= i < j < |now| ensures InputsApart(now[i], now[j]) {
      assert InputIs(db, log, db.inputs[i], now[i]) && InputIs(db, log, db.inputs[j], now[j]);
      assert InputsApart(db.inputs[i], db.inputs[j]);
    }
  }

  lemma {:induction false} InputsFollow(db: Db, cursor: int, log: seq<Event>)
    requires Ok(db, cursor) && ValidLog(db, cursor, log) && InputsKeyed(db.inputs)
    ensures InputsAre(db, log)
  {
    if log == [] {
      NothingSaid(db);
    } else {
      ValidPrefix(db, cursor, log, |log| - 1);
      InputsFollow(db, cursor, log[..|log| - 1]);
      LastInputs(db, cursor, log);
    }
  }

  lemma LastInputs(db: Db, cursor: int, log: seq<Event>)
    requires Ok(db, cursor) && ValidLog(db, cursor, log) && InputsKeyed(db.inputs)
    requires log != [] && InputsAre(db, log[..|log| - 1])
    ensures InputsAre(db, log)
  {
    var n := |log| - 1;
    LastIsValid(db, cursor, log);
    NextInputs(db, Cursor(db, cursor, log[..n]), log[..n], log[n]);
    Rejoined(db, log);
  }

  lemma Rejoined(db: Db, log: seq<Event>)
    requires log != [] && InputsAre(db, log[..|log| - 1] + [log[|log| - 1]])
    ensures InputsAre(db, log)
  {
    assert log[..|log| - 1] + [log[|log| - 1]] == log;
  }

  lemma NothingSaid(db: Db)
    ensures InputsAre(db, [])
  {
  }

  /** Just before the last event. */
  lemma LastIsValid(db: Db, cursor: int, log: seq<Event>)
    requires Ok(db, cursor) && ValidLog(db, cursor, log) && log != []
    ensures var front := log[..|log| - 1];
      && ValidLog(db, cursor, front) && Ok(After(db, front), Cursor(db, cursor, front))
      && Admissible(After(db, front), Cursor(db, cursor, front), log[|log| - 1])
      && SameTurnRow(After(db, front).turn, db.turn)
  {
    var front := log[..|log| - 1];
    ValidPrefix(db, cursor, log, |log| - 1);
    RunKeepsOk(db, cursor, front);
    SameTurn(db, front);
  }

  lemma NextInputs(db: Db, cursor: int, front: seq<Event>, e: Event)
    requires InputsAre(db, front) && InputsKeyed(db.inputs) && After(db, front).turn.id == db.turn.id
    requires Ok(After(db, front), cursor) && Admissible(After(db, front), cursor, e)
    ensures InputsAre(db, front + [e])
  {
    KeysStay(db, front);
    MoreSaid(db, front, e, "");
    SameCount(After(db, front), e);
    forall i | 0 <= i < |db.inputs| ensures InputIs(db, front + [e], db.inputs[i], After(db, front + [e]).inputs[i]) {
      NextInput(db, cursor, front, e, i);
    }
  }

  lemma SameCount(db: Db, e: Event)
    ensures |Step(db, e).inputs| == |db.inputs|
  {
  }

  /**
   What becomes of an input, over any log: it is accepted if and only if a stored
   acceptance carried its request, and then points at the message row of the last
   such event's item; otherwise it is unconfirmed if and only if it was queued and
   the turn ended. Inputs of other turns stay as they are.
   */
  lemma InputsAreWhatArrived(db: Db, cursor: int, log: seq<Event>, i: nat)
    requires Ok(db, cursor) && ValidLog(db, cursor, log) && InputsKeyed(db.inputs) && i < |db.inputs|
    requires db.inputs[i].status == InputQueued
    ensures i < |After(db, log).inputs|
    ensures var was, now := db.inputs[i], After(db, log).inputs[i]; var own := was.turnId == db.turn.id;
      && InputIs(db, log, was, now)
      && (now.status == InputAccepted <==> own && Accepted(db, log, was.clientRequestId))
      && (now.status == InputUnconfirmed <==> own && !Accepted(db, log, was.clientRequestId) && Ended(log))
      && now.status != InputFailed
  {
    InputsFollow(db, cursor, log);
    var was, now := db.inputs[i], After(db, log).inputs[i];
    assert InputIs(db, log, was, now);
    if was.turnId == db.turn.id && Accepted(db, log, was.clientRequestId) { AcceptedStatus(db, log, was, now); }
  }

  // ---- The turn ------------------------------------------------------------

  /** A turn's row, told from its last terminal event, and from its last failure. */
  function TurnSaid(turn: Turn, log: seq<Event>): Turn {
    if log == [] then turn else Hears(TurnSaid(turn, log[..|log| - 1]), log[|log| - 1])
  }

  function Hears(turn: Turn, e: Event): Turn {
    match e.kind
    case TurnCompleted => turn.(status := "completed", endedAt := Some(e.now))
    case TurnCancelled => turn.(status := "cancelled", endedAt := Some(e.now))
    case TurnFailed => turn.(
      status := "failed", endedAt := Some(e.now),
      failureCode := Some(if Get(e.payload, KeyCode).Str? then Get(e.payload, KeyCode).s else "RUNNER_FAILED"),
      failureMessage := Some(if Get(e.payload, KeyMessage).Str? then Get(e.payload, KeyMessage).s else "Runner failed"))
    case _ => turn
  }

  /** The turn's row after any log: its last terminal event decides the status and the end. */
  lemma {:induction false} TurnIsAsItEnded(db: Db, cursor: int, log: seq<Event>)
    requires Ok(db, cursor) && ValidLog(db, cursor, log)
    ensures After(db, log).turn == TurnSaid(db.turn, log)
  {
    if log != [] {
      var n := |log| - 1;
      LastIsValid(db, cursor, log);
      TurnIsAsItEnded(db, cursor, log[..n]);
      TurnHears(After(db, log[..n]), log[n]);
    }
  }

  lemma TurnHears(db: Db, e: Event)
    requires db.turn.historyVersion == 2
    ensures Step(db, e).turn == Hears(db.turn, e)
  {
  }

  // ---- User messages -------------------------------------------------------

  /** The text of an accepted message: the event's own, or its request's. */
  ghost predicate ContentOf(db: Db, e: Event, content: string) {
    if Get(e.payload, KeyContent).Str? then content == Get(e.payload, KeyContent).s
    else if exists x :: x in db.inputs && x.turnId == db.turn.id && Accepts(e, x.clientRequestId)
    then exists x :: x in db.inputs && x.turnId == db.turn.id && Accepts(e, x.clientRequestId) && content == x.content
    else content == ""
  }

  /** The row that a message's first acceptance leaves: the turn's own message, or a new one. */
  ghost predicate UserRow(db: Db, e: Event, m: Message) {
    && m.role == User && m.state == Completed && m.turnId == Some(db.turn.id) && m.backendItemId == Some(ItemId(e.payload))
    && m.startEventSeq == Some(e.seqNo) && m.endEventSeq == Some(e.seqNo)
    && (if Get(e.payload, KeyInitial) == Bool(true) && db.turn.userMessageId.Some? then
          && m.id == db.turn.userMessageId.value
          && exists was :: was in db.messages && was.id == m.id && m.content == was.content && m.createdAt == was.createdAt
        else
          m.id == e.newId && m.createdAt == e.now && m.sessionId == db.turn.sessionId && ContentOf(db, e, m.content))
  }

  /**
   An accepted message: the first stored acceptance of an item leaves its row so,
   and its content, role, state and place never change afterwards; a later one of
   the same item changes no message.
   */
  lemma UserMessageIsWhatArrived(db: Db, cursor: int, log: seq<Event>, k: nat) returns (i: nat)
    requires Ok(db, cursor) && ValidLog(db, cursor, log) && StoredAt(db, log, k) && log[k].kind.UserAccepted?
    ensures var at, next, end := After(db, log[..k]), After(db, log[..k + 1]), After(db, log);
      && i < |next.messages| && IsItem(next.messages[i], db.turn.id, ItemId(log[k].payload))
      && (if exists m :: m in at.messages && IsItem(m, db.turn.id, ItemId(log[k].payload)) then next.messages == at.messages
          else UserRow(at, log[k], next.messages[i]))
      && i < |end.messages| && Later(next.messages[i], end.messages[i])
  {
    var at, e := After(db, log[..k]), log[k];
    ValidPrefix(db, cursor, log, k);
    RunKeepsOk(db, cursor, log[..k]);
    SameTurn(db, log[..k]);
    OneMore(db, cursor, log, k);
    ValidPrefix(db, cursor, log, k + 1);
    RunKeepsOk(db, cursor, log[..k + 1]);
    ValidSuffix(db, cursor, log, k + 1);
    RunSplits(db, cursor, log, k + 1);
    var m := UserRowIs(at, Cursor(db, cursor, log[..k]), e);
    var rows := After(db, log[..k + 1]).messages;
    var n :| 0 <= n < |rows| && rows[n] == m;
    i := n;
    ClosedStaysClosed(After(db, log[..k + 1]), Cursor(db, cursor, log[..k + 1]), log[k + 1..], i);
  }

  lemma UserRowIs(db: Db, cursor: int, e: Event) returns (m: Message)
    requires Ok(db, cursor) && Admissible(db, cursor, e) && e.kind.UserAccepted? && Project(db, e).Projected?
    ensures m in Step(db, e).messages && IsItem(m, db.turn.id, ItemId(e.payload))
    ensures if exists x :: x in db.messages && IsItem(x, db.turn.id, ItemId(e.payload)) then Step(db, e).messages == db.messages
            else UserRow(db, e, m)
  {
    var rows, itemId := db.messages, ItemId(e.payload);
    FoundItem(rows, db.turn.id, itemId);
    if FindItem(rows, db.turn.id, itemId).Some? {
      m := FindItem(rows, db.turn.id, itemId).value;
    } else if Get(e.payload, KeyInitial) == Bool(true) && db.turn.userMessageId.Some? {
      m := LinkedRow(db, cursor, e);
    } else {
      m := NewMessage(db, e, User, UserContent(db, e), itemId).(endEventSeq := Some(e.seqNo));
      assert Step(db, e).messages[|rows|] == m;
      ContentIs(db, e);
    }
  }

  lemma LinkedRow(db: Db, cursor: int, e: Event) returns (m: Message)
    requires Ok(db, cursor) && e.kind.UserAccepted? && Project(db, e).Projected?
    requires FindItem(db.messages, db.turn.id, ItemId(e.payload)).None?
    requires Get(e.payload, KeyInitial) == Bool(true) && db.turn.userMessageId.Some?
    ensures m in Step(db, e).messages && UserRow(db, e, m)
  {
    FoundById(db.messages, db.turn.userMessageId.value);
    var was := FindById(db.messages, db.turn.userMessageId.value).value;
    assert RowOk(was, db.turn, cursor);
    m := was.(turnId := Some(db.turn.id), backendItemId := Some(ItemId(e.payload)),
              startEventSeq := Some(e.seqNo), endEventSeq := Some(e.seqNo));
    var i :| 0 <= i < |db.messages| && db.messages[i] == was;
    assert Step(db, e).messages[i] == m;
  }

  lemma ContentIs(db: Db, e: Event)
    requires e.kind.UserAccepted?
    ensures ContentOf(db, e, UserContent(db, e))
  {
    var client := StringOr(Get(e.payload, KeyClientId), "");
    FoundInput(db.inputs, db.turn.id, client);
    var input := InputFor(db, e);
    if input.Some? {
      assert input.value in db.inputs && Accepts(e, input.value.clientRequestId);
      if !Get(e.payload, KeyContent).Str? { assert UserContent(db, e) == input.value.content; }
    } else {
      forall x | x in db.inputs && x.turnId == db.turn.id ensures !Accepts(e, x.clientRequestId) { }
    }
  }
}
