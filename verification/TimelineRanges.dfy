/**
 The timeline interval of an assistant message, (timelineStartSeq, endEventSeq]:
 the closed intervals of a turn leave no gap, and they are disjoint exactly
 when no message starts while another is still streaming.
 */
module TimelineRanges {
  import opened Prelude
  import opened Json
  import opened MessageHistory
  import opened HistoryInvariants

  function TimelineStart(m: Message): int {
    if m.timelineStartSeq.Some? then m.timelineStartSeq.value else 0
  }

  predicate InRange(m: Message, s: int) {
    s > TimelineStart(m) && (m.endEventSeq.None? || s <= m.endEventSeq.value)
  }

  predicate OfTurn(m: Message, turnId: string) {
    m.turnId == Some(turnId) && m.role == Assistant
  }

  ghost predicate Disjoint(a: Message, b: Message) {
    forall s :: !(InRange(a, s) && InRange(b, s))
  }

  /** A closed message of the turn whose interval contains `s`. */
  ghost predicate CoveredBy(rows: seq<Message>, turnId: string, s: int) {
    exists i :: 0 <= i < |rows| && EndedIn(rows[i], turnId) && InRange(rows[i], s)
  }

  /** The event creates a new assistant message. */
  predicate Starts(db: Db, e: Event) {
    IsAssistant(e) && ItemId(e.payload) != "" && FindItem(db.messages, db.turn.id, ItemId(e.payload)).None?
  }

  predicate SomeStreaming(rows: seq<Message>) {
    exists i :: 0 <= i < |rows| && rows[i].state == Streaming
  }

  /** At every event: a message starts only when no other is streaming. */
  predicate OneAtATime(db: Db, log: seq<Event>) {
    forall k :: 0 <= k < |log| ==>
      !(Starts(After(db, log[..k]), log[k]) && SomeStreaming(After(db, log[..k]).messages))
  }

  // ---- The largest end -----------------------------------------------------

  lemma {:induction false} MaxEndBound(rows: seq<Message>, turnId: string)
    ensures MaxEnd(rows, turnId) >= 0
    ensures forall i :: 0 <= i < |rows| && EndedIn(rows[i], turnId) ==> rows[i].endEventSeq.value <= MaxEnd(rows, turnId)
    ensures MaxEnd(rows, turnId) > 0 ==>
      exists i :: 0 <= i < |rows| && EndedIn(rows[i], turnId) && rows[i].endEventSeq.value == MaxEnd(rows, turnId)
  {
    if rows != [] {
      MaxEndBound(rows[1..], turnId);
      if MaxEnd(rows[1..], turnId) > 0 {
        var i :| 0 <= i < |rows| - 1 && EndedIn(rows[1..][i], turnId)
              && rows[1..][i].endEventSeq.value == MaxEnd(rows[1..], turnId);
        assert rows[i + 1] == rows[1..][i];
      }
      forall i | 0 <= i < |rows| && EndedIn(rows[i], turnId)
        ensures rows[i].endEventSeq.value <= MaxEnd(rows, turnId)
      {
        assert i > 0 ==> rows[i] == rows[1..][i - 1];
      }
    }
  }

  // ---- One event, seen by the intervals -------------------------------------

  ghost predicate RowStep(m: Message, next: Message, turnId: string, cursor: int, seqNo: int) {
    if EndedIn(m, turnId) then next == m && m.endEventSeq.value <= cursor
    else if m.state == Streaming then
      && OfTurn(m, turnId) && OfTurn(next, turnId)
      && next.timelineStartSeq == m.timelineStartSeq
      && (next.state == Streaming <==> !EndedIn(next, turnId))
      && (next.state != Streaming ==> next.endEventSeq == Some(seqNo))
    else !OfTurn(m, turnId) && !OfTurn(next, turnId) && next.state != Streaming
  }

  /** A message starting at `seqNo`: its interval begins at the largest end so far. */
  ghost predicate Opens(rows: seq<Message>, m: Message, turnId: string, seqNo: int) {
    && OfTurn(m, turnId)
    && m.timelineStartSeq == Some(MaxEnd(rows, turnId))
    && (m.state == Streaming <==> !EndedIn(m, turnId))
    && (m.state != Streaming ==> m.endEventSeq == Some(seqNo))
  }

  ghost predicate IntervalStep(rows: seq<Message>, next: seq<Message>, turnId: string, cursor: int, seqNo: int, starts: bool) {
    && 0 <= cursor < seqNo
    && |rows| <= |next| <= |rows| + 1
    && (forall i :: 0 <= i < |rows| ==> RowStep(rows[i], next[i], turnId, cursor, seqNo))
    && (starts ==> |next| == |rows| + 1 && next[..|rows|] == rows)
    && (|next| > |rows| ==>
          if starts then Opens(rows, next[|rows|], turnId, seqNo)
          else !OfTurn(next[|rows|], turnId) && next[|rows|].state != Streaming)
  }

  lemma StepIntervals(db: Db, cursor: int, e: Event)
    requires Ok(db, cursor) && Admissible(db, cursor, e) && cursor >= 0
    ensures IntervalStep(db.messages, Step(db, e).messages, db.turn.id, cursor, e.seqNo, Starts(db, e))
  {
    StepKeepsOk(db, cursor, e);
    var rows, next := db.messages, Step(db, e).messages;
    forall i | 0 <= i < |rows| ensures RowStep(rows[i], next[i], db.turn.id, cursor, e.seqNo) {
      assert rows[i] in rows && RowOk(rows[i], db.turn, cursor);
      assert next[i] in next && RowOk(next[i], Step(db, e).turn, Max(cursor, e.seqNo));
      assert Evolves(rows[i], next[i], db.turn.id, e.seqNo);
    }
    FoundItem(rows, db.turn.id, ItemId(e.payload));
  }

  /** The largest end only moves to the event just stored, when that event closes something. */
  lemma MaxEndMoves(rows: seq<Message>, next: seq<Message>, turnId: string, cursor: int, seqNo: int, starts: bool)
    requires IntervalStep(rows, next, turnId, cursor, seqNo, starts)
    ensures 0 <= MaxEnd(rows, turnId) <= cursor
    ensures MaxEnd(next, turnId) == MaxEnd(rows, turnId) || MaxEnd(next, turnId) == seqNo
    ensures MaxEnd(next, turnId) == seqNo <==> exists i :: 0 <= i < |next| && NewlyEnded(rows, next, turnId, i)
  {
    MaxEndBound(rows, turnId);
    MaxEndBound(next, turnId);
    if MaxEnd(rows, turnId) > 0 {
      var i :| 0 <= i < |rows| && EndedIn(rows[i], turnId) && rows[i].endEventSeq.value == MaxEnd(rows, turnId);
      assert RowStep(rows[i], next[i], turnId, cursor, seqNo);
    }
    forall i | 0 <= i < |next| && EndedIn(next[i], turnId)
      ensures if NewlyEnded(rows, next, turnId, i) then next[i].endEventSeq == Some(seqNo)
              else next[i].endEventSeq.value <= MaxEnd(rows, turnId)
    {
      if i < |rows| { assert RowStep(rows[i], next[i], turnId, cursor, seqNo); }
    }
  }

  /** Row `i` is closed in `next` and was not before. */
  predicate NewlyEnded(rows: seq<Message>, next: seq<Message>, turnId: string, i: int)
    requires 0 <= i < |next|
  {
    EndedIn(next[i], turnId) && !(i < |rows| && EndedIn(rows[i], turnId))
  }

  // ---- No gaps -------------------------------------------------------------

  ghost predicate StartsBounded(rows: seq<Message>, turnId: string) {
    forall i :: 0 <= i < |rows| && OfTurn(rows[i], turnId) ==>
      rows[i].timelineStartSeq.Some? && 0 <= TimelineStart(rows[i]) <= MaxEnd(rows, turnId)
  }

  ghost predicate NoGaps(rows: seq<Message>, turnId: string) {
    && StartsBounded(rows, turnId)
    && forall s :: 0 < s <= MaxEnd(rows, turnId) ==> CoveredBy(rows, turnId, s)
  }

  lemma StartsStayBounded(rows: seq<Message>, next: seq<Message>, turnId: string, cursor: int, seqNo: int, starts: bool, i: nat)
    requires IntervalStep(rows, next, turnId, cursor, seqNo, starts) && StartsBounded(rows, turnId)
    requires i < |next| && OfTurn(next[i], turnId)
    ensures next[i].timelineStartSeq.Some? && 0 <= TimelineStart(next[i]) <= MaxEnd(rows, turnId)
  {
    MaxEndBound(rows, turnId);
    if i < |rows| { assert RowStep(rows[i], next[i], turnId, cursor, seqNo); }
  }

  lemma NoGapsStep(rows: seq<Message>, next: seq<Message>, turnId: string, cursor: int, seqNo: int, starts: bool)
    requires IntervalStep(rows, next, turnId, cursor, seqNo, starts) && NoGaps(rows, turnId)
    ensures NoGaps(next, turnId)
  {
    MaxEndMoves(rows, next, turnId, cursor, seqNo, starts);
    forall i | 0 <= i < |next| && OfTurn(next[i], turnId)
      ensures next[i].timelineStartSeq.Some? && 0 <= TimelineStart(next[i]) <= MaxEnd(rows, turnId)
    {
      StartsStayBounded(rows, next, turnId, cursor, seqNo, starts, i);
    }
    forall s | 0 < s <= MaxEnd(next, turnId) ensures CoveredBy(next, turnId, s) {
      if s <= MaxEnd(rows, turnId) {
        assert CoveredBy(rows, turnId, s);
        var i :| 0 <= i < |rows| && EndedIn(rows[i], turnId) && InRange(rows[i], s);
        assert RowStep(rows[i], next[i], turnId, cursor, seqNo);
        assert EndedIn(next[i], turnId) && InRange(next[i], s);
      } else {
        var i :| 0 <= i < |next| && NewlyEnded(rows, next, turnId, i);
        NewlyEndedAt(rows, next, turnId, cursor, seqNo, starts, i);
        assert EndedIn(next[i], turnId) && InRange(next[i], s);
      }
    }
  }

  lemma NewlyEndedAt(rows: seq<Message>, next: seq<Message>, turnId: string, cursor: int, seqNo: int, starts: bool, i: nat)
    requires IntervalStep(rows, next, turnId, cursor, seqNo, starts)
    requires i < |next| && NewlyEnded(rows, next, turnId, i)
    ensures next[i].endEventSeq == Some(seqNo)
    ensures if i < |rows| then rows[i].state == Streaming && next[i].timelineStartSeq == rows[i].timelineStartSeq
            else starts && next[i].timelineStartSeq == Some(MaxEnd(rows, turnId))
  {
    if i < |rows| { assert RowStep(rows[i], next[i], turnId, cursor, seqNo); }
  }

  /** Before its first message a turn has no intervals at all. */
  ghost predicate NoAssistantYet(db: Db) {
    forall m :: m in db.messages ==> !OfTurn(m, db.turn.id)
  }

  /**
   Every event number up to the largest end of a closed assistant message lies
   in the interval of some closed assistant message, at every point of every log.
   */
  lemma {:induction false} RangesCover(db: Db, cursor: int, log: seq<Event>)
    requires Ok(db, cursor) && ValidLog(db, cursor, log) && cursor >= 0 && NoAssistantYet(db)
    ensures NoGaps(After(db, log).messages, db.turn.id)
  {
    if log == [] {
      MaxEndBound(db.messages, db.turn.id);
      forall i | 0 <= i < |db.messages| ensures !OfTurn(db.messages[i], db.turn.id) {
        assert db.messages[i] in db.messages;
      }
    } else {
      var n := |log| - 1;
      ValidPrefix(db, cursor, log, n);
      RangesCover(db, cursor, log[..n]);
      RunKeepsOk(db, cursor, log[..n]);
      SameTurn(db, log[..n]);
      var before, reached := After(db, log[..n]), Cursor(db, cursor, log[..n]);
      StepIntervals(before, reached, log[n]);
      NoGapsStep(before.messages, After(db, log).messages, db.turn.id, reached, log[n].seqNo, Starts(before, log[n]));
    }
  }

  // ---- Disjointness --------------------------------------------------------

  ghost predicate ClosedDisjoint(rows: seq<Message>, turnId: string) {
    forall i, j :: 0 <= i < j < |rows| && EndedIn(rows[i], turnId) && EndedIn(rows[j], turnId) ==> Disjoint(rows[i], rows[j])
  }

  /** At most one row is streaming, and it starts where the closed ones end. */
  ghost predicate OneOpen(rows: seq<Message>, turnId: string) {
    && (forall i, j :: 0 <= i < j < |rows| ==> !(rows[i].state == Streaming && rows[j].state == Streaming))
    && (forall i :: 0 <= i < |rows| && rows[i].state == Streaming ==> rows[i].timelineStartSeq == Some(MaxEnd(rows, turnId)))
  }

  /** Streaming now, or closed by the last event. */
  predicate OpenDuring(rows: seq<Message>, next: seq<Message>, turnId: string, i: int)
    requires 0 <= i < |next|
  {
    next[i].state == Streaming || NewlyEnded(rows, next, turnId, i)
  }

  lemma OpenDuringStep(rows: seq<Message>, next: seq<Message>, turnId: string, cursor: int, seqNo: int, starts: bool, i: nat)
    requires IntervalStep(rows, next, turnId, cursor, seqNo, starts) && OneOpen(rows, turnId)
    requires i < |next| && OpenDuring(rows, next, turnId, i)
    ensures if i < |rows| then rows[i].state == Streaming else starts
    ensures next[i].timelineStartSeq == Some(MaxEnd(rows, turnId))
  {
    if i < |rows| { assert RowStep(rows[i], next[i], turnId, cursor, seqNo); }
  }

  lemma AtMostOneOpenDuring(rows: seq<Message>, next: seq<Message>, turnId: string, cursor: int, seqNo: int, starts: bool, i: nat, j: nat)
    requires IntervalStep(rows, next, turnId, cursor, seqNo, starts) && OneOpen(rows, turnId)
    requires !(starts && SomeStreaming(rows))
    requires i < j < |next| && OpenDuring(rows, next, turnId, i)
    ensures !OpenDuring(rows, next, turnId, j)
  {
    if OpenDuring(rows, next, turnId, j) {
      OpenDuringStep(rows, next, turnId, cursor, seqNo, starts, i);
      OpenDuringStep(rows, next, turnId, cursor, seqNo, starts, j);
      assert false;
    }
  }

  lemma DisjointStep(rows: seq<Message>, next: seq<Message>, turnId: string, cursor: int, seqNo: int, starts: bool)
    requires IntervalStep(rows, next, turnId, cursor, seqNo, starts) && OneOpen(rows, turnId) && ClosedDisjoint(rows, turnId)
    requires !(starts && SomeStreaming(rows))
    ensures ClosedDisjoint(next, turnId)
  {
    forall i, j | 0 <= i < j < |next| && EndedIn(next[i], turnId) && EndedIn(next[j], turnId)
      ensures Disjoint(next[i], next[j])
    {
      MaxEndBound(rows, turnId);
      if i < |rows| { assert RowStep(rows[i], next[i], turnId, cursor, seqNo); }
      if j < |rows| { assert RowStep(rows[j], next[j], turnId, cursor, seqNo); }
      if !NewlyEnded(rows, next, turnId, i) && !NewlyEnded(rows, next, turnId, j) {
        assert Disjoint(rows[i], rows[j]);
      } else if NewlyEnded(rows, next, turnId, i) {
        OpenDuringStep(rows, next, turnId, cursor, seqNo, starts, i);
        AtMostOneOpenDuring(rows, next, turnId, cursor, seqNo, starts, i, j);
      } else {
        OpenDuringStep(rows, next, turnId, cursor, seqNo, starts, j);
      }
    }
  }

  lemma OneOpenStep(rows: seq<Message>, next: seq<Message>, turnId: string, cursor: int, seqNo: int, starts: bool)
    requires IntervalStep(rows, next, turnId, cursor, seqNo, starts) && OneOpen(rows, turnId)
    requires !(starts && SomeStreaming(rows))
    ensures OneOpen(next, turnId)
  {
    MaxEndMoves(rows, next, turnId, cursor, seqNo, starts);
    forall i, j | 0 <= i < j < |next| ensures !(next[i].state == Streaming && next[j].state == Streaming) {
      if next[i].state == Streaming {
        AtMostOneOpenDuring(rows, next, turnId, cursor, seqNo, starts, i, j);
      }
    }
    forall i | 0 <= i < |next| && next[i].state == Streaming
      ensures next[i].timelineStartSeq == Some(MaxEnd(next, turnId))
    {
      OpenDuringStep(rows, next, turnId, cursor, seqNo, starts, i);
      if MaxEnd(next, turnId) == seqNo {
        var j :| 0 <= j < |next| && NewlyEnded(rows, next, turnId, j);
        assert !EndedIn(next[i], turnId) by {
          if i < |rows| { assert RowStep(rows[i], next[i], turnId, cursor, seqNo); }
        }
        if i < j {
          AtMostOneOpenDuring(rows, next, turnId, cursor, seqNo, starts, i, j);
        } else {
          AtMostOneOpenDuring(rows, next, turnId, cursor, seqNo, starts, j, i);
        }
      }
    }
  }

  lemma EmptyIsDisjoint(db: Db, cursor: int)
    requires Ok(db, cursor) && NoAssistantYet(db)
    ensures ClosedDisjoint(db.messages, db.turn.id) && OneOpen(db.messages, db.turn.id)
  {
    forall i | 0 <= i < |db.messages| ensures !OfTurn(db.messages[i], db.turn.id) && RowOk(db.messages[i], db.turn, cursor) {
      assert db.messages[i] in db.messages;
    }
  }

  lemma OneAtATimePrefix(db: Db, log: seq<Event>)
    requires OneAtATime(db, log) && log != []
    ensures OneAtATime(db, log[..|log| - 1]) && Starts(After(db, log[..|log| - 1]), log[|log| - 1]) ==>
      !SomeStreaming(After(db, log[..|log| - 1]).messages)
    ensures OneAtATime(db, log[..|log| - 1])
  {
    var n := |log| - 1;
    forall k | 0 <= k < n
      ensures !(Starts(After(db, log[..n][..k]), log[..n][k]) && SomeStreaming(After(db, log[..n][..k]).messages))
    {
      assert log[..n][..k] == log[..k];
    }
  }

  lemma {:induction false} OneAtATimeIsDisjoint(db: Db, cursor: int, log: seq<Event>)
    requires Ok(db, cursor) && ValidLog(db, cursor, log) && cursor >= 0 && NoAssistantYet(db)
    requires OneAtATime(db, log)
    ensures ClosedDisjoint(After(db, log).messages, db.turn.id) && OneOpen(After(db, log).messages, db.turn.id)
  {
    if log == [] {
      EmptyIsDisjoint(db, cursor);
    } else {
      var n := |log| - 1;
      ValidPrefix(db, cursor, log, n);
      OneAtATimePrefix(db, log);
      OneAtATimeIsDisjoint(db, cursor, log[..n]);
      RunKeepsOk(db, cursor, log[..n]);
      SameTurn(db, log[..n]);
      var before, reached := After(db, log[..n]), Cursor(db, cursor, log[..n]);
      StepIntervals(before, reached, log[n]);
      DisjointStep(before.messages, After(db, log).messages, db.turn.id, reached, log[n].seqNo, Starts(before, log[n]));
      OneOpenStep(before.messages, After(db, log).messages, db.turn.id, reached, log[n].seqNo, Starts(before, log[n]));
    }
  }

  /** A streaming message that is closed later ends after the events stored so far. */
  lemma {:induction false} EndsLater(db: Db, cursor: int, log: seq<Event>, i: nat)
    requires Ok(db, cursor) && ValidLog(db, cursor, log) && i < |db.messages|
    requires db.messages[i].state == Streaming
    ensures i < |After(db, log).messages|
    ensures var m := After(db, log).messages[i];
      && OfTurn(m, db.turn.id) && Later(db.messages[i], m)
      && (m.state != Streaming ==> m.endEventSeq.Some? && m.endEventSeq.value > cursor)
  {
    if log == [] {
      assert db.messages[i] in db.messages && RowOk(db.messages[i], db.turn, cursor);
    } else {
      var n := |log| - 1;
      ValidPrefix(db, cursor, log, n);
      EndsLater(db, cursor, log[..n], i);
      RunKeepsOk(db, cursor, log[..n]);
      StepKeepsOk(After(db, log[..n]), Cursor(db, cursor, log[..n]), log[n]);
    }
  }

  /** A message that starts while another streams: both are open around event `seqNo`. */
  lemma BothOpen(rows: seq<Message>, next: seq<Message>, turnId: string, cursor: int, seqNo: int, i: nat)
    requires IntervalStep(rows, next, turnId, cursor, seqNo, true) && NoGaps(rows, turnId)
    requires i < |rows| && rows[i].state == Streaming
    ensures |next| == |rows| + 1 && next[i] == rows[i]
    ensures TimelineStart(next[i]) < seqNo && TimelineStart(next[|rows|]) < seqNo
    ensures OfTurn(next[i], turnId) && OfTurn(next[|rows|], turnId)
    ensures next[|rows|].state == Streaming || next[|rows|].endEventSeq == Some(seqNo)
  {
    MaxEndMoves(rows, next, turnId, cursor, seqNo, true);
    assert RowStep(rows[i], next[i], turnId, cursor, seqNo);
    assert next[..|rows|][i] == rows[i];
  }

  lemma StillOpenAt(db: Db, cursor: int, log: seq<Event>, i: nat)
    requires Ok(db, cursor) && ValidLog(db, cursor, log) && i < |db.messages|
    requires OfTurn(db.messages[i], db.turn.id) && TimelineStart(db.messages[i]) < cursor
    requires db.messages[i].state == Streaming || db.messages[i].endEventSeq == Some(cursor)
    requires forall m :: m in After(db, log).messages ==> m.state != Streaming
    ensures i < |After(db, log).messages| && EndedIn(After(db, log).messages[i], db.turn.id)
    ensures InRange(After(db, log).messages[i], cursor)
  {
    assert db.messages[i] in db.messages && RowOk(db.messages[i], db.turn, cursor);
    if db.messages[i].state == Streaming {
      EndsLater(db, cursor, log, i);
    } else {
      ClosedStaysClosed(db, cursor, log, i);
    }
    assert After(db, log).messages[i] in After(db, log).messages;
  }

  lemma OverlapLater(db: Db, cursor: int, log: seq<Event>, i: nat, j: nat)
    requires Ok(db, cursor) && ValidLog(db, cursor, log) && i < j < |db.messages|
    requires OfTurn(db.messages[i], db.turn.id) && TimelineStart(db.messages[i]) < cursor
    requires OfTurn(db.messages[j], db.turn.id) && TimelineStart(db.messages[j]) < cursor
    requires db.messages[i].state == Streaming
    requires db.messages[j].state == Streaming || db.messages[j].endEventSeq == Some(cursor)
    requires forall m :: m in After(db, log).messages ==> m.state != Streaming
    ensures !ClosedDisjoint(After(db, log).messages, db.turn.id)
  {
    StillOpenAt(db, cursor, log, i);
    StillOpenAt(db, cursor, log, j);
    assert !Disjoint(After(db, log).messages[i], After(db, log).messages[j]);
  }

  lemma OpenTogether(db: Db, cursor: int, log: seq<Event>, k: nat) returns (i: nat)
    requires Ok(db, cursor) && ValidLog(db, cursor, log) && cursor >= 0 && NoAssistantYet(db)
    requires k < |log| && Starts(After(db, log[..k]), log[k]) && SomeStreaming(After(db, log[..k]).messages)
    ensures var rows := After(db, log[..k + 1]).messages; var j := |After(db, log[..k]).messages|;
      && i < j < |rows|
      && OfTurn(rows[i], db.turn.id) && TimelineStart(rows[i]) < log[k].seqNo && rows[i].state == Streaming
      && OfTurn(rows[j], db.turn.id) && TimelineStart(rows[j]) < log[k].seqNo
      && (rows[j].state == Streaming || rows[j].endEventSeq == Some(log[k].seqNo))
    ensures Cursor(db, cursor, log[..k + 1]) == log[k].seqNo
  {
    var before, reached := After(db, log[..k]), Cursor(db, cursor, log[..k]);
    ValidPrefix(db, cursor, log, k);
    RunKeepsOk(db, cursor, log[..k]);
    RangesCover(db, cursor, log[..k]);
    SameTurn(db, log[..k]);
    i :| 0 <= i < |before.messages| && before.messages[i].state == Streaming;
    StepIntervals(before, reached, log[k]);
    BothOpen(before.messages, Step(before, log[k]).messages, db.turn.id, reached, log[k].seqNo, i);
    StartsIsStored(before, log[k]);
    OneMore(db, cursor, log, k);
  }

  /** If a message starts while another streams, their intervals end up sharing that event. */
  lemma OverlapOfTwo(db: Db, cursor: int, log: seq<Event>, k: nat)
    requires Ok(db, cursor) && ValidLog(db, cursor, log) && cursor >= 0 && NoAssistantYet(db)
    requires k < |log| && Starts(After(db, log[..k]), log[k]) && SomeStreaming(After(db, log[..k]).messages)
    requires forall m :: m in After(db, log).messages ==> m.state != Streaming
    ensures !ClosedDisjoint(After(db, log).messages, db.turn.id)
  {
    var i := OpenTogether(db, cursor, log, k);
    ValidPrefix(db, cursor, log, k + 1);
    RunKeepsOk(db, cursor, log[..k + 1]);
    SameTurn(db, log[..k + 1]);
    RunSplits(db, cursor, log, k + 1);
    ValidSuffix(db, cursor, log, k + 1);
    OverlapLater(After(db, log[..k + 1]), log[k].seqNo, log[k + 1..], i, |After(db, log[..k]).messages|);
  }

  lemma StartsIsStored(db: Db, e: Event)
    requires Starts(db, e)
    ensures Project(db, e).Projected?
  {
  }

  /**
   Once every message is closed, the intervals of the turn's assistant messages
   are pairwise disjoint if and only if no message started while another streamed.
   */
  lemma DisjointIffOneAtATime(db: Db, cursor: int, log: seq<Event>)
    requires Ok(db, cursor) && ValidLog(db, cursor, log) && cursor >= 0 && NoAssistantYet(db)
    requires forall m :: m in After(db, log).messages ==> m.state != Streaming
    ensures ClosedDisjoint(After(db, log).messages, db.turn.id) <==> OneAtATime(db, log)
  {
    if OneAtATime(db, log) {
      OneAtATimeIsDisjoint(db, cursor, log);
    } else {
      var k :| 0 <= k < |log| && Starts(After(db, log[..k]), log[k]) && SomeStreaming(After(db, log[..k]).messages);
      OverlapOfTwo(db, cursor, log, k);
    }
  }

  // ---- The browser's side --------------------------------------------------

  /** The event belongs to the selected message's part of the timeline, or nothing is selected. */
  predicate EventInMessageRange(message: Option<Record>, s: int) {
    message.None? ||
    (var start, end := Get(message.value, KeyTimelineStartSeq), Get(message.value, KeyEndEventSeq);
     && s > (if start.Num? then start.n else 0)
     && (end.Num? ==> s <= end.n))
  }

  /** On any copy that agrees on the two bounds, the browser's test is the server's interval. */
  lemma SameRange(m: Message, copy: Record, s: int)
    requires Get(copy, KeyTimelineStartSeq) == Get(Snapshot(m), KeyTimelineStartSeq)
    requires Get(copy, KeyEndEventSeq) == Get(Snapshot(m), KeyEndEventSeq)
    ensures EventInMessageRange(Some(copy), s) <==> InRange(m, s)
  {
    assert Get(Snapshot(m), KeyTimelineStartSeq) == NumberOrNull(m.timelineStartSeq);
    assert Get(Snapshot(m), KeyEndEventSeq) == NumberOrNull(m.endEventSeq);
  }
}
