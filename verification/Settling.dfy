/**
 When a row has reached its last value: a closed row that shows the replicated
 fields it will have at the end of the log shows them at every point from there.
 */
module Settling {
  import opened Prelude
  import opened MessageHistory
  import opened HistoryInvariants

  /** Equal on every replicated field. */
  predicate SameReplica(m: Message, final: Message) {
    m.(sessionId := final.sessionId, tokenCount := final.tokenCount, phase := final.phase) == final
  }

  /** Row `i` as it is once the first `j` events are stored. */
  ghost predicate FinalAt(db: Db, log: seq<Event>, i: nat, j: nat)
    requires j <= |log|
  {
    && i < |After(db, log[..j]).messages|
    && i < |After(db, log).messages|
    && SameReplica(After(db, log[..j]).messages[i], After(db, log).messages[i])
  }

  /** From event number `q` on, row `i` is what it is at the end. */
  ghost predicate FinalSince(db: Db, cursor: int, log: seq<Event>, i: nat, q: int) {
    forall j :: 0 <= j <= |log| && Cursor(db, cursor, log[..j]) >= q ==> FinalAt(db, log, i, j)
  }

  /** A closed row either stays as it is or gets an end beyond everything stored so far. */
  lemma {:induction false} ClosedOrLater(db: Db, cursor: int, log: seq<Event>, i: nat)
    requires Ok(db, cursor) && ValidLog(db, cursor, log) && i < |db.messages| && db.messages[i].state != Streaming
    ensures i < |After(db, log).messages| && Cursor(db, cursor, log) >= cursor
    ensures var m, later := db.messages[i], After(db, log).messages[i];
      later == m || (m.turnId == Some(db.turn.id) && later.endEventSeq.Some? && later.endEventSeq.value > cursor)
    ensures After(db, log).messages[i].state != Streaming
    ensures db.messages[i].turnId == After(db, log).messages[i].turnId
  {
    if log != [] {
      var n := |log| - 1;
      ValidPrefix(db, cursor, log, n);
      ClosedOrLater(db, cursor, log[..n], i);
      RunKeepsOk(db, cursor, log[..n]);
      SameTurn(db, log[..n]);
      var before := After(db, log[..n]);
      StepKeepsOk(before, Cursor(db, cursor, log[..n]), log[n]);
      assert Evolves(before.messages[i], After(db, log).messages[i], db.turn.id, log[n].seqNo);
    }
  }

  lemma BeforeIsBelow(db: Db, cursor: int, i: nat)
    requires Ok(db, cursor) && i < |db.messages|
    ensures db.messages[i].turnId == Some(db.turn.id) && db.messages[i].endEventSeq.Some? ==>
      db.messages[i].endEventSeq.value <= cursor
  {
    assert db.messages[i] in db.messages && RowOk(db.messages[i], db.turn, cursor);
  }

  /** A closed row that already looks final does not change again. */
  lemma NoReturn(db: Db, cursor: int, log: seq<Event>, i: nat, k: nat)
    requires Ok(db, cursor) && ValidLog(db, cursor, log) && i < |db.messages| && k <= |log|
    requires db.messages[i].state != Streaming
    requires i < |After(db, log).messages| && SameReplica(db.messages[i], After(db, log).messages[i])
    ensures i < |After(db, log[..k]).messages| && After(db, log[..k]).messages[i] == db.messages[i]
  {
    ValidPrefix(db, cursor, log, k);
    ClosedOrLater(db, cursor, log[..k], i);
    BeforeIsBelow(db, cursor, i);
    RunKeepsOk(db, cursor, log[..k]);
    var at := After(db, log[..k]);
    ValidSuffix(db, cursor, log, k);
    RunSplits(db, cursor, log, k);
    SameTurn(db, log[..k]);
    ClosedOrLater(at, Cursor(db, cursor, log[..k]), log[k..], i);
  }

  /** The cursor never goes back, and stands still only while nothing is stored. */
  lemma {:induction false} CursorGrows(db: Db, cursor: int, log: seq<Event>)
    requires ValidLog(db, cursor, log)
    ensures Cursor(db, cursor, log) >= cursor
    ensures Cursor(db, cursor, log) == cursor ==> After(db, log) == db
  {
    if log != [] {
      var n := |log| - 1;
      ValidPrefix(db, cursor, log, n);
      CursorGrows(db, cursor, log[..n]);
      assert Admissible(After(db, log[..n]), Cursor(db, cursor, log[..n]), log[n]);
    }
  }

  lemma CursorSplit(db: Db, cursor: int, log: seq<Event>, i: nat, j: nat)
    requires ValidLog(db, cursor, log) && i <= j <= |log|
    ensures Cursor(db, cursor, log[..i]) <= Cursor(db, cursor, log[..j])
    ensures Cursor(db, cursor, log[..i]) == Cursor(db, cursor, log[..j]) ==> After(db, log[..i]) == After(db, log[..j])
  {
    ValidPrefix(db, cursor, log, j);
    ValidSuffix(db, cursor, log[..j], i);
    RunSplits(db, cursor, log[..j], i);
    assert log[..j][..i] == log[..i];
    CursorGrows(After(db, log[..i]), Cursor(db, cursor, log[..i]), log[..j][i..]);
  }

  /** Once a row looks final and closed, it is final from there on. */
  lemma SettlesAt(db: Db, cursor: int, log: seq<Event>, k: nat, i: nat)
    requires Ok(db, cursor) && ValidLog(db, cursor, log) && k <= |log| && FinalAt(db, log, i, k)
    requires After(db, log).messages[i].state != Streaming
    ensures FinalSince(db, cursor, log, i, Cursor(db, cursor, log[..k]))
  {
    var q := Cursor(db, cursor, log[..k]);
    forall j | 0 <= j <= |log| && Cursor(db, cursor, log[..j]) >= q ensures FinalAt(db, log, i, j) {
      if j < k {
        CursorSplit(db, cursor, log, j, k);
      } else {
        FinalLater(db, cursor, log, k, i, j);
      }
    }
  }

  lemma FinalLater(db: Db, cursor: int, log: seq<Event>, k: nat, i: nat, j: nat)
    requires Ok(db, cursor) && ValidLog(db, cursor, log) && k <= j <= |log| && FinalAt(db, log, i, k)
    requires After(db, log).messages[i].state != Streaming
    ensures FinalAt(db, log, i, j)
  {
    ValidPrefix(db, cursor, log, k);
    RunKeepsOk(db, cursor, log[..k]);
    ValidSuffix(db, cursor, log, k);
    RunSplits(db, cursor, log, k);
    NoReturn(After(db, log[..k]), Cursor(db, cursor, log[..k]), log[k..], i, j - k);
    AfterBetween(db, cursor, log, k, j);
  }

  lemma AfterBetween(db: Db, cursor: int, log: seq<Event>, k: nat, j: nat)
    requires k <= j <= |log|
    ensures After(db, log[..j]) == After(After(db, log[..k]), log[k..][..j - k])
  {
    RunSplits(db, cursor, log[..j], k);
    assert log[..j][..k] == log[..k] && log[..j][k..] == log[k..][..j - k];
  }

  /** A message of another turn is final from the start. */
  lemma {:induction false} ForeignRow(db: Db, cursor: int, log: seq<Event>, i: nat)
    requires Ok(db, cursor) && ValidLog(db, cursor, log)
    requires i < |After(db, log).messages| && After(db, log).messages[i].turnId != Some(db.turn.id)
    ensures i < |db.messages| && db.messages[i] == After(db, log).messages[i]
  {
    if log != [] {
      var n := |log| - 1;
      ValidPrefix(db, cursor, log, n);
      RunKeepsOk(db, cursor, log[..n]);
      SameTurn(db, log[..n]);
      var before := After(db, log[..n]);
      StepKeepsOk(before, Cursor(db, cursor, log[..n]), log[n]);
      if i < |before.messages| {
        assert before.messages[i] in before.messages && RowOk(before.messages[i], before.turn, Cursor(db, cursor, log[..n]));
        assert Evolves(before.messages[i], After(db, log).messages[i], db.turn.id, log[n].seqNo);
      }
      ForeignRow(db, cursor, log[..n], i);
    }
  }

  lemma ForeignIsFinal(db: Db, cursor: int, log: seq<Event>, i: nat, q: int)
    requires Ok(db, cursor) && ValidLog(db, cursor, log)
    requires i < |After(db, log).messages| && After(db, log).messages[i].turnId != Some(db.turn.id)
    ensures FinalSince(db, cursor, log, i, q)
  {
    ForeignRow(db, cursor, log, i);
    assert db.messages[i] in db.messages && RowOk(db.messages[i], db.turn, cursor);
    forall j | 0 <= j <= |log| ensures FinalAt(db, log, i, j) {
      NoReturn(db, cursor, log, i, j);
    }
  }

  /** Rows keep place, id and number from any point to the end. */
  lemma RowStays(db: Db, cursor: int, log: seq<Event>, k: nat, i: nat)
    requires Ok(db, cursor) && ValidLog(db, cursor, log) && k <= |log| && i < |After(db, log[..k]).messages|
    ensures i < |After(db, log).messages|
    ensures Later(After(db, log[..k]).messages[i], After(db, log).messages[i])
  {
    ValidPrefix(db, cursor, log, k);
    RunKeepsOk(db, cursor, log[..k]);
    ValidSuffix(db, cursor, log, k);
    RunSplits(db, cursor, log, k);
    ClosedStaysClosed(After(db, log[..k]), Cursor(db, cursor, log[..k]), log[k..], i);
  }
}
