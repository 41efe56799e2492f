/**
 Message-history replication over a delivery that reorders, repeats and drops
 events: if the closing snapshot of each message arrives at least once, the
 browser ends with the server's messages, in history order.
 */
module UnreliableDelivery {
  import opened Prelude
  import opened Json
  import opened MessageHistory
  import opened HistoryTables
  import opened HistoryInvariants
  import opened HistoryClient
  import opened Replication
  import opened Settling

  /** The message records the browser takes from an event. */
  function Shown(w: HistoryEvent): seq<Record> {
    var snapshot := ReadSnapshot(w);
    var messages := Get(w.payload, KeyMessages);
    if Get(w.payload, KeyIgnored) == Bool(true) then []
    else if snapshot.Some? then [snapshot.value[KeyLastEventSeq := Num(w.seqNo)]]
    else if messages.Arr? then Restored(w, messages.items)
    else []
  }

  /** The event carries message `m` as it is at the end. */
  ghost predicate ShowsFinal(w: HistoryEvent, m: Message) {
    exists i :: 0 <= i < |Shown(w)| && Agree(Shown(w)[i], m)
  }

  // ---- What an event does to any list --------------------------------------

  ghost predicate Inert(w: HistoryEvent) {
    && Shown(w) == []
    && forall list :: Kept(list) ==> ApplyHistoryEvent(list, w) == list
  }

  function ClientRows(ms: seq<Message>, seqNo: int): seq<Record> {
    seq(|ms|, i requires 0 <= i < |ms| => ClientRow(ms[i], seqNo))
  }

  ghost predicate ShowsRows(w: HistoryEvent, ms: seq<Message>, rows: seq<Message>) {
    && Shown(w) == ClientRows(ms, w.seqNo)
    && (forall i :: 0 <= i < |ms| ==> ms[i] in rows)
    && forall list :: ApplyHistoryEvent(list, w) == Merge(list, ClientRows(ms, w.seqNo))
  }

  ghost predicate DeltaOn(w: HistoryEvent, m: Message, rows: seq<Message>) {
    && Shown(w) == [] && PlainDelta(w, m) && !Get(w.payload, KeyMessages).Arr?
    && m.state == Streaming && m in rows
  }

  lemma InertOther(turnId: string, e: Event)
    requires !IsTerminal(e.kind) && !IsAssistant(e) && !e.kind.UserAccepted? && Clean(e.kind, e.payload)
    ensures Inert(Wire(turnId, e, e.payload))
  {
    var w := Wire(turnId, e, e.payload);
    forall list | Kept(list) ensures ApplyHistoryEvent(list, w) == list {
      OtherStep(turnId, e, list);
    }
    if !General(e.kind) {
      SpecialSummary(e.kind, e.payload);
    } else if Get(e.payload, KeyIgnored) == Bool(true) {
      IgnoredSurvives(e.kind, e.payload);
    } else {
      PlainSummary(e.kind, e.payload);
      if Get(e.payload, KeyMessages).Arr? {
        PlainEmptyList(e.kind, e.payload);
        assert Restored(w, []) == [];
      }
    }
  }

  lemma ShowsSingle(turnId: string, e: Event, stored: Record, m: Message, itemId: string, rows: seq<Message>)
    requires General(e.kind) && IsItem(m, turnId, itemId) && m.id != "" && m in rows
    requires Get(stored, KeyMessage) == Obj(Snapshot(m)) && Get(stored, KeyItemId) == Str(itemId)
    requires Get(stored, KeyIgnored) != Bool(true)
    ensures ShowsRows(Wire(turnId, e, stored), [m], rows)
  {
    var w := Wire(turnId, e, stored);
    forall list ensures ApplyHistoryEvent(list, w) == Merge(list, ClientRows([m], w.seqNo)) {
      SingleSnapshot(e, stored, m, turnId, itemId, list);
      assert ClientRows([m], w.seqNo) == [ClientRow(m, e.seqNo)];
    }
    SingleSnapshot(e, stored, m, turnId, itemId, []);
    assert Shown(w) == ClientRows([m], w.seqNo);
  }

  lemma TerminalShows(db: Db, e: Event)
    requires IsTerminal(e.kind) && Clean(e.kind, e.payload) && db.turn.historyVersion == 2
    ensures var todo := UnfinishedRows(db.messages, db.turn.id);
      ShowsRows(Wire(db.turn.id, e, Project(db, e).payload), ClosedRows(todo, e.seqNo), Step(db, e).messages)
  {
    var w := Wire(db.turn.id, e, Project(db, e).payload);
    var todo := UnfinishedRows(db.messages, db.turn.id);
    var ms := ClosedRows(todo, e.seqNo);
    TerminalOutcome(db, e);
    assert ClientRows(ms, e.seqNo) == seq(|todo|, i requires 0 <= i < |todo| => ClientRow(Close(todo[i], e.seqNo), e.seqNo));
    UnfinishedExactly(db.messages, db.turn.id);
    forall i | 0 <= i < |ms| ensures ms[i] in Step(db, e).messages {
      assert todo[i] in todo;
      var k :| 0 <= k < |db.messages| && db.messages[k] == todo[i];
      assert Step(db, e).messages[k] == ms[i];
    }
  }

  lemma StoredRow(rows: seq<Message>, next: seq<Message>, turnId: string, itemId: string, stored: Record, m: Message)
    requires StoresSnapshot(rows, next, turnId, itemId, stored, m)
    ensures m in next
  {
    if HasId(rows, m.id) && next == Replace(rows, m) {
      var was :| was in rows && was.id == m.id;
      var i :| 0 <= i < |rows| && rows[i] == was;
      assert next[i] == m;
    }
  }

  lemma DeltaEffect(db: Db, e: Event, m: Message)
    requires Keyed(db.messages)
    requires e.kind.AssistantDelta? && IsAssistant(e) && ItemId(e.payload) != "" && Clean(e.kind, e.payload)
    requires FindItem(db.messages, db.turn.id, ItemId(e.payload)) == Some(m) && m.state == Streaming
    ensures var w := Wire(db.turn.id, e, Project(db, e).payload);
      Inert(w) || DeltaOn(w, Advance(m, e), Step(db, e).messages)
  {
    var w := Wire(db.turn.id, e, Project(db, e).payload);
    DeltaOutcome(db, e, m);
    FoundItem(db.messages, db.turn.id, ItemId(e.payload));
    if Get(w.payload, KeyMessages).Arr? {
      assert Restored(w, []) == [];
      forall list | Kept(list) ensures ApplyHistoryEvent(list, w) == list {
        EmptyRestored(w, list);
      }
    } else {
      var i :| 0 <= i < |db.messages| && db.messages[i] == m;
      assert Step(db, e).messages[i] == Advance(m, e);
    }
  }

  lemma EventEffect(db: Db, cursor: int, e: Event) returns (ms: seq<Message>)
    requires Ok(db, cursor) && Admissible(db, cursor, e) && Project(db, e).Projected? && Clean(e.kind, e.payload)
    ensures var w := Wire(db.turn.id, e, Project(db, e).payload);
      || Inert(w)
      || ShowsRows(w, ms, Step(db, e).messages)
      || (|ms| == 1 && DeltaOn(w, ms[0], Step(db, e).messages))
  {
    ms := [];
    var itemId := ItemId(e.payload);
    var existing := FindItem(db.messages, db.turn.id, itemId);
    if IsTerminal(e.kind) {
      TerminalShows(db, e);
      ms := ClosedRows(UnfinishedRows(db.messages, db.turn.id), e.seqNo);
    } else if e.kind.UserAccepted? {
      var m := UserOutcome(db, e);
      StoredRow(db.messages, Step(db, e).messages, db.turn.id, itemId, Project(db, e).payload, m);
      ShowsSingle(db.turn.id, e, Project(db, e).payload, m, itemId, Step(db, e).messages);
      ms := [m];
    } else if !IsAssistant(e) {
      InertOther(db.turn.id, e);
    } else if existing.Some? && existing.value.state != Streaming {
      IgnoredSurvives(e.kind, Project(db, e).payload);
    } else if existing.Some? && e.kind.AssistantDelta? {
      DeltaEffect(db, e, existing.value);
      ms := [Advance(existing.value, e)];
    } else {
      var m := AssistantOutcome(db, e);
      StoredRow(db.messages, Step(db, e).messages, db.turn.id, itemId, Project(db, e).payload, m);
      ShowsSingle(db.turn.id, e, Project(db, e).payload, m, itemId, Step(db, e).messages);
      ms := [m];
    }
  }

  // ---- Sorting a list with different ids and numbers -----------------------

  ghost predicate Loose(list: seq<Record>) {
    && (forall i :: 0 <= i < |list| ==> Numbered(list[i]))
    && (forall i, j :: 0 <= i < j < |list| ==> Differ(list[i], list[j]))
  }

  predicate Differ(a: Record, b: Record) {
    Get(a, KeyHistorySeq) != Get(b, KeyHistorySeq) && Get(a, KeyId) != Get(b, KeyId)
  }

  /** The inserted front still comes before the last entry. */
  lemma HeadPrecedes(list: seq<Record>, head: seq<Record>, m: Record)
    requires list != [] && Kept(list) && Numbered(m) && Differ(list[|list| - 1], m) && Before(m, list[|list| - 1])
    requires Kept(head) && forall r :: r in head ==> r in list[..|list| - 1] || r == m
    ensures Kept(head + [list[|list| - 1]])
  {
    var n := |list| - 1;
    var next := head + [list[n]];
    forall i | 0 <= i < |head| ensures Precedes(head[i], list[n]) {
      assert head[i] in head;
      if head[i] != m {
        var k :| 0 <= k < n && list[..n][k] == head[i];
        assert Precedes(list[k], list[n]);
      }
    }
    forall i, j | 0 <= i < j < |next| ensures Precedes(next[i], next[j]) {
      if j < |head| { assert Precedes(head[i], head[j]); }
    }
  }

  lemma {:induction false} InsertKept(list: seq<Record>, m: Record)
    requires Kept(list) && Numbered(m) && forall i :: 0 <= i < |list| ==> Differ(list[i], m)
    ensures Kept(Insert(list, m))
    ensures forall r :: r in Insert(list, m) <==> r in list || r == m
  {
    if list != [] {
      var n := |list| - 1;
      var front := list[..n];
      assert list == front + [list[n]];
      if Before(m, list[n]) {
        InsertKept(front, m);
        HeadPrecedes(list, Insert(front, m), m);
      } else {
        forall i | 0 <= i < |list| ensures Precedes(list[i], m) {
          assert Differ(list[i], m) && Differ(list[n], m);
          if i < n { assert Precedes(list[i], list[n]); }
        }
      }
    }
  }

  lemma {:induction false} SortLoose(list: seq<Record>)
    requires Loose(list)
    ensures Kept(Sort(list))
    ensures forall r :: r in Sort(list) <==> r in list
  {
    if list != [] {
      var n := |list| - 1;
      var front := list[..n];
      assert list == front + [list[n]];
      SortLoose(front);
      forall i | 0 <= i < |Sort(front)| ensures Differ(Sort(front)[i], list[n]) {
        assert Sort(front)[i] in Sort(front);
        var k :| 0 <= k < n && front[k] == Sort(front)[i];
        assert Differ(list[k], list[n]);
      }
      InsertKept(Sort(front), list[n]);
    }
  }

  // ---- The browser's list during the delivery ------------------------------

  /** A log and where it is read from: what every lemma below is about. */
  datatype Run = Run(db: Db, cursor: int, log: seq<Event>) {
    function End(): seq<Message> {
      After(db, log).messages
    }

    ghost predicate Good() {
      && Ok(db, cursor) && cursor >= 0 && ValidLog(db, cursor, log) && CleanLog(log)
      && Keyed(End())
      && forall m :: m in End() ==> m.state != Streaming
    }

    /** The messages of the end have different ids and numbers. */
    ghost predicate Distinct() {
      Keyed(End())
    }

    ghost predicate Since(i: nat, q: int) {
      FinalSince(db, cursor, log, i, q)
    }
  }

  /** Same message on every field the browser keeps, `phase` included. */
  predicate Mirrors(r: Record, m: Message) {
    Agree(r, m) && Get(r, KeyPhase) == StringOrNull(m.phase)
  }

  /** The entry is for message `i` of the end. */
  predicate Known(run: Run, r: Record, i: nat) {
    i < |run.End()| && Get(r, KeyId) == Str(run.End()[i].id) && Get(r, KeyHistorySeq) == Num(run.End()[i].historySeq)
  }

  /** The entry is for a message of the end, and right if stamped when the message was final. */
  ghost predicate EntryOk(run: Run, r: Record) {
    exists i: nat :: Known(run, r, i) && (run.Since(i, LastSeq(r)) ==> Mirrors(r, run.End()[i]))
  }

  ghost predicate DistinctIds(list: seq<Record>) {
    forall i, j :: 0 <= i < j < |list| ==> Get(list[i], KeyId) != Get(list[j], KeyId)
  }

  ghost predicate ListOk(run: Run, list: seq<Record>) {
    DistinctIds(list) && forall i :: 0 <= i < |list| ==> EntryOk(run, list[i])
  }

  /** Message `i` has an entry stamped `q` or later. */
  ghost predicate Stamped(run: Run, list: seq<Record>, i: nat, q: int) {
    exists k :: 0 <= k < |list| && Known(run, list[k], i) && LastSeq(list[k]) >= q
  }

  /** Nothing is stamped earlier in `out` than in `list`. */
  ghost predicate KeepsStamps(run: Run, list: seq<Record>, out: seq<Record>) {
    forall x: nat, q :: Stamped(run, list, x, q) ==> Stamped(run, out, x, q)
  }

  lemma KnownOnce(run: Run, a: Record, b: Record, i: nat, j: nat)
    requires run.Distinct() && Known(run, a, i) && Known(run, b, j)
    ensures Get(a, KeyId) == Get(b, KeyId) <==> i == j
    ensures i != j ==> Differ(a, b)
  {
    if i < j { assert Apart(run.End()[i], run.End()[j]); }
    if j < i { assert Apart(run.End()[j], run.End()[i]); }
  }

  lemma ListOkIsLoose(run: Run, list: seq<Record>)
    requires run.Distinct() && ListOk(run, list)
    ensures Loose(list)
  {
    forall i | 0 <= i < |list| ensures Numbered(list[i]) {
      assert EntryOk(run, list[i]);
    }
    forall i, j | 0 <= i < j < |list| ensures Differ(list[i], list[j]) {
      assert EntryOk(run, list[i]) && EntryOk(run, list[j]);
      var a: nat :| Known(run, list[i], a);
      var b: nat :| Known(run, list[j], b);
      KnownOnce(run, list[i], list[j], a, b);
    }
  }

  /** A snapshot of row `i` as it is after `j` events, ready to be merged. */
  lemma SnapshotEntry(run: Run, j: nat, i: nat)
    requires run.Good() && j <= |run.log| && i < |After(run.db, run.log[..j]).messages|
    ensures var r := ClientRow(After(run.db, run.log[..j]).messages[i], Cursor(run.db, run.cursor, run.log[..j]));
      Complete(r) && Known(run, r, i) && (run.Since(i, LastSeq(r)) ==> Mirrors(r, run.End()[i]))
  {
    var m, q := After(run.db, run.log[..j]).messages[i], Cursor(run.db, run.cursor, run.log[..j]);
    RowStays(run.db, run.cursor, run.log, j, i);
    ClientRowAgrees(m, q);
    if run.Since(i, q) { FinalIsSame(run, j, i); }
  }

  /** A row that looks final is closed, so it is the row of the end, `phase` and all. */
  lemma FinalIsSame(run: Run, j: nat, i: nat)
    requires run.Good() && j <= |run.log| && FinalAt(run.db, run.log, i, j)
    ensures After(run.db, run.log[..j]).messages[i] == run.End()[i]
  {
    var at, q, rest := After(run.db, run.log[..j]), Cursor(run.db, run.cursor, run.log[..j]), run.log[j..];
    assert run.End()[i] in run.End();
    ValidPrefix(run.db, run.cursor, run.log, j);
    RunKeepsOk(run.db, run.cursor, run.log[..j]);
    ValidSuffix(run.db, run.cursor, run.log, j);
    RunSplits(run.db, run.cursor, run.log, j);
    NoReturn(at, q, rest, i, |rest|);
    assert rest[..|rest|] == rest;
  }

  lemma SameAgrees(r: Record, m: Message, final: Message)
    requires Agree(r, m)
    ensures Agree(r, final) <==> SameReplica(m, final)
  {
  }

  lemma StampedAppend(run: Run, list: seq<Record>, r: Record, x: nat, q: int)
    requires Stamped(run, list, x, q)
    ensures Stamped(run, list + [r], x, q)
  {
    var k :| 0 <= k < |list| && Known(run, list[k], x) && LastSeq(list[k]) >= q;
    assert (list + [r])[k] == list[k];
  }

  lemma StampedSet(run: Run, list: seq<Record>, at: nat, r: Record, i: nat, x: nat, q: int)
    requires run.Distinct() && at < |list| && Known(run, list[at], i) && Known(run, r, i)
    requires LastSeq(r) >= LastSeq(list[at]) && Stamped(run, list, x, q)
    ensures Stamped(run, list[at := r], x, q)
  {
    var k :| 0 <= k < |list| && Known(run, list[k], x) && LastSeq(list[k]) >= q;
    var out := list[at := r];
    if k == at {
      KnownOnce(run, list[k], list[k], x, i);
      assert Known(run, out[at], x) && LastSeq(out[at]) >= q;
    } else {
      assert out[k] == list[k];
    }
  }

  lemma AppendOk(run: Run, list: seq<Record>, r: Record)
    requires ListOk(run, list) && EntryOk(run, r)
    requires forall j :: 0 <= j < |list| ==> Get(list[j], KeyId) != Get(r, KeyId)
    ensures ListOk(run, list + [r])
  {
  }

  lemma SetOk(run: Run, list: seq<Record>, at: nat, r: Record)
    requires ListOk(run, list) && at < |list| && EntryOk(run, r) && Get(r, KeyId) == Get(list[at], KeyId)
    ensures ListOk(run, list[at := r])
  {
  }

  lemma MergeOneOk(run: Run, list: seq<Record>, r: Record, i: nat)
    requires run.Distinct() && ListOk(run, list)
    requires Complete(r) && Known(run, r, i) && (run.Since(i, LastSeq(r)) ==> Mirrors(r, run.End()[i]))
    ensures ListOk(run, MergeOne(list, r))
    ensures Stamped(run, MergeOne(list, r), i, LastSeq(r))
    ensures KeepsStamps(run, list, MergeOne(list, r))
  {
    var at := IndexOf(list, Get(r, KeyId));
    var out := MergeOne(list, r);
    if at == |list| {
      AppendOk(run, list, r);
      assert Known(run, out[|list|], i);
      forall x: nat, q | Stamped(run, list, x, q) ensures Stamped(run, out, x, q) {
        StampedAppend(run, list, r, x, q);
      }
    } else {
      EntryIs(run, list[at], r, i);
      if LastSeq(list[at]) <= LastSeq(r) {
        MergedEntry(run, list[at], r, i);
        SetOk(run, list, at, list[at] + r);
        forall x: nat, q | Stamped(run, list, x, q) ensures Stamped(run, out, x, q) {
          StampedSet(run, list, at, list[at] + r, i, x, q);
        }
      }
      assert Known(run, out[at], i) && LastSeq(out[at]) >= LastSeq(r);
    }
  }

  lemma EntryIs(run: Run, entry: Record, r: Record, i: nat)
    requires run.Distinct() && EntryOk(run, entry) && Known(run, r, i) && Get(entry, KeyId) == Get(r, KeyId)
    ensures Known(run, entry, i)
  {
    var a: nat :| Known(run, entry, a);
    KnownOnce(run, entry, r, a, i);
  }

  lemma MergedEntry(run: Run, previous: Record, r: Record, i: nat)
    requires Complete(r) && Known(run, r, i) && (run.Since(i, LastSeq(r)) ==> Mirrors(r, run.End()[i]))
    ensures Known(run, previous + r, i) && LastSeq(previous + r) == LastSeq(r) && EntryOk(run, previous + r)
    ensures Get(previous + r, KeyId) == Get(r, KeyId)
  {
    if Agree(r, run.End()[i]) {
      SpreadAgrees(previous, r, run.End()[i]);
    }
  }

  // ---- One delivery --------------------------------------------------------

  /** Event `j` of the log as published. */
  ghost predicate PublishedAt(run: Run, w: HistoryEvent, j: nat) {
    && j < |run.log|
    && Project(After(run.db, run.log[..j]), run.log[j]).Projected?
    && w == Wire(run.db.turn.id, run.log[j], Project(After(run.db, run.log[..j]), run.log[j]).payload)
  }

  lemma {:induction false} PublishedFrom(run: Run, w: HistoryEvent) returns (j: nat)
    requires w in Published(run.db, run.log)
    ensures PublishedAt(run, w, j)
    decreases |run.log|
  {
    var n := |run.log| - 1;
    var front := run.(log := run.log[..n]);
    if w in Published(run.db, run.log[..n]) {
      j := PublishedFrom(front, w);
      assert front.log[..j] == run.log[..j];
    } else {
      j := n;
    }
  }

  /** Just after event `j`: the rows and the number reached. */
  lemma ReachedAt(run: Run, w: HistoryEvent, j: nat)
    requires run.Good() && PublishedAt(run, w, j)
    ensures Cursor(run.db, run.cursor, run.log[..j + 1]) == w.seqNo
    ensures After(run.db, run.log[..j + 1]) == Step(After(run.db, run.log[..j]), run.log[j])
  {
    OneMore(run.db, run.cursor, run.log, j);
  }

  lemma RowIndex(run: Run, j: nat, m: Message) returns (i: nat)
    requires run.Good() && j <= |run.log| && m in After(run.db, run.log[..j]).messages
    ensures i < |After(run.db, run.log[..j]).messages| && After(run.db, run.log[..j]).messages[i] == m
    ensures i < |run.End()| && Later(m, run.End()[i])
  {
    var rows := After(run.db, run.log[..j]).messages;
    var k :| 0 <= k < |rows| && rows[k] == m;
    i := k;
    RowStays(run.db, run.cursor, run.log, j, i);
  }

  /** Every listed message has an entry stamped `q`. */
  ghost predicate AllStamped(run: Run, list: seq<Record>, ms: seq<Message>, q: int) {
    forall t, i: nat :: 0 <= t < |ms| && i < |run.End()| && run.End()[i].id == ms[t].id ==> Stamped(run, list, i, q)
  }

  /** Snapshots of these messages may be merged at `q`. */
  ghost predicate Mergeable(run: Run, ms: seq<Message>, q: int) {
    forall t :: 0 <= t < |ms| ==> EntryOk(run, ClientRow(ms[t], q))
  }

  lemma SnapshotsMergeable(run: Run, ms: seq<Message>, j: nat)
    requires run.Good() && j <= |run.log|
    requires forall t :: 0 <= t < |ms| ==> ms[t] in After(run.db, run.log[..j]).messages
    ensures Mergeable(run, ms, Cursor(run.db, run.cursor, run.log[..j]))
  {
    forall t | 0 <= t < |ms| ensures EntryOk(run, ClientRow(ms[t], Cursor(run.db, run.cursor, run.log[..j]))) {
      var i := RowIndex(run, j, ms[t]);
      SnapshotEntry(run, j, i);
    }
  }

  lemma MergeNextOk(run: Run, list: seq<Record>, m: Message, q: int)
    requires run.Distinct() && ListOk(run, list) && EntryOk(run, ClientRow(m, q))
    ensures var out := MergeOne(list, ClientRow(m, q));
      && ListOk(run, out) && KeepsStamps(run, list, out)
      && (forall i: nat :: i < |run.End()| && run.End()[i].id == m.id ==> Stamped(run, out, i, q))
  {
    var r := ClientRow(m, q);
    ClientRowAgrees(m, q);
    var i: nat :| Known(run, r, i) && (run.Since(i, LastSeq(r)) ==> Mirrors(r, run.End()[i]));
    MergeOneOk(run, list, r, i);
    forall x: nat | x < |run.End()| && run.End()[x].id == m.id ensures x == i {
      SameFinal(run, x, i);
    }
  }

  lemma AllStampedNext(run: Run, before: seq<Record>, out: seq<Record>, ms: seq<Message>, q: int)
    requires ms != [] && AllStamped(run, before, ms[..|ms| - 1], q) && KeepsStamps(run, before, out)
    requires forall i: nat :: i < |run.End()| && run.End()[i].id == ms[|ms| - 1].id ==> Stamped(run, out, i, q)
    ensures AllStamped(run, out, ms, q)
  {
    forall t, x: nat | 0 <= t < |ms| && x < |run.End()| && run.End()[x].id == ms[t].id
      ensures Stamped(run, out, x, q)
    {
      if t < |ms| - 1 {
        assert ms[..|ms| - 1][t] == ms[t];
        assert Stamped(run, before, x, q);
      }
    }
  }

  lemma {:induction false} MergeEachOk(run: Run, list: seq<Record>, ms: seq<Message>, q: int)
    requires run.Distinct() && ListOk(run, list) && Mergeable(run, ms, q)
    ensures var out := MergeEach(list, ClientRows(ms, q));
      ListOk(run, out) && KeepsStamps(run, list, out) && AllStamped(run, out, ms, q)
  {
    if ms == [] {
      assert ClientRows(ms, q) == [];
    } else {
      var n := |ms| - 1;
      var front := ms[..n];
      MergeEachOk(run, list, front, q);
      var before := MergeEach(list, ClientRows(front, q));
      assert EntryOk(run, ClientRow(ms[n], q));
      MergeNextOk(run, before, ms[n], q);
      MergeEachNext(list, ms, q);
      AllStampedNext(run, before, MergeOne(before, ClientRow(ms[n], q)), ms, q);
    }
  }

  lemma MergeEachNext(list: seq<Record>, ms: seq<Message>, q: int)
    requires ms != []
    ensures var n := |ms| - 1;
      MergeEach(list, ClientRows(ms, q)) == MergeOne(MergeEach(list, ClientRows(ms[..n], q)), ClientRow(ms[n], q))
  {
    var n := |ms| - 1;
    assert ClientRows(ms, q)[..n] == ClientRows(ms[..n], q) && ClientRows(ms, q)[n] == ClientRow(ms[n], q);
  }

  lemma SameFinal(run: Run, i: nat, j: nat)
    requires run.Distinct() && i < |run.End()| && j < |run.End()| && run.End()[i].id == run.End()[j].id
    ensures i == j
  {
    KeyedUnique(run.End());
  }

  /** Sorting keeps entries, so it keeps what is known about them. */
  lemma SortOk(run: Run, list: seq<Record>)
    requires run.Distinct() && ListOk(run, list)
    ensures Kept(Sort(list)) && ListOk(run, Sort(list))
    ensures KeepsStamps(run, list, Sort(list))
  {
    ListOkIsLoose(run, list);
    SortLoose(list);
    var out := Sort(list);
    forall i | 0 <= i < |out| ensures EntryOk(run, out[i]) {
      assert out[i] in out;
      var k :| 0 <= k < |list| && list[k] == out[i];
      assert EntryOk(run, list[k]);
    }
    forall i, j | 0 <= i < j < |out| ensures Get(out[i], KeyId) != Get(out[j], KeyId) {
      assert Precedes(out[i], out[j]);
    }
    forall x: nat, q | Stamped(run, list, x, q) ensures Stamped(run, out, x, q) {
      var k :| 0 <= k < |list| && Known(run, list[k], x) && LastSeq(list[k]) >= q;
      assert list[k] in out;
      var i :| 0 <= i < |out| && out[i] == list[k];
      assert Known(run, out[i], x) && LastSeq(out[i]) >= q;
    }
  }

  /** Merging snapshots taken after `j` events. */
  lemma SnapshotsOk(run: Run, list: seq<Record>, ms: seq<Message>, j: nat)
    requires run.Good() && Kept(list) && ListOk(run, list) && j <= |run.log|
    requires forall t :: 0 <= t < |ms| ==> ms[t] in After(run.db, run.log[..j]).messages
    ensures var q := Cursor(run.db, run.cursor, run.log[..j]);
      var out := Merge(list, ClientRows(ms, q));
      && Kept(out) && ListOk(run, out)
      && KeepsStamps(run, list, out)
      && AllStamped(run, out, ms, q)
  {
    ToMapKept(list);
    var q := Cursor(run.db, run.cursor, run.log[..j]);
    SnapshotsMergeable(run, ms, j);
    MergeEachOk(run, list, ms, q);
    SortOk(run, MergeEach(list, ClientRows(ms, q)));
  }

  // ---- Deltas --------------------------------------------------------------

  /** A streaming row is not what it will be at the end. */
  lemma StreamingIsNotFinal(run: Run, j: nat, m: Message, i: nat)
    requires run.Good() && j <= |run.log| && m in After(run.db, run.log[..j]).messages && m.state == Streaming
    requires i < |run.End()| && run.End()[i].id == m.id
    ensures !run.Since(i, Cursor(run.db, run.cursor, run.log[..j]))
  {
    var at := RowIndex(run, j, m);
    SameFinal(run, i, at);
    assert run.End()[i] in run.End();
    assert !FinalAt(run.db, run.log, i, j);
  }

  lemma DeltaKeepsKeys(r: Record, w: HistoryEvent)
    ensures var out := ApplyDelta(r, w);
      && Get(out, KeyId) == Get(r, KeyId) && Get(out, KeyHistorySeq) == Get(r, KeyHistorySeq)
      && LastSeq(out) >= LastSeq(r)
      && (out != r ==> LastSeq(out) == w.seqNo && Get(r, KeyId) == Get(w.payload, KeyMessageId))
  {
  }

  lemma DeltaEntryOk(run: Run, r: Record, w: HistoryEvent, j: nat, m: Message)
    requires run.Good() && EntryOk(run, r) && j <= |run.log|
    requires m in After(run.db, run.log[..j]).messages && m.state == Streaming
    requires Get(w.payload, KeyMessageId) == Str(m.id) && Cursor(run.db, run.cursor, run.log[..j]) == w.seqNo
    ensures EntryOk(run, ApplyDelta(r, w))
  {
    DeltaKeepsKeys(r, w);
    var out := ApplyDelta(r, w);
    if out != r {
      var i: nat :| Known(run, r, i);
      StreamingIsNotFinal(run, j, m, i);
      assert Known(run, out, i) && !run.Since(i, LastSeq(out));
    }
  }

  lemma DeltaOk(run: Run, list: seq<Record>, w: HistoryEvent, j: nat, m: Message)
    requires run.Good() && Kept(list) && ListOk(run, list) && j <= |run.log|
    requires DeltaOn(w, m, After(run.db, run.log[..j]).messages) && Cursor(run.db, run.cursor, run.log[..j]) == w.seqNo
    ensures var out := ApplyHistoryEvent(list, w);
      && Kept(out) && ListOk(run, out)
      && KeepsStamps(run, list, out)
  {
    var out := ApplyHistoryEvent(list, w);
    forall i | 0 <= i < |list|
      ensures out[i] == ApplyDelta(list[i], w) && EntryOk(run, out[i]) && LastSeq(out[i]) >= LastSeq(list[i])
      ensures Get(out[i], KeyId) == Get(list[i], KeyId) && Get(out[i], KeyHistorySeq) == Get(list[i], KeyHistorySeq)
    {
      DeltaKeepsKeys(list[i], w);
      DeltaEntryOk(run, list[i], w, j, m);
    }
    forall i, k | 0 <= i < k < |out| ensures Precedes(out[i], out[k]) {
      assert Precedes(list[i], list[k]);
    }
    forall x: nat, q | Stamped(run, list, x, q) ensures Stamped(run, out, x, q) {
      var k :| 0 <= k < |list| && Known(run, list[k], x) && LastSeq(list[k]) >= q;
      assert Known(run, out[k], x) && LastSeq(out[k]) >= q;
    }
  }

  // ---- The delivery --------------------------------------------------------

  /** Message `i` has an entry stamped at or after it became final. */
  ghost predicate Settled(run: Run, list: seq<Record>, i: nat) {
    exists q :: Stamped(run, list, i, q) && run.Since(i, q)
  }

  lemma ShownIsFinal(run: Run, w: HistoryEvent, ms: seq<Message>, j: nat, i: nat) returns (t: nat)
    requires run.Good() && j <= |run.log| && i < |run.End()|
    requires ShowsRows(w, ms, After(run.db, run.log[..j]).messages)
    requires ShowsFinal(w, run.End()[i])
    ensures t < |ms| && ms[t].id == run.End()[i].id
    ensures run.Since(i, Cursor(run.db, run.cursor, run.log[..j]))
  {
    var k :| 0 <= k < |Shown(w)| && Agree(Shown(w)[k], run.End()[i]);
    t := k;
    ClientRowAgrees(ms[t], w.seqNo);
    SameAgrees(ClientRow(ms[t], w.seqNo), ms[t], run.End()[i]);
    var at := RowIndex(run, j, ms[t]);
    SameFinal(run, at, i);
    assert run.End()[i] in run.End();
    SettlesAt(run.db, run.cursor, run.log, j, i);
  }

  lemma DeliverOne(run: Run, list: seq<Record>, w: HistoryEvent)
    requires run.Good() && Kept(list) && ListOk(run, list) && w in Published(run.db, run.log)
    ensures var out := ApplyHistoryEvent(list, w);
      && Kept(out) && ListOk(run, out)
      && KeepsStamps(run, list, out)
      && (forall i: nat :: i < |run.End()| && ShowsFinal(w, run.End()[i]) ==> Settled(run, out, i))
  {
    var j := PublishedFrom(run, w);
    ReachedAt(run, w, j);
    var before := After(run.db, run.log[..j]);
    ValidPrefix(run.db, run.cursor, run.log, j);
    RunKeepsOk(run.db, run.cursor, run.log[..j]);
    SameTurn(run.db, run.log[..j]);
    var ms := EventEffect(before, Cursor(run.db, run.cursor, run.log[..j]), run.log[j]);
    if Inert(w) {
    } else if ShowsRows(w, ms, After(run.db, run.log[..j + 1]).messages) {
      SnapshotsOk(run, list, ms, j + 1);
      forall i: nat | i < |run.End()| && ShowsFinal(w, run.End()[i])
        ensures Settled(run, ApplyHistoryEvent(list, w), i)
      {
        var t := ShownIsFinal(run, w, ms, j + 1, i);
        assert Stamped(run, ApplyHistoryEvent(list, w), i, w.seqNo);
      }
    } else {
      DeltaOk(run, list, w, j + 1, ms[0]);
    }
  }

  lemma SettledKeeps(run: Run, list: seq<Record>, out: seq<Record>, i: nat)
    requires Settled(run, list, i) && KeepsStamps(run, list, out)
    ensures Settled(run, out, i)
  {
    var q :| Stamped(run, list, i, q) && run.Since(i, q);
    assert Stamped(run, out, i, q);
  }

  /** Any deliveries at all keep the list sound, and each closing snapshot settles its message. */
  lemma {:induction false} DeliverAll(run: Run, list: seq<Record>, deliveries: seq<HistoryEvent>)
    requires run.Good() && Kept(list) && ListOk(run, list)
    requires forall d :: d in deliveries ==> d in Published(run.db, run.log)
    ensures var out := ApplyAll(list, deliveries);
      && Kept(out) && ListOk(run, out)
      && (forall i: nat :: i < |run.End()| && (Settled(run, list, i) || exists d :: d in deliveries && ShowsFinal(d, run.End()[i])) ==>
            Settled(run, out, i))
  {
    if deliveries != [] {
      var n := |deliveries| - 1;
      var front := deliveries[..n];
      assert deliveries == front + [deliveries[n]];
      DeliverAll(run, list, front);
      var before := ApplyAll(list, front);
      var after := ApplyHistoryEvent(before, deliveries[n]);
      assert ApplyAll(list, deliveries) == after;
      DeliverOne(run, before, deliveries[n]);
      forall i: nat | i < |run.End()| && (Settled(run, list, i) || exists d :: d in deliveries && ShowsFinal(d, run.End()[i]))
        ensures Settled(run, after, i)
      {
        if !ShowsFinal(deliveries[n], run.End()[i]) {
          SettledKeeps(run, before, after, i);
        }
      }
    }
  }

  // ---- Where the browser starts and ends -----------------------------------

  lemma LoadedEntry(run: Run, k: nat, i: nat)
    requires run.Good() && k <= |run.log| && i < |After(run.db, run.log[..k]).messages|
    ensures var r := Load(After(run.db, run.log[..k]), Cursor(run.db, run.cursor, run.log[..k]))[i];
      Known(run, r, i) && EntryOk(run, r) && (FinalAt(run.db, run.log, i, k) ==> run.Since(i, LastSeq(r)))
  {
    var at, q := After(run.db, run.log[..k]), Cursor(run.db, run.cursor, run.log[..k]);
    LoadedRow(run, k, i);
    if at.messages[i].turnId == Some(run.db.turn.id) {
      OwnSince(run, k, i);
      if FinalAt(run.db, run.log, i, k) { FinalIsSame(run, k, i); }
    } else {
      ForeignStays(run, k, i);
      assert FinalAt(run.db, run.log, i, k);
      ForeignIsFinal(run.db, run.cursor, run.log, i, LastSeq(Load(at, q)[i]));
    }
  }

  lemma LoadedRow(run: Run, k: nat, i: nat)
    requires run.Good() && k <= |run.log| && i < |After(run.db, run.log[..k]).messages|
    ensures var at, q := After(run.db, run.log[..k]), Cursor(run.db, run.cursor, run.log[..k]);
      var m, r := at.messages[i], Load(at, q)[i];
      && Known(run, r, i) && Mirrors(r, m) && (m.turnId == Some(run.db.turn.id) ==> LastSeq(r) == q)
  {
    var at, q := After(run.db, run.log[..k]), Cursor(run.db, run.cursor, run.log[..k]);
    ValidPrefix(run.db, run.cursor, run.log, k);
    RunKeepsOk(run.db, run.cursor, run.log[..k]);
    SameTurn(run.db, run.log[..k]);
    assert at.messages[i] in at.messages && RowOk(at.messages[i], at.turn, q);
    LoadRowAgrees(at.turn, at.messages[i], q);
    RowStays(run.db, run.cursor, run.log, k, i);
  }

  /** A message of the turn is final from the cursor on exactly if it is final there. */
  lemma OwnSince(run: Run, k: nat, i: nat)
    requires run.Good() && k <= |run.log| && i < |run.End()|
    ensures FinalAt(run.db, run.log, i, k) <==> run.Since(i, Cursor(run.db, run.cursor, run.log[..k]))
  {
    assert run.End()[i] in run.End();
    if FinalAt(run.db, run.log, i, k) {
      SettlesAt(run.db, run.cursor, run.log, k, i);
    }
  }

  lemma ForeignStays(run: Run, k: nat, i: nat)
    requires run.Good() && k <= |run.log| && i < |After(run.db, run.log[..k]).messages|
    requires After(run.db, run.log[..k]).messages[i].turnId != Some(run.db.turn.id)
    ensures i < |run.End()| && run.End()[i] == After(run.db, run.log[..k]).messages[i]
  {
    var at, q := After(run.db, run.log[..k]), Cursor(run.db, run.cursor, run.log[..k]);
    ValidPrefix(run.db, run.cursor, run.log, k);
    RunKeepsOk(run.db, run.cursor, run.log[..k]);
    SameTurn(run.db, run.log[..k]);
    assert at.messages[i] in at.messages && RowOk(at.messages[i], at.turn, q);
    ValidSuffix(run.db, run.cursor, run.log, k);
    RunSplits(run.db, run.cursor, run.log, k);
    ClosedOrLater(at, q, run.log[k..], i);
  }

  lemma LoadedOk(run: Run, k: nat)
    requires run.Good() && k <= |run.log|
    ensures var list := Load(After(run.db, run.log[..k]), Cursor(run.db, run.cursor, run.log[..k]));
      && Kept(list) && ListOk(run, list)
      && forall i: nat :: i < |run.End()| && FinalAt(run.db, run.log, i, k) ==> Settled(run, list, i)
  {
    var at, q := After(run.db, run.log[..k]), Cursor(run.db, run.cursor, run.log[..k]);
    var list := Load(at, q);
    ValidPrefix(run.db, run.cursor, run.log, k);
    RunKeepsOk(run.db, run.cursor, run.log[..k]);
    LoadInSync(at, q);
    InSyncIsKept(list, at.messages, q);
    forall i, j | 0 <= i < j < |list| ensures Get(list[i], KeyId) != Get(list[j], KeyId) {
      assert Precedes(list[i], list[j]);
    }
    forall i | 0 <= i < |list| ensures EntryOk(run, list[i]) {
      LoadedEntry(run, k, i);
    }
    forall i: nat | i < |run.End()| && FinalAt(run.db, run.log, i, k) ensures Settled(run, list, i) {
      LoadedEntry(run, k, i);
      assert Stamped(run, list, i, LastSeq(list[i]));
    }
  }

  lemma SettledAgrees(run: Run, list: seq<Record>, i: nat) returns (k: nat)
    requires run.Distinct() && ListOk(run, list) && i < |run.End()| && Settled(run, list, i)
    ensures k < |list| && Known(run, list[k], i) && Mirrors(list[k], run.End()[i])
  {
    var q :| Stamped(run, list, i, q) && run.Since(i, q);
    var at :| 0 <= at < |list| && Known(run, list[at], i) && LastSeq(list[at]) >= q;
    k := at;
    var j: nat :| Known(run, list[k], j) && (run.Since(j, LastSeq(list[k])) ==> Mirrors(list[k], run.End()[j]));
    KnownOnce(run, list[k], list[k], i, j);
    assert run.Since(i, LastSeq(list[k])) by {
      SinceLater(run, i, q, LastSeq(list[k]));
    }
  }

  lemma SinceLater(run: Run, i: nat, q: int, later: int)
    requires run.Since(i, q) && q <= later
    ensures run.Since(i, later)
  {
  }

  lemma IdsDiffer(run: Run, i: nat, j: nat)
    requires run.Distinct() && i < j < |run.End()|
    ensures run.End()[i].id != run.End()[j].id && run.End()[i].historySeq < run.End()[j].historySeq
  {
    assert Apart(run.End()[i], run.End()[j]);
  }

  /** With the earlier places right, place `n` holds message `n`. */
  lemma NextPlace(run: Run, list: seq<Record>, n: nat, k: nat, j: nat)
    requires run.Distinct() && Kept(list) && n < |run.End()| && n < |list|
    requires forall i: nat :: i < n ==> Known(run, list[i], i)
    requires k < |list| && Known(run, list[k], n)
    requires Known(run, list[n], j)
    ensures j == n
  {
    forall t: nat | t < n ensures !Known(run, list[t], n) {
      IdsDiffer(run, t, n);
    }
    forall t: nat | t < n ensures !Known(run, list[n], t) {
      assert Precedes(list[t], list[n]);
    }
    forall t: nat | n < t < |list| ensures Get(list[n], KeyHistorySeq).n < Get(list[t], KeyHistorySeq).n {
      assert Precedes(list[n], list[t]);
    }
    if j > n {
      IdsDiffer(run, n, j);
    }
  }

  lemma WhichMessage(run: Run, list: seq<Record>, i: nat) returns (j: nat)
    requires ListOk(run, list) && i < |list|
    ensures Known(run, list[i], j)
  {
    assert EntryOk(run, list[i]);
    j :| Known(run, list[i], j);
  }

  /** Two lists in history order with the same messages agree place by place. */
  lemma {:induction false} PlaceByPlace(run: Run, list: seq<Record>, n: nat)
    requires run.Distinct() && Kept(list) && ListOk(run, list)
    requires forall i: nat :: i < |run.End()| ==> Settled(run, list, i)
    requires n <= |run.End()|
    ensures n <= |list| && forall i: nat :: i < n ==> Known(run, list[i], i)
  {
    if n > 0 {
      PlaceByPlace(run, list, n - 1);
      PlaceFilled(run, list, n - 1);
    }
  }

  lemma PlaceFilled(run: Run, list: seq<Record>, n: nat)
    requires run.Distinct() && Kept(list) && ListOk(run, list)
    requires n < |run.End()| && Settled(run, list, n) && n <= |list|
    requires forall i: nat :: i < n ==> Known(run, list[i], i)
    ensures n < |list| && Known(run, list[n], n)
  {
    var k := SettledAgrees(run, list, n);
    PlaceIsThere(run, list, n, k);
    var j := WhichMessage(run, list, n);
    NextPlace(run, list, n, k, j);
  }

  /** A message known somewhere, with the earlier places taken by others: there is a place for it. */
  lemma PlaceIsThere(run: Run, list: seq<Record>, n: nat, k: nat)
    requires run.Distinct() && n < |run.End()| && n <= |list| && k < |list| && Known(run, list[k], n)
    requires forall i: nat :: i < n ==> Known(run, list[i], i)
    ensures n <= k
  {
    forall t: nat | t < n ensures !Known(run, list[t], n) {
      IdsDiffer(run, t, n);
    }
  }

  lemma NoMorePlaces(run: Run, list: seq<Record>)
    requires run.Distinct() && Kept(list) && ListOk(run, list)
    requires |run.End()| <= |list| && forall i: nat :: i < |run.End()| ==> Known(run, list[i], i)
    ensures |list| == |run.End()|
  {
    var n := |run.End()|;
    if |list| > n {
      var j := WhichMessage(run, list, n);
      forall t: nat | t < n ensures !Known(run, list[n], t) {
        assert Precedes(list[t], list[n]);
      }
      assert false;
    }
  }

  lemma SettledList(run: Run, list: seq<Record>)
    requires run.Distinct() && Kept(list) && ListOk(run, list)
    requires forall i: nat :: i < |run.End()| ==> Settled(run, list, i)
    ensures |list| == |run.End()| && forall i :: 0 <= i < |list| ==> Mirrors(list[i], run.End()[i])
  {
    PlaceByPlace(run, list, |run.End()|);
    NoMorePlaces(run, list);
    forall i | 0 <= i < |list| ensures Mirrors(list[i], run.End()[i]) {
      var k := SettledAgrees(run, list, i);
      SamePlace(run, list, i, k);
    }
  }

  lemma SamePlace(run: Run, list: seq<Record>, i: nat, k: nat)
    requires Kept(list) && i < |list| && k < |list| && Known(run, list[i], i) && Known(run, list[k], i)
    ensures i == k
  {
    forall s, t | 0 <= s < t < |list| ensures Get(list[s], KeyId) != Get(list[t], KeyId) {
      assert Precedes(list[s], list[t]);
    }
  }

  /**
   Unreliable delivery. Let the browser load the history at any point `k` of a
   log after which every message is closed, and then receive published events
   in any order, any number of times, with any of them missing. If each message
   was already final when loaded or its closing snapshot arrives at least once,
   the browser's list is the server's, in history order, `phase` included.
   */
  lemma UnreliableDelivery(db: Db, cursor: int, log: seq<Event>, k: nat, deliveries: seq<HistoryEvent>)
    requires Ok(db, cursor) && cursor >= 0 && ValidLog(db, cursor, log) && CleanLog(log) && k <= |log|
    requires forall m :: m in After(db, log).messages ==> m.state != Streaming
    requires forall d :: d in deliveries ==> d in Published(db, log)
    requires forall i: nat :: i < |After(db, log).messages| ==>
      FinalAt(db, log, i, k) || exists d :: d in deliveries && ShowsFinal(d, After(db, log).messages[i])
    ensures var list := ApplyAll(Load(After(db, log[..k]), Cursor(db, cursor, log[..k])), deliveries);
      && |list| == |After(db, log).messages|
      && forall i :: 0 <= i < |list| ==>
        Agree(list[i], After(db, log).messages[i])
        && Get(list[i], KeyPhase) == StringOrNull(After(db, log).messages[i].phase)
  {
    var run := Run(db, cursor, log);
    RunKeepsOk(db, cursor, log);
    LoadedOk(run, k);
    var list := Load(After(db, log[..k]), Cursor(db, cursor, log[..k]));
    DeliverAll(run, list, deliveries);
    SettledList(run, ApplyAll(list, deliveries));
  }
}
