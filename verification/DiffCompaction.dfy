/**
 Diff compaction: the script that replaces the stored diffs of a turn by their
 summaries, keeping the newest one whole in the turn's snapshot.
 */
module DiffCompaction {
  import opened Prelude
  import opened Json

  // ---- The summary ---------------------------------------------------------

  predicate NonEmptyText(v: Value) {
    v.Str? && v.s != ""
  }

  function Summary(available: bool, stat: Value): Value {
    var plain: Record := map[KeyDiffAvailable := Bool(available), KeySnapshotAvailable := Bool(true)];
    Obj(if stat.Obj? || stat.Arr? then plain[KeyDiffStat := stat] else plain)
  }

  function SummarizeDiffPayload(payload: Value): Value {
    if !payload.Obj? then Summary(false, Undefined)
    else
      var r := payload.fields;
      Summary(Get(r, KeyDiffAvailable) == Bool(true)
                || NonEmptyText(Get(r, KeyUnifiedDiff)) || NonEmptyText(Get(r, KeyDiff)),
              Get(r, KeyDiffStat))
  }

  /** Summarizing again changes nothing, so the script may run any number of times. */
  lemma SummarizeTwice(payload: Value)
    ensures SummarizeDiffPayload(SummarizeDiffPayload(payload)) == SummarizeDiffPayload(payload)
  {
    var once := SummarizeDiffPayload(payload);
    assert Get(once.fields, KeyUnifiedDiff) == Undefined && Get(once.fields, KeyDiff) == Undefined;
  }

  /** Is there a diff in what arrived? */
  predicate HasDiff(full: Value) {
    full.Obj? && (Get(full.fields, KeyDiffAvailable) == Bool(true)
                  || (Get(full.fields, KeyUnifiedDiff).Str? && |Get(full.fields, KeyUnifiedDiff).s| > 0)
                  || (Get(full.fields, KeyDiff).Str? && |Get(full.fields, KeyDiff).s| > 0))
  }

  /** `stored` tells that there is a diff, that the snapshot has it, and its statistics, but not its text. */
  predicate Tells(stored: Value, full: Value) {
    && stored.Obj?
    && Get(stored.fields, KeyDiffAvailable) == Bool(HasDiff(full))
    && Get(stored.fields, KeySnapshotAvailable) == Bool(true)
    && stored.fields.Keys <= {KeyDiffAvailable, KeySnapshotAvailable, KeyDiffStat}
    && (if full.Obj? && (Get(full.fields, KeyDiffStat).Obj? || Get(full.fields, KeyDiffStat).Arr?)
        then Get(stored.fields, KeyDiffStat) == Get(full.fields, KeyDiffStat)
        else KeyDiffStat !in stored.fields)
  }

  /** What a summary tells about its diff, also a summary of a summary. */
  lemma SummaryTells(full: Value)
    ensures Tells(SummarizeDiffPayload(full), full)
    ensures Tells(SummarizeDiffPayload(SummarizeDiffPayload(full)), full)
  {
    SummarizeTwice(full);
  }

  // ---- Rows ----------------------------------------------------------------

  /** The status of an event's outbox row, if it has one. */
  datatype OutboxStatus = NoRow | Waiting | Sent | Failed

  datatype DiffEvent = DiffEvent(seqNo: int, payload: Value, outbox: OutboxStatus)

  datatype Snapshot = Snapshot(eventSeq: int, payload: Value)

  /** `full` maps each event to the payload it arrived with. */
  datatype Turn = Turn(events: seq<DiffEvent>, snapshot: Option<Snapshot>, full: map<int, Value>)

  predicate Eligible(e: DiffEvent) {
    e.outbox != Waiting
  }

  ghost predicate Sorted(events: seq<DiffEvent>) {
    && (forall i :: 0 <= i < |events| ==> events[i].seqNo > 0)
    && forall i, j :: 0 <= i < j < |events| ==> events[i].seqNo < events[j].seqNo
  }

  /** A stored diff is what arrived, or its summary. */
  predicate StoredOk(e: DiffEvent, full: map<int, Value>) {
    e.seqNo in full && (e.payload == full[e.seqNo] || e.payload == SummarizeDiffPayload(full[e.seqNo]))
  }

  /** The snapshot holds an event's full payload, and nothing newer was summarized. */
  ghost predicate NothingLost(t: Turn) {
    && Sorted(t.events)
    && (forall i :: 0 <= i < |t.events| ==> StoredOk(t.events[i], t.full))
    && (t.snapshot.Some? ==>
          t.snapshot.value.eventSeq in t.full && t.snapshot.value.payload == t.full[t.snapshot.value.eventSeq])
    && (forall i :: 0 <= i < |t.events| && (t.snapshot.None? || t.events[i].seqNo > t.snapshot.value.eventSeq) ==>
          t.events[i].payload == t.full[t.events[i].seqNo])
    && (t.snapshot.Some? ==> t.events != [] && t.snapshot.value.eventSeq <= t.events[|t.events| - 1].seqNo)
  }

  /** The snapshot is that of the newest diff. */
  ghost predicate Current(t: Turn) {
    t.events != [] && t.snapshot.Some? && t.snapshot.value.eventSeq == t.events[|t.events| - 1].seqNo
  }

  // ---- What a script reads -------------------------------------------------

  /** Events with a number greater than the cursor, in order. */
  function After(events: seq<DiffEvent>, cursor: int): seq<DiffEvent> {
    if events == [] then []
    else (if events[0].seqNo > cursor then [events[0]] else []) + After(events[1..], cursor)
  }

  function Fetch(events: seq<DiffEvent>, cursor: int, take: nat): seq<DiffEvent> {
    var all := After(events, cursor);
    if |all| <= take then all else all[..take]
  }

  lemma {:induction false} AllAfter(events: seq<DiffEvent>, cursor: int)
    requires forall i :: 0 <= i < |events| ==> events[i].seqNo > cursor
    ensures After(events, cursor) == events
  {
    if events != [] {
      AllAfter(events[1..], cursor);
      assert events == [events[0]] + events[1..];
    }
  }

  lemma {:induction false} AfterCursor(events: seq<DiffEvent>, n: nat, cursor: int)
    requires n <= |events|
    requires forall i :: 0 <= i < n ==> events[i].seqNo <= cursor
    requires forall i :: n <= i < |events| ==> events[i].seqNo > cursor
    ensures After(events, cursor) == events[n..]
  {
    if n == 0 {
      AllAfter(events, cursor);
    } else {
      AfterCursor(events[1..], n - 1, cursor);
      assert events[1..][n - 1..] == events[n..];
    }
  }

  /** The summaries of the eligible ones, by number. */
  function Summaries(events: seq<DiffEvent>): map<int, Value> {
    if events == [] then map[]
    else
      var rest, last := Summaries(events[..|events| - 1]), events[|events| - 1];
      if Eligible(last) then rest[last.seqNo := SummarizeDiffPayload(last.payload)] else rest
  }

  function Ineligible(events: seq<DiffEvent>): set<int> {
    set i | 0 <= i < |events| && !Eligible(events[i]) :: events[i].seqNo
  }

  lemma {:induction false} SummariesAre(events: seq<DiffEvent>)
    ensures forall n :: n in Summaries(events) ==> SummaryOf(events, n, Summaries(events)[n])
    ensures forall i :: 0 <= i < |events| && Eligible(events[i]) ==> events[i].seqNo in Summaries(events)
  {
    if events != [] {
      var front, last := events[..|events| - 1], events[|events| - 1];
      SummariesAre(front);
      assert events == front + [last];
      forall n | n in Summaries(events) ensures SummaryOf(events, n, Summaries(events)[n]) {
        if n in Summaries(front) && (n != last.seqNo || !Eligible(last)) {
          assert SummaryOf(front, n, Summaries(front)[n]);
          var i :| 0 <= i < |front| && SummaryAt(front, i, n, Summaries(front)[n]);
          assert SummaryAt(events, i, n, Summaries(events)[n]);
        } else {
          assert SummaryAt(events, |events| - 1, n, Summaries(events)[n]);
        }
      }
    }
  }

  predicate SummaryAt(events: seq<DiffEvent>, i: nat, n: int, v: Value) {
    i < |events| && events[i].seqNo == n && Eligible(events[i]) && v == SummarizeDiffPayload(events[i].payload)
  }

  /** The value is the summary of an eligible event of this number. */
  predicate SummaryOf(events: seq<DiffEvent>, n: int, v: Value) {
    exists i :: 0 <= i < |events| && SummaryAt(events, i, n, v)
  }

  lemma {:induction false} AfterIn(events: seq<DiffEvent>, cursor: int)
    ensures forall e :: e in After(events, cursor) <==> e in events && e.seqNo > cursor
  {
    if events != [] {
      AfterIn(events[1..], cursor);
      assert events == [events[0]] + events[1..];
    }
  }

  lemma FetchIn(events: seq<DiffEvent>, cursor: int, take: nat)
    ensures forall e :: e in Fetch(events, cursor, take) ==> e in events && e.seqNo > cursor
  {
    AfterIn(events, cursor);
  }

  // ---- Steps ---------------------------------------------------------------

  /** The service stores a new diff as its summary, and the diff itself in the snapshot, in one transaction. */
  function NewDiff(t: Turn, seqNo: int, payload: Value, outbox: OutboxStatus): Turn {
    Turn(t.events + [DiffEvent(seqNo, SummarizeDiffPayload(payload), outbox)],
         Some(Snapshot(seqNo, payload)), t.full[seqNo := payload])
  }

  /** The script's first transaction, with the newest event as it read it. */
  function WriteSnapshot(t: Turn, latest: Snapshot): Turn {
    if t.snapshot.None? || t.snapshot.value.eventSeq < latest.eventSeq then t.(snapshot := Some(latest)) else t
  }

  /** A batch's transaction: the events numbered in `batch` get the summaries the script computed from what it read. */
  function WriteBatch(t: Turn, batch: map<int, Value>): Turn {
    t.(events := seq(|t.events|, i requires 0 <= i < |t.events| =>
      if t.events[i].seqNo in batch then t.events[i].(payload := batch[t.events[i].seqNo]) else t.events[i]))
  }

  /**
   A script at work on the turn: the newest event it read, whether its snapshot
   is written, how far its loop came, the events it passed over, and the batch it
   has still to write.
   */
  datatype Script = Script(
    latest: Snapshot, written: bool, cursor: int, done: bool, skipped: set<int>, batch: map<int, Value>)

  /** The loop reads on: the next events behind the cursor, or none are left. */
  function ReadBatch(t: Turn, s: Script, take: nat): Script {
    var events := Fetch(t.events, s.cursor, take);
    if events == [] then s.(done := true)
    else s.(cursor := events[|events| - 1].seqNo, skipped := s.skipped + Ineligible(events), batch := Summaries(events))
  }

  /** A script read its newest event: as it arrived, or summarized and already covered by the snapshot. */
  ghost predicate LatestOk(t: Turn, latest: Snapshot) {
    && (exists i :: 0 <= i < |t.events| && t.events[i].seqNo == latest.eventSeq)
    && latest.eventSeq in t.full
    && (latest.eventSeq == t.events[|t.events| - 1].seqNo || Current(t))
    && (latest.payload == t.full[latest.eventSeq] || (t.snapshot.Some? && t.snapshot.value.eventSeq >= latest.eventSeq))
  }

  /** A batch holds summaries, and only of events the snapshot covers. */
  ghost predicate BatchOk(t: Turn, batch: map<int, Value>) {
    forall n :: n in batch ==>
      n in t.full && batch[n] == SummarizeDiffPayload(t.full[n]) && t.snapshot.Some? && n <= t.snapshot.value.eventSeq
  }

  ghost predicate ScriptOk(t: Turn, s: Script) {
    && LatestOk(t, s.latest)
    && (s.written ==> Current(t))
    && (s.batch != map[] ==> s.written)
    && BatchOk(t, s.batch)
  }

  datatype Step =
    | DoNewDiff(seqNo: int, payload: Value, outbox: OutboxStatus)
    | DoSettle(i: nat, outbox: OutboxStatus)
    | DoStart(id: nat)
    | DoSnapshot(id: nat)
    | DoRead(id: nat, take: nat)
    | DoWrite(id: nat)

  /** The turn, and the scripts running on it, each by its own id. */
  datatype World = World(turn: Turn, scripts: map<nat, Script>)

  /** The summaries of some eligible events as they are stored now. */
  predicate ReadsEligible(t: Turn, batch: map<int, Value>) {
    forall n :: n in batch ==> SummaryOf(t.events, n, batch[n])
  }

  predicate Enabled(w: World, step: Step) {
    match step
    case DoNewDiff(n, _, _) => n > 0 && (w.turn.events != [] ==> w.turn.events[|w.turn.events| - 1].seqNo < n)
    case DoSettle(i, _) => i < |w.turn.events|
    case DoStart(id) => id !in w.scripts && w.turn.events != []
    case DoSnapshot(id) => id in w.scripts
    case DoRead(id, take) =>
      id in w.scripts && w.scripts[id].written && !w.scripts[id].done && w.scripts[id].batch == map[] && take > 0
    case DoWrite(id) => id in w.scripts
  }

  function Next(w: World, step: Step): World
    requires Enabled(w, step)
  {
    match step
    case DoNewDiff(n, payload, outbox) => w.(turn := NewDiff(w.turn, n, payload, outbox))
    case DoSettle(i, outbox) => w.(turn := w.turn.(events := w.turn.events[i := w.turn.events[i].(outbox := outbox)]))
    case DoStart(id) =>
      var e := w.turn.events[|w.turn.events| - 1];
      w.(scripts := w.scripts[id := Script(Snapshot(e.seqNo, e.payload), false, 0, false, {}, map[])])
    case DoSnapshot(id) =>
      w.(turn := WriteSnapshot(w.turn, w.scripts[id].latest),
         scripts := w.scripts[id := w.scripts[id].(written := true)])
    case DoRead(id, take) => w.(scripts := w.scripts[id := ReadBatch(w.turn, w.scripts[id], take)])
    case DoWrite(id) =>
      w.(turn := WriteBatch(w.turn, w.scripts[id].batch),
         scripts := w.scripts[id := w.scripts[id].(batch := map[])])
  }

  ghost predicate WorldOk(w: World) {
    NothingLost(w.turn) && forall id :: id in w.scripts ==> ScriptOk(w.turn, w.scripts[id])
  }

  // ---- Every step keeps it -------------------------------------------------

  lemma NewDiffKeeps(t: Turn, n: int, payload: Value, outbox: OutboxStatus)
    requires NothingLost(t) && n > 0 && (t.events != [] ==> t.events[|t.events| - 1].seqNo < n)
    ensures NothingLost(NewDiff(t, n, payload, outbox)) && Current(NewDiff(t, n, payload, outbox))
  {
    var u := NewDiff(t, n, payload, outbox);
    forall i | 0 <= i < |t.events| ensures u.events[i] == t.events[i] && u.events[i].seqNo < n { }
  }

  lemma NewDiffKeepsScript(t: Turn, n: int, payload: Value, outbox: OutboxStatus, s: Script)
    requires NothingLost(t) && n > 0 && (t.events != [] ==> t.events[|t.events| - 1].seqNo < n)
    requires ScriptOk(t, s)
    ensures ScriptOk(NewDiff(t, n, payload, outbox), s)
  {
    var u := NewDiff(t, n, payload, outbox);
    var i :| 0 <= i < |t.events| && t.events[i].seqNo == s.latest.eventSeq;
    assert u.events[i] == t.events[i] && t.events[i].seqNo < n;
  }

  lemma SnapshotKeeps(t: Turn, latest: Snapshot)
    requires NothingLost(t) && LatestOk(t, latest)
    ensures NothingLost(WriteSnapshot(t, latest))
    ensures WriteSnapshot(t, latest).snapshot.Some? && WriteSnapshot(t, latest).snapshot.value.eventSeq >= latest.eventSeq
  {
    var i :| 0 <= i < |t.events| && t.events[i].seqNo == latest.eventSeq;
    assert i < |t.events| - 1 ==> t.events[i].seqNo < t.events[|t.events| - 1].seqNo;
  }

  lemma SnapshotMakesCurrent(t: Turn, latest: Snapshot)
    requires NothingLost(t) && LatestOk(t, latest)
    ensures Current(WriteSnapshot(t, latest))
  {
    var i :| 0 <= i < |t.events| && t.events[i].seqNo == latest.eventSeq;
  }

  lemma SnapshotKeepsScript(t: Turn, latest: Snapshot, s: Script)
    requires NothingLost(t) && LatestOk(t, latest) && ScriptOk(t, s)
    ensures ScriptOk(WriteSnapshot(t, latest), s)
  {
    SnapshotKeeps(t, latest);
    SnapshotMakesCurrent(t, latest);
    var u := WriteSnapshot(t, latest);
    var i :| 0 <= i < |t.events| && t.events[i].seqNo == s.latest.eventSeq;
    assert u.events[i].seqNo == s.latest.eventSeq;
  }

  lemma BatchKeeps(t: Turn, batch: map<int, Value>)
    requires NothingLost(t) && BatchOk(t, batch)
    ensures NothingLost(WriteBatch(t, batch))
  {
    var u := WriteBatch(t, batch);
    forall i | 0 <= i < |u.events| ensures StoredOk(u.events[i], u.full) && u.events[i].seqNo == t.events[i].seqNo {
      assert StoredOk(t.events[i], t.full);
    }
  }

  lemma BatchKeepsScript(t: Turn, batch: map<int, Value>, s: Script)
    requires NothingLost(t) && ScriptOk(t, s)
    ensures ScriptOk(WriteBatch(t, batch), s)
  {
    var u := WriteBatch(t, batch);
    assert |u.events| == |t.events| && u.snapshot == t.snapshot && u.full == t.full;
    forall i | 0 <= i < |t.events| ensures u.events[i].seqNo == t.events[i].seqNo { }
    var i :| 0 <= i < |t.events| && t.events[i].seqNo == s.latest.eventSeq;
    assert u.events[i].seqNo == s.latest.eventSeq;
  }

  lemma ReadIsBatch(t: Turn, batch: map<int, Value>)
    requires NothingLost(t) && Current(t) && ReadsEligible(t, batch)
    ensures BatchOk(t, batch)
  {
    forall n | n in batch
      ensures n in t.full && batch[n] == SummarizeDiffPayload(t.full[n]) && n <= t.snapshot.value.eventSeq
    {
      var i :| 0 <= i < |t.events| && SummaryAt(t.events, i, n, batch[n]);
      assert StoredOk(t.events[i], t.full);
      SummarizeTwice(t.full[n]);
      assert i < |t.events| - 1 ==> t.events[i].seqNo < t.events[|t.events| - 1].seqNo;
    }
  }

  lemma ReadsAreEligible(t: Turn, cursor: int, take: nat)
    ensures ReadsEligible(t, Summaries(Fetch(t.events, cursor, take)))
  {
    var events := Fetch(t.events, cursor, take);
    SummariesAre(events);
    FetchIn(t.events, cursor, take);
    forall n | n in Summaries(events) ensures SummaryOf(t.events, n, Summaries(events)[n]) {
      var i :| 0 <= i < |events| && SummaryAt(events, i, n, Summaries(events)[n]);
      assert events[i] in t.events;
      var k :| 0 <= k < |t.events| && t.events[k] == events[i];
      assert SummaryAt(t.events, k, n, Summaries(events)[n]);
    }
  }

  lemma ReadKeepsScript(t: Turn, s: Script, take: nat)
    requires NothingLost(t) && ScriptOk(t, s) && s.written
    ensures ScriptOk(t, ReadBatch(t, s, take))
  {
    ReadsAreEligible(t, s.cursor, take);
    ReadIsBatch(t, Summaries(Fetch(t.events, s.cursor, take)));
  }

  lemma StartIsOk(t: Turn)
    requires NothingLost(t) && t.events != []
    ensures var e := t.events[|t.events| - 1]; LatestOk(t, Snapshot(e.seqNo, e.payload))
  {
    var e := t.events[|t.events| - 1];
    assert StoredOk(e, t.full);
  }

  lemma SettleKeeps(t: Turn, i: nat, outbox: OutboxStatus)
    requires NothingLost(t) && i < |t.events|
    ensures NothingLost(t.(events := t.events[i := t.events[i].(outbox := outbox)]))
  {
    var u := t.(events := t.events[i := t.events[i].(outbox := outbox)]);
    forall k | 0 <= k < |u.events|
      ensures u.events[k].seqNo == t.events[k].seqNo && u.events[k].payload == t.events[k].payload && StoredOk(u.events[k], u.full)
    {
      assert StoredOk(t.events[k], t.full);
    }
  }

  lemma SettleKeepsScript(t: Turn, i: nat, outbox: OutboxStatus, s: Script)
    requires i < |t.events| && ScriptOk(t, s)
    ensures ScriptOk(t.(events := t.events[i := t.events[i].(outbox := outbox)]), s)
  {
    var u := t.(events := t.events[i := t.events[i].(outbox := outbox)]);
    forall k | 0 <= k < |t.events| ensures u.events[k].seqNo == t.events[k].seqNo { }
    var k :| 0 <= k < |t.events| && t.events[k].seqNo == s.latest.eventSeq;
    assert u.events[k].seqNo == s.latest.eventSeq;
  }

  lemma StepKeepsTurn(w: World, step: Step)
    requires WorldOk(w) && Enabled(w, step)
    ensures NothingLost(Next(w, step).turn)
  {
    match step
    case DoNewDiff(n, payload, outbox) => NewDiffKeeps(w.turn, n, payload, outbox);
    case DoSettle(i, outbox) => SettleKeeps(w.turn, i, outbox);
    case DoStart(id) =>
    case DoSnapshot(id) => SnapshotKeeps(w.turn, w.scripts[id].latest);
    case DoRead(id, take) =>
    case DoWrite(id) => BatchKeeps(w.turn, w.scripts[id].batch);
  }

  lemma StepKeepsScript(w: World, step: Step, id: nat)
    requires WorldOk(w) && Enabled(w, step) && id in Next(w, step).scripts
    ensures ScriptOk(Next(w, step).turn, Next(w, step).scripts[id])
  {
    match step
    case DoNewDiff(n, payload, outbox) => NewDiffKeepsScript(w.turn, n, payload, outbox, w.scripts[id]);
    case DoSettle(i, outbox) => SettleKeepsScript(w.turn, i, outbox, w.scripts[id]);
    case DoStart(other) => StartIsOk(w.turn);
    case DoSnapshot(other) =>
      SnapshotKeepsScript(w.turn, w.scripts[other].latest, w.scripts[id]);
      SnapshotMakesCurrent(w.turn, w.scripts[other].latest);
    case DoRead(other, take) => if id == other { ReadKeepsScript(w.turn, w.scripts[id], take); }
    case DoWrite(other) => BatchKeepsScript(w.turn, w.scripts[other].batch, w.scripts[id]);
  }

  predicate Stored(e: DiffEvent, full: map<int, Value>) {
    e.seqNo in full && (e.payload == full[e.seqNo] || Tells(e.payload, full[e.seqNo]))
  }

  /** Diffs as an older version stored them: whole, and without a snapshot. */
  ghost predicate Uncompacted(w: World) {
    && w.scripts == map[] && w.turn.snapshot == None && Sorted(w.turn.events)
    && forall i :: 0 <= i < |w.turn.events| ==>
      w.turn.events[i].seqNo in w.turn.full && w.turn.events[i].payload == w.turn.full[w.turn.events[i].seqNo]
  }

  ghost predicate Run(ws: seq<World>, steps: seq<Step>) {
    && |ws| == |steps| + 1 && Uncompacted(ws[0])
    && forall i :: 0 <= i < |steps| ==> Enabled(ws[i], steps[i]) && ws[i + 1] == Next(ws[i], steps[i])
  }

  /**
   Compaction loses nothing current: starting from uncompacted diffs, in every
   interleaving of any number of scripts with new diffs, each stored diff is what
   arrived or tells about it what a summary has to tell, only diffs the snapshot
   covers are summarized, and the snapshot holds exactly what arrived. Once a script has written its snapshot,
   it is that of the newest diff, for good.
   */
  lemma {:induction false} CompactionLosesNothing(ws: seq<World>, steps: seq<Step>, n: nat)
    requires Run(ws, steps) && n < |ws|
    ensures WorldOk(ws[n])
    ensures forall i :: 0 <= i < |ws[n].turn.events| ==> Stored(ws[n].turn.events[i], ws[n].turn.full)
    ensures forall id :: id in ws[n].scripts && ws[n].scripts[id].written ==>
      Current(ws[n].turn) && ws[n].turn.snapshot.value.payload == ws[n].turn.full[ws[n].turn.snapshot.value.eventSeq]
    decreases n
  {
    if n > 0 {
      CompactionLosesNothing(ws, steps, n - 1);
      StepKeepsTurn(ws[n - 1], steps[n - 1]);
      forall id | id in ws[n].scripts ensures ScriptOk(ws[n].turn, ws[n].scripts[id]) {
        StepKeepsScript(ws[n - 1], steps[n - 1], id);
      }
    }
    forall i | 0 <= i < |ws[n].turn.events| ensures Stored(ws[n].turn.events[i], ws[n].turn.full) {
      assert StoredOk(ws[n].turn.events[i], ws[n].turn.full);
      SummaryTells(ws[n].turn.full[ws[n].turn.events[i].seqNo]);
    }
  }
}
