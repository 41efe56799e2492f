/** The loop of a script, while diffs arrive and other scripts run: what it leaves behind when it ends. */
module DiffLoop {
  import opened Json
  import opened DiffCompaction

  predicate Summarized(e: DiffEvent, full: map<int, Value>) {
    e.seqNo in full && e.payload == SummarizeDiffPayload(full[e.seqNo])
  }

  /** What the loop passed is summarized, about to be, or was passed over. */
  predicate Passed(t: Turn, s: Script, e: DiffEvent) {
    e.seqNo in s.skipped || e.seqNo in s.batch || Summarized(e, t.full)
  }

  ghost predicate LoopOk(t: Turn, s: Script) {
    && (s.done ==> s.batch == map[])
    && forall i :: 0 <= i < |t.events| && (s.done || t.events[i].seqNo <= s.cursor) ==> Passed(t, s, t.events[i])
  }

  // ---- Reading -------------------------------------------------------------

  /** Where the cursor stands among the events. */
  lemma {:induction false} CursorAt(events: seq<DiffEvent>, cursor: int) returns (n: nat)
    requires Sorted(events)
    ensures n <= |events| && (forall i :: 0 <= i < n ==> events[i].seqNo <= cursor)
    ensures forall i :: n <= i < |events| ==> events[i].seqNo > cursor
  {
    if events == [] || events[|events| - 1].seqNo <= cursor {
      n := |events|;
      assert forall i :: 0 <= i < |events| - 1 ==> events[i].seqNo < events[|events| - 1].seqNo;
    } else {
      n := CursorAt(events[..|events| - 1], cursor);
    }
  }

  /** Everything up to the new cursor was passed before or is in the batch read now. */
  lemma ReadCovers(events: seq<DiffEvent>, cursor: int, take: nat, i: nat)
    requires Sorted(events) && take > 0 && i < |events| && events[i].seqNo > cursor
    ensures var batch := Fetch(events, cursor, take);
      batch != [] && (events[i].seqNo <= batch[|batch| - 1].seqNo ==> events[i] in batch)
  {
    var n := CursorAt(events, cursor);
    AfterCursor(events, n, cursor);
    var batch := Fetch(events, cursor, take);
    assert batch == events[n..n + |batch|];
    if i < n + |batch| {
      assert batch[i - n] == events[i];
    } else {
      assert events[n + |batch| - 1].seqNo < events[i].seqNo;
    }
  }

  lemma ReadKeepsLoop(t: Turn, s: Script, take: nat)
    requires NothingLost(t) && LoopOk(t, s) && !s.done && s.batch == map[] && take > 0
    ensures LoopOk(t, ReadBatch(t, s, take))
  {
    var batch, next := Fetch(t.events, s.cursor, take), ReadBatch(t, s, take);
    SummariesAre(batch);
    forall i | 0 <= i < |t.events| && (next.done || t.events[i].seqNo <= next.cursor) ensures Passed(t, next, t.events[i]) {
      if t.events[i].seqNo > s.cursor {
        ReadCovers(t.events, s.cursor, take, i);
        var k :| 0 <= k < |batch| && batch[k] == t.events[i];
        assert Eligible(batch[k]) || batch[k].seqNo in Ineligible(batch);
      } else {
        assert Passed(t, s, t.events[i]);
      }
    }
  }

  // ---- The other steps -----------------------------------------------------

  lemma NewDiffKeepsLoop(t: Turn, n: int, payload: Value, outbox: OutboxStatus, s: Script)
    requires NothingLost(t) && LoopOk(t, s) && (t.events != [] ==> t.events[|t.events| - 1].seqNo < n)
    ensures LoopOk(NewDiff(t, n, payload, outbox), s)
  {
    var u := NewDiff(t, n, payload, outbox);
    forall i | 0 <= i < |u.events| && (s.done || u.events[i].seqNo <= s.cursor) ensures Passed(u, s, u.events[i]) {
      if i < |t.events| {
        assert u.events[i] == t.events[i] && t.events[i].seqNo < n && Passed(t, s, t.events[i]);
      } else {
        assert Summarized(u.events[i], u.full);
      }
    }
  }

  lemma SettleKeepsLoop(t: Turn, i: nat, outbox: OutboxStatus, s: Script)
    requires i < |t.events| && LoopOk(t, s)
    ensures LoopOk(t.(events := t.events[i := t.events[i].(outbox := outbox)]), s)
  {
    var u := t.(events := t.events[i := t.events[i].(outbox := outbox)]);
    forall k | 0 <= k < |u.events| && (s.done || u.events[k].seqNo <= s.cursor) ensures Passed(u, s, u.events[k]) {
      assert Passed(t, s, t.events[k]);
    }
  }

  /** A batch written, by this script or another: `after` is this one's state then. */
  lemma WriteKeepsLoop(t: Turn, batch: map<int, Value>, s: Script, after: Script)
    requires BatchOk(t, batch) && LoopOk(t, s)
    requires after == s || (after == s.(batch := map[]) && batch == s.batch)
    ensures LoopOk(WriteBatch(t, batch), after)
  {
    var u := WriteBatch(t, batch);
    forall i | 0 <= i < |u.events| && (after.done || u.events[i].seqNo <= after.cursor) ensures Passed(u, after, u.events[i]) {
      assert Passed(t, s, t.events[i]);
    }
  }

  ghost predicate LoopsOk(w: World) {
    forall id :: id in w.scripts ==> LoopOk(w.turn, w.scripts[id])
  }

  lemma StepKeepsLoop(w: World, step: Step, id: nat)
    requires NothingLost(w.turn) && (forall other :: other in w.scripts ==> BatchOk(w.turn, w.scripts[other].batch))
    requires Enabled(w, step) && LoopsOk(w) && id in Next(w, step).scripts
    ensures LoopOk(Next(w, step).turn, Next(w, step).scripts[id])
  {
    match step
    case DoNewDiff(n, payload, outbox) => NewDiffKeepsLoop(w.turn, n, payload, outbox, w.scripts[id]);
    case DoSettle(i, outbox) => SettleKeepsLoop(w.turn, i, outbox, w.scripts[id]);
    case DoStart(other) =>
    case DoSnapshot(other) => assert LoopOk(w.turn, w.scripts[id]);
    case DoRead(other, take) => if id == other { ReadKeepsLoop(w.turn, w.scripts[id], take); }
    case DoWrite(other) => WriteKeepsLoop(w.turn, w.scripts[other].batch, w.scripts[id], Next(w, step).scripts[id]);
  }

  lemma {:induction false} LoopsAlwaysOk(ws: seq<World>, steps: seq<Step>, n: nat)
    requires Run(ws, steps) && n < |ws|
    ensures LoopsOk(ws[n])
    decreases n
  {
    if n > 0 {
      LoopsAlwaysOk(ws, steps, n - 1);
      CompactionLosesNothing(ws, steps, n - 1);
      forall id | id in ws[n].scripts ensures LoopOk(ws[n].turn, ws[n].scripts[id]) {
        StepKeepsLoop(ws[n - 1], steps[n - 1], id);
      }
    }
  }

  // ---- When the loop ends --------------------------------------------------

  /** The diff of this number has no message waiting to be sent. */
  ghost predicate EligibleIn(t: Turn, q: int) {
    forall i :: 0 <= i < |t.events| && t.events[i].seqNo == q ==> Eligible(t.events[i])
  }

  /** A diff is passed over only where it could not be compacted at that moment. */
  lemma {:induction false} SkippedWas(ws: seq<World>, steps: seq<Step>, n: nat, id: nat, q: int) returns (j: nat)
    requires Run(ws, steps) && n < |ws| && id in ws[n].scripts && q in ws[n].scripts[id].skipped
    ensures j < n && id in ws[j].scripts && !EligibleIn(ws[j].turn, q)
    decreases n
  {
    j := n - 1;
    if id in ws[j].scripts && q in ws[j].scripts[id].skipped {
      j := SkippedWas(ws, steps, j, id, q);
    } else {
      ReadSkips(ws[j], steps[j], id, q);
    }
  }

  lemma ReadSkips(w: World, step: Step, id: nat, q: int)
    requires Enabled(w, step) && id in Next(w, step).scripts && q in Next(w, step).scripts[id].skipped
    requires !(id in w.scripts && q in w.scripts[id].skipped)
    ensures id in w.scripts && !EligibleIn(w.turn, q)
  {
    assert step.DoRead? && step.id == id;
    var s := w.scripts[id];
    var batch := Fetch(w.turn.events, s.cursor, step.take);
    var i :| 0 <= i < |batch| && !Eligible(batch[i]) && batch[i].seqNo == q;
    FetchIn(w.turn.events, s.cursor, step.take);
    assert batch[i] in w.turn.events;
  }

  /**
   Compaction is complete: when a script's loop has ended, in any interleaving
   with new diffs and other scripts, every stored diff is summarized that had no
   message waiting to be sent as long as the script ran.
   */
  lemma FinishedScript(ws: seq<World>, steps: seq<Step>, n: nat, id: nat, i: nat)
    requires Run(ws, steps) && n < |ws| && id in ws[n].scripts && ws[n].scripts[id].done
    requires i < |ws[n].turn.events|
    requires forall j :: 0 <= j < n && id in ws[j].scripts ==> EligibleIn(ws[j].turn, ws[n].turn.events[i].seqNo)
    ensures Summarized(ws[n].turn.events[i], ws[n].turn.full)
    ensures Tells(ws[n].turn.events[i].payload, ws[n].turn.full[ws[n].turn.events[i].seqNo])
  {
    LoopsAlwaysOk(ws, steps, n);
    var t, s := ws[n].turn, ws[n].scripts[id];
    assert LoopOk(t, s) && Passed(t, s, t.events[i]);
    if t.events[i].seqNo in s.skipped {
      var j := SkippedWas(ws, steps, n, id, t.events[i].seqNo);
    }
    SummaryTells(t.full[t.events[i].seqNo]);
  }

  // ---- Diffs that wait -----------------------------------------------------

  predicate Waits(t: Turn, i: nat) {
    i < |t.events| && t.events[i].outbox == Waiting
  }

  /** No script is about to write this diff. */
  ghost predicate Untouched(w: World, q: int) {
    forall id :: id in w.scripts ==> q !in w.scripts[id].batch
  }

  lemma WaitingStep(w: World, step: Step, i: nat)
    requires Enabled(w, step) && NothingLost(w.turn) && Waits(w.turn, i) && Untouched(w, w.turn.events[i].seqNo)
    ensures var v := Next(w, step);
      && i < |v.turn.events| && v.turn.events[i].seqNo == w.turn.events[i].seqNo
      && v.turn.events[i].payload == w.turn.events[i].payload && Untouched(v, w.turn.events[i].seqNo)
  {
    match step
    case DoRead(id, take) =>
      ReadsAreEligible(w.turn, w.scripts[id].cursor, take);
      NotRead(w.turn, i, ReadBatch(w.turn, w.scripts[id], take).batch);
    case DoWrite(id) => assert w.turn.events[i].seqNo !in w.scripts[id].batch;
    case _ =>
  }

  lemma NotRead(t: Turn, i: nat, batch: map<int, Value>)
    requires Sorted(t.events) && Waits(t, i) && ReadsEligible(t, batch)
    ensures t.events[i].seqNo !in batch
  {
    forall j | 0 <= j < |t.events| && t.events[j].seqNo == t.events[i].seqNo ensures j == i { }
  }

  /** While its message waits to be sent, a diff is stored as it was: no script shortens it. */
  lemma {:induction false} WaitingIsKept(ws: seq<World>, steps: seq<Step>, k: nat, n: nat, i: nat)
    requires Run(ws, steps) && k <= n < |ws| && forall m :: k <= m <= n ==> Waits(ws[m].turn, i)
    requires Waits(ws[k].turn, i) && Untouched(ws[k], ws[k].turn.events[i].seqNo)
    ensures i < |ws[n].turn.events| && ws[n].turn.events[i].seqNo == ws[k].turn.events[i].seqNo
    ensures ws[n].turn.events[i].payload == ws[k].turn.events[i].payload
    ensures Untouched(ws[n], ws[k].turn.events[i].seqNo)
    decreases n
  {
    if k < n {
      WaitingIsKept(ws, steps, k, n - 1, i);
      CompactionLosesNothing(ws, steps, n - 1);
      assert Waits(ws[n - 1].turn, i);
      WaitingStep(ws[n - 1], steps[n - 1], i);
    }
  }
}
