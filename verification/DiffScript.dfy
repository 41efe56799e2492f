/** One applied run of the compaction script over one turn, batch by batch. */
module DiffScript {
  import opened Prelude
  import opened Json
  import opened DiffCompaction

  function Compacted(e: DiffEvent): DiffEvent {
    if Eligible(e) then e.(payload := SummarizeDiffPayload(e.payload)) else e
  }

  function CompactedAll(events: seq<DiffEvent>): seq<DiffEvent> {
    seq(|events|, i requires 0 <= i < |events| => Compacted(events[i]))
  }

  function CountEligible(events: seq<DiffEvent>): nat {
    if events == [] then 0 else CountEligible(events[..|events| - 1]) + if Eligible(events[|events| - 1]) then 1 else 0
  }

  lemma {:induction false} CountConcat(a: seq<DiffEvent>, b: seq<DiffEvent>)
    ensures CountEligible(a + b) == CountEligible(a) + CountEligible(b)
    decreases |b|
  {
    if b == [] {
      assert a + b == a;
    } else {
      assert (a + b)[..|a + b| - 1] == a + b[..|b| - 1];
      CountConcat(a, b[..|b| - 1]);
    }
  }

  /** The first `n` are compacted, the others as they were. */
  function PartDone(events: seq<DiffEvent>, n: nat): seq<DiffEvent>
    requires n <= |events|
  {
    CompactedAll(events[..n]) + events[n..]
  }

  function NumberAt(events: seq<DiffEvent>, n: nat): int
    requires n <= |events|
  {
    if n == 0 then 0 else events[n - 1].seqNo
  }

  /** What a batch fetches while the first `n` are done: the next ones, as they were. */
  lemma FetchNext(events: seq<DiffEvent>, n: nat, take: nat)
    requires Sorted(events) && n <= |events|
    ensures Fetch(PartDone(events, n), NumberAt(events, n), take) == events[n..BatchEnd(events, n, take)]
  {
    var now := PartDone(events, n);
    forall i | 0 <= i < |now| ensures now[i].seqNo == events[i].seqNo { }
    AfterCursor(now, n, NumberAt(events, n));
    assert now[n..] == events[n..];
  }

  /** Writing the summaries of a batch. */
  lemma BatchDone(events: seq<DiffEvent>, n: nat, m: nat)
    requires n <= m <= |events|
    ensures PartDone(events, n)[..n] + CompactedAll(events[n..m]) + PartDone(events, n)[m..] == PartDone(events, m)
  {
  }

  ghost predicate SameNumbers(a: seq<DiffEvent>, b: seq<DiffEvent>) {
    |a| == |b| && forall i :: 0 <= i < |a| ==> a[i].seqNo == b[i].seqNo
  }

  lemma PartNumbers(events: seq<DiffEvent>, n: nat)
    requires n <= |events| && Sorted(events)
    ensures SameNumbers(PartDone(events, n), events) && Sorted(PartDone(events, n))
  {
    var now := PartDone(events, n);
    forall i | 0 <= i < |now| ensures now[i].seqNo == events[i].seqNo { }
  }

  /** `UPDATE ... SET payload WHERE` the key is this number. */
  function UpdateRow(events: seq<DiffEvent>, seqNo: int, payload: Value): seq<DiffEvent> {
    seq(|events|, i requires 0 <= i < |events| => if events[i].seqNo == seqNo then events[i].(payload := payload) else events[i])
  }

  lemma UpdateOne(events: seq<DiffEvent>, k: nat, payload: Value)
    requires k < |events| && forall i, j :: 0 <= i < j < |events| ==> events[i].seqNo < events[j].seqNo
    ensures UpdateRow(events, events[k].seqNo, payload) == events[k := events[k].(payload := payload)]
  {
    forall i | 0 <= i < |events| && i != k ensures events[i].seqNo != events[k].seqNo {
      if i < k { assert events[i].seqNo < events[k].seqNo; } else { assert events[k].seqNo < events[i].seqNo; }
    }
  }

  /** The table while the first `i` rows of a batch at `n` are updated. */
  function BatchPart(before: seq<DiffEvent>, n: nat, batch: seq<DiffEvent>, i: nat): seq<DiffEvent>
    requires i <= |batch| && n + |batch| <= |before|
  {
    before[..n] + CompactedAll(batch[..i]) + before[n + i..]
  }

  /** Updating one row of the batch, if it is eligible, is one more done. */
  lemma BatchRow(before: seq<DiffEvent>, now: seq<DiffEvent>, n: nat, batch: seq<DiffEvent>, i: nat)
    requires Sorted(before) && n + |batch| <= |before| && before[n..n + |batch|] == batch && i < |batch|
    requires SameNumbers(now, before) && now == BatchPart(before, n, batch, i)
    ensures var next := if Eligible(batch[i]) then UpdateRow(now, batch[i].seqNo, SummarizeDiffPayload(batch[i].payload)) else now;
      SameNumbers(next, before) && next == BatchPart(before, n, batch, i + 1)
  {
    assert before[n + i] == batch[i] && now[n + i] == batch[i];
    UpdateOne(now, n + i, SummarizeDiffPayload(batch[i].payload));
    var next := now[n + i := Compacted(batch[i])];
    PartGrows(before, n, batch, i);
    assert now[n + i := batch[i]] == now;
  }

  lemma PartGrows(before: seq<DiffEvent>, n: nat, batch: seq<DiffEvent>, i: nat)
    requires n + |batch| <= |before| && i < |batch|
    ensures BatchPart(before, n, batch, i)[n + i := Compacted(batch[i])] == BatchPart(before, n, batch, i + 1)
  {
    var a, b := BatchPart(before, n, batch, i)[n + i := Compacted(batch[i])], BatchPart(before, n, batch, i + 1);
    assert |a| == |b|;
    forall k | 0 <= k < |a| ensures a[k] == b[k] { }
  }

  /** The rows of a turn, and the script's totals for it. */
  class DiffTable {
    var events: seq<DiffEvent>
    var snapshot: Option<Snapshot>

    constructor (events: seq<DiffEvent>, snapshot: Option<Snapshot>)
      ensures this.events == events && this.snapshot == snapshot
    {
      this.events, this.snapshot := events, snapshot;
    }

    method SaveSnapshot(latest: DiffEvent)
      modifies this`snapshot
      ensures snapshot ==
        WriteSnapshot(Turn(events, old(snapshot), map[]), Snapshot(latest.seqNo, latest.payload)).snapshot
    {
      if snapshot.None? || snapshot.value.eventSeq < latest.seqNo {
        snapshot := Some(Snapshot(latest.seqNo, latest.payload));
      }
    }

    /** One batch's transaction: an update for every eligible row of the batch, by its key. */
    method UpdateBatch(ghost n: nat, batch: seq<DiffEvent>)
      requires Sorted(events) && n + |batch| <= |events| && events[n..n + |batch|] == batch
      modifies this`events
      ensures events == old(events)[..n] + CompactedAll(batch) + old(events)[n + |batch|..]
    {
      for i := 0 to |batch|
        invariant SameNumbers(events, old(events))
        invariant events == BatchPart(old(events), n, batch, i)
      {
        BatchRow(old(events), events, n, batch, i);
        if Eligible(batch[i]) {
          events := UpdateRow(events, batch[i].seqNo, SummarizeDiffPayload(batch[i].payload));
        }
      }
      assert batch[..|batch|] == batch;
    }

    /** Fetch a batch behind the cursor and, unless it is a dry run, compact it. */
    method CompactBatch(ghost before: seq<DiffEvent>, ghost n: nat, cursor: int, batchSize: nat, apply: bool)
      returns (batch: seq<DiffEvent>)
      requires Sorted(before) && n <= |before| && cursor == NumberAt(before, n)
      requires events == Progress(before, n, apply)
      modifies this`events
      ensures batch == before[n..BatchEnd(before, n, batchSize)]
      ensures batch != [] ==> batch[|batch| - 1].seqNo == NumberAt(before, BatchEnd(before, n, batchSize))
      ensures events == Progress(before, BatchEnd(before, n, batchSize), apply)
    {
      FetchNext(before, n, batchSize);
      FetchPlain(before, n, batchSize);
      batch := Fetch(events, cursor, batchSize);
      if apply {
        PartNumbers(before, n);
        assert events[n..n + |batch|] == batch;
        UpdateBatch(n, batch);
        BatchDone(before, n, BatchEnd(before, n, batchSize));
      }
    }

    /** The batch loop. It ends for every batch size, and visits every diff exactly once. */
    method CompactBatches(batchSize: nat, apply: bool) returns (compacted: nat, skipped: nat, ghost visited: seq<DiffEvent>)
      requires batchSize >= 1 && Sorted(events)
      modifies this`events
      ensures visited == old(events) && events == Progress(old(events), |old(events)|, apply)
      ensures compacted == CountEligible(old(events)) && compacted + skipped == |old(events)|
    {
      compacted, skipped, visited := 0, 0, [];
      ghost var before := events;
      ProgressStart(before, apply);
      var cursor := 0;
      ghost var n := 0;
      while true
        invariant n <= |before| && cursor == NumberAt(before, n) && visited == before[..n]
        invariant events == Progress(before, n, apply)
        invariant compacted == CountEligible(before[..n]) && compacted + skipped == n
        decreases |before| - n
      {
        var batch := CompactBatch(before, n, cursor, batchSize, apply);
        ghost var m := BatchEnd(before, n, batchSize);
        if |batch| == 0 {
          assert m == n && n == |before| && before[..n] == before;
          return;
        }
        cursor := batch[|batch| - 1].seqNo;
        CountBatch(before, n, m);
        var eligible := CountEligible(batch);
        compacted, skipped := compacted + eligible, skipped + (|batch| - eligible);
        visited := visited + batch;
        n := m;
      }
    }

    /**
     The script on this turn: the snapshot first, then the batches. The eligible
     diffs are summarized and counted, the others are left alone and counted as
     skipped; a dry run changes nothing.
     */
    method CompactTurn(batchSize: nat, apply: bool) returns (compacted: nat, skipped: nat)
      requires batchSize >= 1 && Sorted(events)
      modifies this
      ensures compacted == CountEligible(old(events)) && compacted + skipped == |old(events)|
      ensures events == Progress(old(events), |old(events)|, apply)
      ensures apply ==> forall i :: 0 <= i < |events| && Eligible(old(events)[i]) ==> Tells(events[i].payload, old(events)[i].payload)
      ensures !apply ==> snapshot == old(snapshot)
      ensures apply && old(events) != [] ==> snapshot.Some? && snapshot.value.eventSeq >= old(events)[|old(events)| - 1].seqNo
    {
      if |events| == 0 {
        assert CompactedAll(events) == [];
        return 0, 0;
      }
      if apply { SaveSnapshot(events[|events| - 1]); }
      ghost var visited;
      compacted, skipped, visited := CompactBatches(batchSize, apply);
      forall i | 0 <= i < |events| && apply && Eligible(old(events)[i]) ensures Tells(events[i].payload, old(events)[i].payload) {
        SummaryTells(old(events)[i].payload);
      }
    }
  }

  lemma ProgressStart(before: seq<DiffEvent>, apply: bool)
    ensures Progress(before, 0, apply) == before
  {
    assert CompactedAll(before[..0]) == [];
  }

  function Progress(before: seq<DiffEvent>, n: nat, apply: bool): seq<DiffEvent>
    requires n <= |before|
  {
    if apply then PartDone(before, n) else before
  }

  function BatchEnd(before: seq<DiffEvent>, n: nat, batchSize: nat): nat
    requires n <= |before|
  {
    if |before| - n <= batchSize then |before| else n + batchSize
  }

  lemma CountBatch(before: seq<DiffEvent>, n: nat, m: nat)
    requires n <= m <= |before|
    ensures CountEligible(before[..m]) == CountEligible(before[..n]) + CountEligible(before[n..m])
    ensures CountEligible(before[n..m]) <= m - n && before[..m] == before[..n] + before[n..m]
  {
    assert before[..m] == before[..n] + before[n..m];
    CountConcat(before[..n], before[n..m]);
    CountBound(before[n..m]);
  }

  lemma {:induction false} CountBound(events: seq<DiffEvent>)
    ensures CountEligible(events) <= |events|
  {
    if events != [] { CountBound(events[..|events| - 1]); }
  }

  /** The same in a dry run, where nothing is compacted on the way. */
  lemma FetchPlain(events: seq<DiffEvent>, n: nat, take: nat)
    requires Sorted(events) && n <= |events|
    ensures Fetch(events, NumberAt(events, n), take) == events[n..BatchEnd(events, n, take)]
  {
    AfterCursor(events, n, NumberAt(events, n));
  }
}
