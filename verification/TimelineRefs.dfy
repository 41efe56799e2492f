/** The panel as the page keeps it: references that its callbacks change in place. */
module TimelineRefs {
  import opened Prelude
  import opened Timeline
  import opened TimelineGuard
  import opened TimelinePaging
  import opened TimelinePanel

  // ---- Sorting -------------------------------------------------------------

  function Insert(events: seq<Envelope>, e: Envelope): seq<Envelope> {
    if events == [] || events[|events| - 1].seqNo <= e.seqNo then events + [e]
    else Insert(events[..|events| - 1], e) + [events[|events| - 1]]
  }

  /** `[...events].sort((a, b) => a.seq - b.seq)`, which is stable. */
  function SortBySeq(events: seq<Envelope>): seq<Envelope> {
    if events == [] then [] else Insert(SortBySeq(events[..|events| - 1]), events[|events| - 1])
  }

  /** Pages come sorted, so sorting them again changes nothing. */
  lemma {:induction false} SortedStays(events: seq<Envelope>)
    requires Sorted(events)
    ensures SortBySeq(events) == events
  {
    if events != [] {
      var front, last := events[..|events| - 1], events[|events| - 1];
      assert Sorted(front) by { assert forall i :: 0 <= i < |front| ==> front[i] == events[i]; }
      SortedStays(front);
      assert front != [] ==> front[|front| - 1].seqNo < last.seqNo;
      assert Insert(front, last) == front + [last] == events;
    }
  }

  method BuildTurnEventSnapshot(events: seq<Envelope>) returns (timeline: seq<TimelineEvent>, latestSeq: int)
    ensures timeline == Fold([], SortBySeq(events)) && latestSeq == LatestOf(SortBySeq(events))
  {
    var sorted := SortBySeq(events);
    timeline, latestSeq := [], 0;
    for i := 0 to |sorted|
      invariant timeline == Fold([], sorted[..i]) && latestSeq == LatestOf(sorted[..i])
    {
      assert sorted[..i + 1][..i] == sorted[..i];
      latestSeq := Max(latestSeq, sorted[i].seqNo);
      timeline := MergeTimelineEvent(timeline, sorted[i]);
    }
    assert sorted[..|sorted|] == sorted;
  }

  class TimelineRefs {
    var timelineEvents: seq<TimelineEvent>
    var pending: seq<Envelope>
    var lastSeq: int
    var loadBuffer: Option<seq<Envelope>>

    constructor ()
      ensures Contents() == Panel([], [], 0, None)
    {
      timelineEvents, pending, lastSeq, loadBuffer := [], [], 0, None;
    }

    function Contents(): Panel
      reads this
    {
      Panel(timelineEvents, pending, lastSeq, loadBuffer)
    }

    method FlushPendingTimelineEvents()
      modifies this`timelineEvents, this`pending
      ensures Contents() == Flush(old(Contents()))
    {
      if |pending| == 0 { return; }
      var batch := pending;
      pending := [];
      for i := 0 to |batch|
        invariant pending == [] && timelineEvents == Fold(old(timelineEvents), batch[..i])
      {
        assert batch[..i + 1][..i] == batch[..i];
        timelineEvents := MergeTimelineEvent(timelineEvents, batch[i]);
      }
      assert batch[..|batch|] == batch;
    }

    method QueueTimelineEvent(e: Envelope)
      modifies this
      ensures Contents() == Queue(old(Contents()), e)
    {
      if loadBuffer.Some? {
        loadBuffer := Some(loadBuffer.value + [e]);
        return;
      }
      if e.seqNo <= lastSeq { return; }
      lastSeq := e.seqNo;
      pending := pending + [e];
      if |pending| >= TIMELINE_BATCH_MAX_EVENTS { FlushPendingTimelineEvents(); }
    }

    method ReplaceTimelineEvents(events: seq<TimelineEvent>)
      modifies this
      ensures Contents() == Replace(old(Contents()), events)
    {
      pending := [];
      var max := 0;
      for i := 0 to |events|
        invariant max == MaxEnd(events[..i]) && pending == []
        invariant timelineEvents == old(timelineEvents) && loadBuffer == old(loadBuffer)
      {
        assert events[..i + 1][..i] == events[..i];
        max := Max(max, events[i].seqEnd);
      }
      assert events[..|events|] == events;
      lastSeq := max;
      timelineEvents := events;
    }

    method StartLoad()
      modifies this`loadBuffer
      ensures Contents() == BeginLoad(old(Contents()))
    {
      loadBuffer := Some([]);
    }

    /** The rest of a load, once the pages are there; the buffer goes away and the panel shows the result. */
    method FinishLoad(fetched: seq<Envelope>)
      requires loadBuffer.Some? && Sorted(fetched)
      modifies this
      ensures Contents() == EndLoad(old(Contents()), fetched)
    {
      SortedStays(fetched);
      var timeline, latestSeq := BuildTurnEventSnapshot(fetched);
      timeline := MergeNewer(timeline, loadBuffer.value, latestSeq);
      loadBuffer := None;
      ReplaceTimelineEvents(timeline);
    }

    /** The stream delivers some events one after another. */
    method ReceiveEvents(f: Feed, events: seq<Envelope>)
      modifies this
      ensures Contents() == ReceiveAll(old(Contents()), f, events)
    {
      for i := 0 to |events|
        invariant Contents() == ReceiveAll(old(Contents()), f, events[..i])
      {
        assert events[..i + 1][..i] == events[..i];
        if InRange(events[i], f.since, f.until) { QueueTimelineEvent(events[i]); }
      }
      assert events[..|events|] == events;
    }

    /**
     A whole load, begun at time `started`: request `i` is answered at time
     `answered(i)`, the answer arrives at `arrived(i)`, and the stream goes on
     meanwhile. For any page size the panel then shows one fold of its range, up
     to whatever the last page or the stream had.
     */
    method LoadTimelineSnapshot(f: Feed, started: nat, answered: nat -> nat, arrived: nat -> nat, pageSize: nat)
      returns (last: nat)
      requires f.Valid() && pageSize > 0 && Requests(started, answered, arrived)
      modifies this
      ensures Contents() == Perform(old(Contents()), f, Load(started, answered(last), arrived(last)))
      ensures Shows(Contents(), f, Max(f.stored(answered(last)), f.streamed(arrived(last))))
    {
      StartLoad();
      var fetched;
      fetched, last := FetchRange(f, answered, pageSize);
      LoadIs(old(Contents()), f, started, answered(last), arrived(last));
      ReceiveEvents(f, Meanwhile(f, started, arrived(last)));
      FinishLoad(fetched);
    }
  }

  method FetchRange(f: Feed, answered: nat -> nat, pageSize: nat) returns (events: seq<Envelope>, last: nat)
    requires f.Valid() && pageSize > 0 && forall i: nat, j: nat :: i <= j ==> answered(i) <= answered(j)
    ensures events == Fetched(f, answered(last))
  {
    var stored := f.stored;
    events, last := FetchTurnEvents(f.log, i => stored(answered(i)), f.since, f.until, pageSize);
  }

  /** What a load comes to: the buffered events and the fetched ones, put together. */
  lemma LoadIs(p: Panel, f: Feed, started: nat, answered: nat, arrived: nat)
    requires f.Valid() && started <= answered <= arrived
    ensures Sorted(Fetched(f, answered)) && ReceiveAll(BeginLoad(p), f, Meanwhile(f, started, arrived)).buffer.Some?
    ensures Shows(Perform(p, f, Load(started, answered, arrived)), f, Max(f.stored(answered), f.streamed(arrived)))
  {
    LoadStep(p, f, started, answered, arrived);
    ReceiveIsQueue(BeginLoad(p), f, Meanwhile(f, started, arrived));
    BufferAll(p, Select(Meanwhile(f, started, arrived), f.since, f.until));
    SortedPrefix(f.log, f.stored(answered));
    SelectSorted(f.log[..f.stored(answered)], f.since, f.until);
  }

  /** One request after another, each answered before its answer arrives. */
  ghost predicate Requests(started: nat, answered: nat -> nat, arrived: nat -> nat) {
    && (forall i: nat :: started <= answered(i) <= arrived(i))
    && (forall i: nat, j: nat :: i <= j ==> answered(i) <= answered(j))
  }

  lemma NewerNext(events: seq<Envelope>, i: nat, latest: int)
    requires i < |events|
    ensures Newer(events[i..], latest)
      == (if events[i].seqNo > latest then [events[i]] else []) + Newer(events[i + 1..], latest)
  {
    assert events[i..][1..] == events[i + 1..];
  }

  /** Of the buffered events, those the pages did not have. */
  method MergeNewer(start: seq<TimelineEvent>, buffered: seq<Envelope>, latest: int) returns (timeline: seq<TimelineEvent>)
    ensures timeline == Fold(start, Newer(buffered, latest))
  {
    timeline := start;
    ghost var taken := [];
    for i := 0 to |buffered|
      invariant timeline == Fold(start, taken)
      invariant taken + Newer(buffered[i..], latest) == Newer(buffered, latest)
    {
      NewerNext(buffered, i, latest);
      if buffered[i].seqNo > latest {
        assert (taken + [buffered[i]])[..|taken|] == taken;
        taken := taken + [buffered[i]];
        timeline := MergeTimelineEvent(timeline, buffered[i]);
      }
    }
    assert taken + Newer(buffered[|buffered|..], latest) == taken;
  }
}
