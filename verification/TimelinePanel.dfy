/** The timeline panel: load, buffering during the load, live events, and events delivered again. */
module TimelinePanel {
  import opened Prelude
  import opened Timeline
  import opened TimelineGuard
  import opened TimelinePaging

  /** `buffer` exists while a load is under way; `pending` waits for the next flush. */
  datatype Panel = Panel(events: seq<TimelineEvent>, pending: seq<Envelope>, lastSeq: int, buffer: Option<seq<Envelope>>)

  /** What the panel shows once the pending events are flushed. */
  function Shown(p: Panel): seq<TimelineEvent> {
    Fold(p.events, p.pending)
  }

  function Flush(p: Panel): Panel {
    p.(events := Fold(p.events, p.pending), pending := [])
  }

  const TIMELINE_BATCH_MAX_EVENTS := 500

  function Queue(p: Panel, e: Envelope): Panel {
    if p.buffer.Some? then p.(buffer := Some(p.buffer.value + [e]))
    else if e.seqNo <= p.lastSeq then p
    else
      var next := p.(lastSeq := e.seqNo, pending := p.pending + [e]);
      if |next.pending| >= TIMELINE_BATCH_MAX_EVENTS then Flush(next) else next
  }

  function Replace(p: Panel, events: seq<TimelineEvent>): Panel {
    p.(pending := [], lastSeq := MaxEnd(events), events := events)
  }

  function BeginLoad(p: Panel): Panel {
    p.(buffer := Some([]))
  }

  /** The events of a number greater than `latest`. */
  function Newer(events: seq<Envelope>, latest: int): seq<Envelope> {
    if events == [] then []
    else if events[0].seqNo > latest then [events[0]] + Newer(events[1..], latest)
    else Newer(events[1..], latest)
  }

  function LatestOf(events: seq<Envelope>): int {
    if events == [] then 0 else Max(LatestOf(events[..|events| - 1]), events[|events| - 1].seqNo)
  }

  /** `buildTurnEventSnapshot` on the fetched events, the buffered newer ones, and the panel replaced. */
  function EndLoad(p: Panel, fetched: seq<Envelope>): Panel
    requires p.buffer.Some?
  {
    Replace(p.(buffer := None), Fold(Fold([], fetched), Newer(p.buffer.value, LatestOf(fetched))))
  }

  // ---- Coverage ------------------------------------------------------------

  /** The panel shows exactly the fold of the first `h` events, and its guard lies between their ends and number `h`. */
  ghost predicate Covers(p: Panel, log: seq<Envelope>, h: nat)
    requires h <= |log|
  {
    && p.buffer == None
    && Shown(p) == Fold([], log[..h])
    && MaxEnd(Fold([], log[..h])) <= p.lastSeq <= NumberAt(log, h)
  }

  lemma FlushCovers(p: Panel, log: seq<Envelope>, h: nat)
    requires h <= |log| && Covers(p, log, h)
    ensures Covers(Flush(p), log, h)
  {
  }

  lemma PendingOne(p: Panel, e: Envelope)
    ensures Shown(p.(pending := p.pending + [e])) == MergeTimelineEvent(Shown(p), e)
  {
    assert (p.pending + [e])[..|p.pending|] == p.pending;
  }

  /** Any event of the log up to the first one not covered yet may be delivered, again or for the first time. */
  lemma QueueCovers(p: Panel, log: seq<Envelope>, h: nat, i: nat)
    requires Sorted(log) && i <= h <= |log| && i < |log| && Covers(p, log, h)
    ensures Covers(Queue(p, log[i]), log, Max(h, i + 1))
  {
    var e := log[i];
    assert i == h && h > 0 ==> log[h - 1].seqNo < log[i].seqNo;
    if e.seqNo > p.lastSeq {
      PendingOne(p, e);
      if i < h {
        LateIsNoOp(log, i, h);
        assert i < h - 1 ==> log[i].seqNo < log[h - 1].seqNo;
      } else {
        FoldNext(log, h);
        MaxEndGrows(log, h, h + 1);
      }
    }
  }

  // ---- Loading -------------------------------------------------------------

  lemma {:induction false} NewerOfSlice(log: seq<Envelope>, a: nat, b: nat, n: nat)
    requires Sorted(log) && a <= n <= |log| && a <= b <= |log|
    ensures Newer(log[a..b], NumberAt(log, n)) == if n <= b then log[n..b] else []
    decreases b - a
  {
    if a < b {
      assert log[a..b][1..] == log[a + 1..b];
      if a < n {
        assert a < n - 1 ==> log[a].seqNo < log[n - 1].seqNo;
        NewerOfSlice(log, a + 1, b, n);
      } else {
        AllNewer(log, a, b, n);
      }
    }
  }

  lemma {:induction false} AllNewer(log: seq<Envelope>, a: nat, b: nat, n: nat)
    requires Sorted(log) && n <= a <= b <= |log|
    ensures Newer(log[a..b], NumberAt(log, n)) == log[a..b]
    decreases b - a
  {
    if a < b {
      assert log[a..b][1..] == log[a + 1..b];
      assert n > 0 ==> log[n - 1].seqNo < log[a].seqNo;
      AllNewer(log, a + 1, b, n);
    }
  }

  lemma {:induction false} LatestOfPrefix(log: seq<Envelope>, n: nat)
    requires Sorted(log) && n <= |log|
    ensures LatestOf(log[..n]) == NumberAt(log, n)
  {
    if n > 0 {
      LatestOfPrefix(log, n - 1);
      assert log[..n][..n - 1] == log[..n - 1];
      assert n > 1 ==> log[n - 2].seqNo < log[n - 1].seqNo;
    }
  }

  lemma FoldMore(log: seq<Envelope>, n: nat, b: nat)
    requires n <= b <= |log|
    ensures Fold(Fold([], log[..n]), log[n..b]) == Fold([], log[..b])
  {
    FoldConcat([], log[..n], log[n..b]);
    assert log[..n] + log[n..b] == log[..b];
  }

  lemma LoadedEvents(log: seq<Envelope>, n: nat, a: nat, b: nat)
    requires Sorted(log) && a <= n <= |log| && a <= b <= |log|
    ensures Fold(Fold([], log[..n]), Newer(log[a..b], NumberAt(log, n))) == Fold([], log[..Max(n, b)])
  {
    NewerOfSlice(log, a, b, n);
    if n <= b { FoldMore(log, n, b); }
  }

  /** Pages up to event `n`, and a live stream that delivered events `a` to `b` meanwhile, without a gap to the pages. */
  lemma LoadCovers(p: Panel, log: seq<Envelope>, n: nat, a: nat, b: nat)
    requires Sorted(log) && a <= n <= |log| && a <= b <= |log|
    requires p.buffer == Some(log[a..b])
    ensures Covers(EndLoad(p, log[..n]), log, Max(n, b))
  {
    LatestOfPrefix(log, n);
    LoadedEvents(log, n, a, b);
    MaxEndGrows(log, Max(n, b), Max(n, b));
  }

  function QueueAll(p: Panel, events: seq<Envelope>): Panel
    decreases |events|
  {
    if events == [] then p else Queue(QueueAll(p, events[..|events| - 1]), events[|events| - 1])
  }

  lemma {:induction false} BufferAll(p: Panel, events: seq<Envelope>)
    ensures QueueAll(BeginLoad(p), events) == p.(buffer := Some(events))
    decreases |events|
  {
    if events != [] {
      BufferAll(p, events[..|events| - 1]);
      assert events == events[..|events| - 1] + [events[|events| - 1]];
    }
  }

  // ---- Refinement ----------------------------------------------------------

  /**
   A turn's events over time: `stored(t)` of them are in the database at time
   `t`, and `streamed(t)` of these were delivered to the browser. The panel shows
   the events after `since`, up to `until` if there is one.
   */
  datatype Feed = Feed(
    log: seq<Envelope>, stored: nat -> nat, streamed: nat -> nat, since: int, until: Option<int>)
  {
    ghost predicate Valid() {
      && Sorted(log) && Growing(stored, |log|) && Growing(streamed, |log|)
      && forall t: nat :: streamed(t) <= stored(t)
    }

    /** What there is to show in the end. */
    function Range(): seq<Envelope> {
      Select(log, since, until)
    }

    function To(n: nat): nat
      requires n <= |log|
    {
      RangeTo(log, since, until, n)
    }
  }

  /**
   A load begins at time `started`; its last page is answered at `answered` and
   arrives at `arrived`. Else an event of the log is delivered, or a batch is flushed.
   */
  datatype Act =
    | Deliver(i: nat)
    | FlushNow
    | Load(started: nat, answered: nat, arrived: nat)

  /** An event out of the range is not queued. */
  function Receive(p: Panel, f: Feed, e: Envelope): Panel {
    if InRange(e, f.since, f.until) then Queue(p, e) else p
  }

  function ReceiveAll(p: Panel, f: Feed, events: seq<Envelope>): Panel
    decreases |events|
  {
    if events == [] then p else Receive(ReceiveAll(p, f, events[..|events| - 1]), f, events[|events| - 1])
  }

  lemma {:induction false} ReceiveIsQueue(p: Panel, f: Feed, events: seq<Envelope>)
    ensures ReceiveAll(p, f, events) == QueueAll(p, Select(events, f.since, f.until))
    decreases |events|
  {
    if events != [] {
      ReceiveIsQueue(p, f, events[..|events| - 1]);
      var rest, last := Select(events[..|events| - 1], f.since, f.until), events[|events| - 1];
      assert (rest + [last])[..|rest|] == rest;
    }
  }

  /** The events streamed during a load. */
  function Meanwhile(f: Feed, started: nat, arrived: nat): seq<Envelope> {
    if f.streamed(started) <= f.streamed(arrived) <= |f.log| then f.log[f.streamed(started)..f.streamed(arrived)] else []
  }

  /** What the pages of a load give, the last of them answered at time `t`. */
  function Fetched(f: Feed, t: nat): seq<Envelope> {
    if f.stored(t) <= |f.log| then Select(f.log[..f.stored(t)], f.since, f.until) else []
  }

  function Perform(p: Panel, f: Feed, act: Act): Panel {
    match act
    case Deliver(i) => if i < |f.log| then Receive(p, f, f.log[i]) else p
    case FlushNow => Flush(p)
    case Load(started, answered, arrived) =>
      var q := ReceiveAll(BeginLoad(p), f, Meanwhile(f, started, arrived));
      if q.buffer.Some? then EndLoad(q, Fetched(f, answered)) else q
  }

  function PerformAll(p: Panel, f: Feed, acts: seq<Act>): Panel
    decreases |acts|
  {
    if acts == [] then p else Perform(PerformAll(p, f, acts[..|acts| - 1]), f, acts[|acts| - 1])
  }

  /** How far the log is covered after an act. */
  function CoveredBy(f: Feed, h: nat, act: Act): nat {
    match act
    case Deliver(i) => Max(h, i + 1)
    case FlushNow => h
    case Load(started, answered, arrived) => Max(f.stored(answered), f.streamed(arrived))
  }

  function Covered(f: Feed, acts: seq<Act>): nat {
    if acts == [] then 0 else CoveredBy(f, Covered(f, acts[..|acts| - 1]), acts[|acts| - 1])
  }

  /** A delivery may repeat events, but never leaves one out. */
  predicate ActOk(f: Feed, h: nat, act: Act) {
    match act
    case Deliver(i) => i <= h && i < |f.log|
    case FlushNow => true
    case Load(started, answered, arrived) => started <= answered <= arrived
  }

  /** The first act is a load, and all are as above. */
  predicate NoGaps(f: Feed, acts: seq<Act>) {
    && acts != []
    && ActOk(f, Covered(f, acts[..|acts| - 1]), acts[|acts| - 1])
    && (if |acts| == 1 then acts[0].Load? else NoGaps(f, acts[..|acts| - 1]))
  }

  /** The panel shows exactly the fold of the range within the first `h` events. */
  ghost predicate Shows(p: Panel, f: Feed, h: nat) {
    h <= |f.log| && f.To(h) <= |f.Range()| && Covers(p, f.Range(), f.To(h))
  }

  lemma LoadStep(p: Panel, f: Feed, started: nat, answered: nat, arrived: nat)
    requires f.Valid() && started <= answered <= arrived
    ensures Shows(Perform(p, f, Load(started, answered, arrived)), f, Max(f.stored(answered), f.streamed(arrived)))
  {
    var n, a, b := f.stored(answered), f.streamed(started), f.streamed(arrived);
    assert a <= f.stored(started) <= n && a <= b;
    var events := Select(f.log[a..b], f.since, f.until);
    ReceiveIsQueue(BeginLoad(p), f, f.log[a..b]);
    BufferAll(p, events);
    RangeOfSlice(f.log, f.since, f.until, a, b);
    RangeOfSlice(f.log, f.since, f.until, a, n);
    RangeOrder(f, n, b);
    SelectSorted(f.log, f.since, f.until);
    LoadCovers(p.(buffer := Some(events)), f.Range(), f.To(n), f.To(a), f.To(b));
  }

  lemma RangeOrder(f: Feed, m: nat, n: nat)
    requires m <= |f.log| && n <= |f.log|
    ensures f.To(m) <= |f.Range()| && f.To(Max(m, n)) == Max(f.To(m), f.To(n))
  {
    RangeOfSlice(f.log, f.since, f.until, Min(m, n), Max(m, n));
    RangeOfSlice(f.log, f.since, f.until, m, m);
  }

  function Min(a: int, b: int): int {
    if a < b then a else b
  }

  lemma DeliverStep(p: Panel, f: Feed, h: nat, i: nat)
    requires f.Valid() && i <= h && i < |f.log| && Shows(p, f, h)
    ensures Shows(Receive(p, f, f.log[i]), f, Max(h, i + 1))
  {
    RangeToNext(f.log, f.since, f.until, i);
    RangeOrder(f, h, i + 1);
    RangeOrder(f, h, i);
    SelectSorted(f.log, f.since, f.until);
    if InRange(f.log[i], f.since, f.until) {
      QueueCovers(p, f.Range(), f.To(h), f.To(i));
    }
  }

  lemma ActShows(p: Panel, f: Feed, h: nat, act: Act)
    requires f.Valid() && ActOk(f, h, act) && (act.Load? || Shows(p, f, h))
    ensures Shows(Perform(p, f, act), f, CoveredBy(f, h, act))
  {
    match act
    case Deliver(i) => DeliverStep(p, f, h, i);
    case FlushNow => FlushCovers(p, f.Range(), f.To(h));
    case Load(started, answered, arrived) => LoadStep(p, f, started, answered, arrived);
  }

  /**
   Timeline refinement: whatever was loaded, buffered, flushed and delivered
   again, the panel shows one left fold over its range of the covered log.
   */
  lemma {:induction false} TimelineRefinement(p: Panel, f: Feed, acts: seq<Act>)
    requires f.Valid() && NoGaps(f, acts)
    ensures Shows(PerformAll(p, f, acts), f, Covered(f, acts))
    decreases |acts|
  {
    var front := acts[..|acts| - 1];
    if |acts| > 1 { TimelineRefinement(p, f, front); }
    ActShows(PerformAll(p, f, front), f, Covered(f, front), acts[|acts| - 1]);
  }
}
