/** Delivery over whole runs of a turn's stream, and what goes wrong when appends overlap. */
module RunnerGuarantee {
  import opened RunnerStream
  import opened RunnerDelivery

  // ---- Structure is kept ---------------------------------------------------

  /** The listeners of a state match the readers' modes. */
  ghost predicate ListenersOk(s: Stream) {
    && Distinct(s.listeners) && (forall c :: c in s.listeners ==> c in s.readers && s.readers[c].mode.Listening?)
    && (forall c :: c in s.readers && s.readers[c].mode.Listening? && !IsTerminalStatus(s.status) ==> c in s.listeners)
  }

  ghost predicate WaitersOk(flights: seq<Flight>, readers: map<Consumer, Reader>) {
    forall j :: 0 <= j < |flights| ==>
      && flights[j].waiting != [] && Distinct(flights[j].waiting)
      && (forall c :: c in flights[j].waiting ==> c in readers && !readers[c].mode.Replaying?)
  }

  lemma BeginKeepsFlights(s: Stream, k: Kind)
    requires FlightsOk(s) && !IsTerminalStatus(s.status)
    ensures FlightsOk(Begin(s, k))
  {
    var t := Begin(s, k);
    forall c | c in s.readers ensures c in t.readers && t.readers[c] == BegunReader(s, k, s.readers[c], c) {
      BeginReaders(s, k, c);
    }
    assert t.readers.Keys == s.readers.Keys;
    assert t.listeners == s.listeners;
    forall j | 0 <= j < |t.flights|
      ensures t.flights[j].waiting != [] && Distinct(t.flights[j].waiting)
      ensures forall c :: c in t.flights[j].waiting ==> c in t.readers && !t.readers[c].mode.Replaying?
    {
      if j < |s.flights| { assert t.flights[j] == s.flights[j]; }
    }
  }

  lemma AdvanceKeepsWaiters(s: Stream, j: nat, ok: bool)
    requires j < |s.flights| && WaitersOk(s.flights, s.readers)
    ensures WaitersOk(Advance(s, j, ok).flights, Advance(s, j, ok).readers)
  {
    var t := Advance(s, j, ok);
    AdvanceFlights(s, j, ok);
    forall c | c in s.readers ensures c in t.readers && (t.readers[c].mode.Replaying? ==> s.readers[c].mode.Replaying?) {
      AdvanceReaders(s, j, ok, c);
    }
    var w := s.flights[j].waiting;
    forall i | 0 <= i < |t.flights|
      ensures t.flights[i].waiting != [] && Distinct(t.flights[i].waiting)
      ensures forall c :: c in t.flights[i].waiting ==> c in t.readers && !t.readers[c].mode.Replaying?
    {
      if |w| == 1 {
        assert t.flights[i] == s.flights[if i < j then i else i + 1];
      } else if i == j {
        assert t.flights[i].waiting == w[1..];
        assert forall c :: c in w[1..] ==> c in w;
      } else {
        assert t.flights[i] == s.flights[i];
      }
    }
  }

  lemma AdvanceKeepsListeners(s: Stream, j: nat, ok: bool)
    requires FlightsOk(s) && j < |s.flights|
    ensures ListenersOk(Advance(s, j, ok))
  {
    var t := Advance(s, j, ok);
    AdvanceListeners(s, j, ok, 0);
    assert t.readers.Keys == s.readers.Keys;
    forall c | c in t.listeners ensures c in t.readers && t.readers[c].mode.Listening? {
      AdvanceListeners(s, j, ok, c);
      AdvanceReaders(s, j, ok, c);
    }
    forall c | c in t.readers && t.readers[c].mode.Listening? && !IsTerminalStatus(t.status) ensures c in t.listeners {
      AdvanceReaders(s, j, ok, c);
      AdvanceListeners(s, j, ok, c);
    }
  }

  lemma AttachKeepsFlights(s: Stream, c: Consumer, since: nat)
    requires FlightsOk(s) && c !in s.readers
    ensures FlightsOk(Attach(s, c, since))
  {
  }

  lemma ReplayKeepsFlights(s: Stream, c: Consumer)
    requires FlightsOk(s) && c in s.readers && s.readers[c].mode.Replaying?
    ensures FlightsOk(Replay(s, c))
  {
    NotWaiting(s, c);
    var t := Replay(s, c);
    forall j | 0 <= j < |t.flights| ensures forall q :: q in t.flights[j].waiting ==> q in t.readers && !t.readers[q].mode.Replaying? {
      assert t.flights[j] == s.flights[j];
      assert c in s.flights[j].waiting ==> Waits(s.flights, c);
    }
  }

  lemma StepKeepsFlights(s: Stream, step: Step)
    requires FlightsOk(s) && Enabled(s, step)
    ensures FlightsOk(Next(s, step))
  {
    match step
    case DoBegin(k) => BeginKeepsFlights(s, k);
    case DoAdvance(j, ok) =>
      AdvanceKeepsWaiters(s, j, ok);
      AdvanceKeepsListeners(s, j, ok);
    case DoAttach(c, since) => AttachKeepsFlights(s, c, since);
    case DoReplay(c) => ReplayKeepsFlights(s, c);
  }

  // ---- Every reader --------------------------------------------------------

  ghost predicate Good(s: Stream, c: Consumer) {
    c in s.readers ==> ReaderOk(s, c) && CarriesLast(s, c)
  }

  lemma AttachKeepsGood(s: Stream, q: Consumer, since: nat, c: Consumer)
    requires FlightsOk(s) && BufferOk(s) && q !in s.readers && Good(s, c)
    ensures Good(Attach(s, q, since), c)
  {
    var t := Attach(s, q, since);
    SameFlights(s, t, c);
    if c == q {
      NotWaiting(s, c);
      assert s.log[..Evicted(s)][..] == s.log[..Evicted(s)];
      NothingBefore(s.log[..Evicted(s)], Evicted(s), since, {});
    }
  }

  lemma NothingBefore(log: seq<Event>, base: nat, since: nat, skipped: set<nat>)
    requires |log| <= base
    ensures Later(log, base, since, skipped) == []
  {
  }

  lemma ReplayKeepsGood(s: Stream, q: Consumer, c: Consumer)
    requires FlightsOk(s) && BufferOk(s) && q in s.readers && s.readers[q].mode.Replaying? && Good(s, c)
    ensures Good(Replay(s, q), c)
  {
    SameFlights(s, Replay(s, q), c);
    if c == q {
      OwnReplayKeepsGood(s, c);
    } else {
      OtherReplayKeepsGood(s, q, c);
    }
  }

  lemma OwnReplayKeepsGood(s: Stream, c: Consumer)
    requires FlightsOk(s) && BufferOk(s) && c in s.readers && s.readers[c].mode.Replaying? && ReaderOk(s, c)
    ensures Good(Replay(s, c), c)
  {
    NotWaiting(s, c);
    SameFlights(s, Replay(s, c), c);
    ReplayReader(s, c);
    NotOwed(Replay(s, c), c);
  }

  lemma NotOwed(s: Stream, c: Consumer)
    requires !Owed(s, c)
    ensures CarriesLast(s, c)
  {
  }

  lemma OtherReplayKeepsGood(s: Stream, q: Consumer, c: Consumer)
    requires q in s.readers && s.readers[q].mode.Replaying? && c != q && Good(s, c)
    requires Owed(Replay(s, q), c) == Owed(s, c) && InFlight(Replay(s, q), c) == InFlight(s, c)
    ensures Good(Replay(s, q), c)
  {
    var t := Replay(s, q);
    assert c in s.readers ==> c in t.readers && t.readers[c] == s.readers[c];
    assert c in t.listeners <==> c in s.listeners;
  }

  lemma BeginKeepsGood(s: Stream, k: Kind, c: Consumer)
    requires FlightsOk(s) && BufferOk(s) && !IsTerminalStatus(s.status) && !Clash(Begin(s, k), c) && Good(s, c)
    ensures Good(Begin(s, k), c)
  {
    if c in s.readers {
      BeginKeepsReader(s, k, c);
      BeginKeepsLast(s, k, c);
    } else {
      NoReaderAppears(s, DoBegin(k), c);
    }
  }

  lemma AdvanceKeepsGood(s: Stream, j: nat, ok: bool, c: Consumer)
    requires FlightsOk(s) && j < |s.flights| && !Clash(s, c) && Good(s, c)
    ensures Good(Advance(s, j, ok), c)
  {
    if c in s.readers {
      AdvanceKeepsReader(s, j, ok, c);
      AdvanceKeepsLast(s, j, ok, c);
    } else {
      NoReaderAppears(s, DoAdvance(j, ok), c);
    }
  }

  lemma StepKeepsGood(s: Stream, step: Step, c: Consumer)
    requires FlightsOk(s) && BufferOk(s) && Enabled(s, step) && !Clash(s, c) && !Clash(Next(s, step), c) && Good(s, c)
    ensures Good(Next(s, step), c)
  {
    match step
    case DoBegin(k) => BeginKeepsGood(s, k, c);
    case DoAdvance(j, ok) => AdvanceKeepsGood(s, j, ok, c);
    case DoAttach(q, since) => AttachKeepsGood(s, q, since, c);
    case DoReplay(q) => ReplayKeepsGood(s, q, c);
  }

  /** In no state up to `n` do two appends wait for `c` of which one has still to call it. */
  ghost predicate NeverClashes(ss: seq<Stream>, n: nat, c: Consumer) {
    forall i :: 0 <= i <= n < |ss| ==> !Clash(ss[i], c)
  }

  lemma {:induction false} AlwaysGood(ss: seq<Stream>, steps: seq<Step>, n: nat, c: Consumer)
    requires Run(ss, steps) && n < |ss| && NeverClashes(ss, n, c)
    ensures FlightsOk(ss[n]) && Good(ss[n], c)
    decreases n
  {
    if n > 0 {
      AlwaysGood(ss, steps, n - 1, c);
      BufferAlwaysOk(ss, steps, n - 1);
      StepKeepsFlights(ss[n - 1], steps[n - 1]);
      StepKeepsGood(ss[n - 1], steps[n - 1], c);
    }
  }

  lemma {:induction false} AllLater(log: seq<Event>, n: nat, base: nat, since: nat, skipped: set<nat>)
    requires n <= |log| && base <= n && since <= n && Between(skipped, base, n)
    requires forall i :: 0 <= i < |log| ==> log[i].seqNo == i + 1
    ensures Later(log, base, since, skipped) == Later(log[..n], base, since, skipped) + log[n..]
    decreases |log|
  {
    if n == |log| {
      assert log[..n] == log;
    } else {
      var front := log[..|log| - 1];
      AllLater(front, n, base, since, skipped);
      assert front[..n] == log[..n] && front[n..] + [log[|log| - 1]] == log[n..];
    }
  }

  lemma NoReaderAppears(s: Stream, step: Step, c: Consumer)
    requires Enabled(s, step) && c !in s.readers && !step.DoAttach?
    ensures c !in Next(s, step).readers
  {
  }

  /**
   Exactly once, in order, to the end: a consumer that is done and met no clash
   was given the events of the log, without those evicted before it came and
   those its replay passed over, that are later than its `sinceSeq`, each once and
   in order, and the log ends with its one terminal event.
   */
  lemma ConsumerGetsAll(ss: seq<Stream>, steps: seq<Step>, n: nat, c: Consumer)
    requires Run(ss, steps) && n < |ss| && NeverClashes(ss, n, c)
    requires c in ss[n].readers && ss[n].readers[c].mode.Resolved?
    requires ss[n].readers[c].since <= ss[n].readers[c].from
    ensures var r := ss[n].readers[c]; var log := ss[n].log;
      && log != [] && IsTerminal(log[|log| - 1].kind) && (forall i :: 0 <= i < |log| - 1 ==> !IsTerminal(log[i].kind))
      && r.got == Later(log, r.base, r.since, r.skipped)
  {
    AlwaysGood(ss, steps, n, c);
    BufferAlwaysOk(ss, steps, n);
    var r := ss[n].readers[c];
    AllLater(ss[n].log, r.from, r.base, r.since, r.skipped);
  }

  /** `Later` is what it should be: no event twice, none too early, none left out but the skipped, in order. */
  lemma {:induction false} LaterIs(log: seq<Event>, base: nat, since: nat, skipped: set<nat>)
    requires forall i :: 0 <= i < |log| ==> log[i].seqNo == i + 1
    ensures forall e :: e in Later(log, base, since, skipped) <==>
      e in log && e.seqNo > base && e.seqNo > since && e.seqNo !in skipped
    ensures forall i, j :: 0 <= i < j < |Later(log, base, since, skipped)| ==>
      Later(log, base, since, skipped)[i].seqNo < Later(log, base, since, skipped)[j].seqNo
    decreases |log|
  {
    if |log| > 0 {
      var front, last := log[..|log| - 1], log[|log| - 1];
      LaterIs(front, base, since, skipped);
      assert log == front + [last];
      if |log| <= base {
        assert forall e :: e in log ==> e.seqNo <= base;
      } else {
        forall i | 0 <= i < |Later(front, base, since, skipped)| ensures Later(front, base, since, skipped)[i].seqNo < last.seqNo {
          assert Later(front, base, since, skipped)[i] in front;
        }
      }
    }
  }

  /**
   Live events are not compared with `sinceSeq`: the consumer gets exactly the
   later events if and only if that number was not ahead of the log when it began
   to listen, or nothing came after.
   */
  lemma ExactlyLaterIff(ss: seq<Stream>, steps: seq<Step>, n: nat, c: Consumer)
    requires Run(ss, steps) && n < |ss| && NeverClashes(ss, n, c)
    requires c in ss[n].readers && ss[n].readers[c].mode.Resolved?
    ensures var r := ss[n].readers[c]; var log := ss[n].log;
      r.got == Later(log, r.base, r.since, r.skipped) <==> r.since <= r.from || r.from == |log|
  {
    AlwaysGood(ss, steps, n, c);
    BufferAlwaysOk(ss, steps, n);
    var r, log := ss[n].readers[c], ss[n].log;
    if r.since <= r.from {
      AllLater(log, r.from, r.base, r.since, r.skipped);
    } else if r.from == |log| {
      assert log[..r.from] == log && log[r.from..] == [];
    } else {
      LaterIs(log, r.base, r.since, r.skipped);
      assert log[r.from] == log[r.from..][0] && log[r.from] in r.got;
      assert log[r.from] !in Later(log, r.base, r.since, r.skipped);
    }
  }

  // ---- Overlapping appends -------------------------------------------------

  const FIRST := Event(1, Plain)
  const LAST := Event(2, TurnCompleted)
  const WAITING := Reader(0, 0, Listening, 0, [], {})

  function BothListen(): Stream {
    Stream(10, Queued, 1, [], [], [1, 2], [], map[1 := WAITING, 2 := WAITING])
  }

  function OneUnderWay(): Stream {
    Stream(10, Queued, 2, [FIRST], [FIRST], [1, 2], [Flight(FIRST, [1, 2])],
           map[1 := WAITING.(got := [FIRST]), 2 := WAITING])
  }

  function TwoUnderWay(): Stream {
    Stream(10, Completed, 3, [FIRST, LAST], [FIRST, LAST], [1, 2], [Flight(FIRST, [1, 2]), Flight(LAST, [1, 2])],
           map[1 := WAITING.(got := [FIRST, LAST]), 2 := WAITING])
  }

  function OneDone(): Stream {
    Stream(10, Completed, 3, [FIRST, LAST], [FIRST, LAST], [2], [Flight(FIRST, [2]), Flight(LAST, [1, 2])],
           map[1 := Reader(0, 0, Resolved, 0, [FIRST, LAST], {}), 2 := WAITING.(got := [FIRST])])
  }

  function BothDone(): Stream {
    Stream(10, Completed, 3, [FIRST, LAST], [FIRST, LAST], [], [Flight(LAST, [1, 2])],
           map[1 := Reader(0, 0, Resolved, 0, [FIRST, LAST], {}), 2 := Reader(0, 0, Resolved, 0, [FIRST], {})])
  }

  lemma TheyListen()
    ensures Replay(Attach(Replay(Attach(Initial(10), 1, 0), 1), 2, 0), 2) == BothListen()
  {
    var one := Replay(Attach(Initial(10), 1, 0), 1);
    assert one == Stream(10, Queued, 1, [], [], [1], [], map[1 := WAITING]);
  }

  lemma TheyAppend()
    ensures Begin(BothListen(), Plain) == OneUnderWay()
    ensures Begin(OneUnderWay(), TurnCompleted) == TwoUnderWay()
  {
    var first, second := Begin(BothListen(), Plain), Begin(OneUnderWay(), TurnCompleted);
    assert [] + [FIRST] == [FIRST] && [FIRST] + [LAST] == [FIRST, LAST];
    assert first.readers == OneUnderWay().readers;
    assert first.flights == OneUnderWay().flights;
    assert second.readers == TwoUnderWay().readers;
  }

  lemma FirstReturns()
    ensures Advance(TwoUnderWay(), 0, true) == OneDone()
  {
    assert [1, 2][1..] == [2] && [2][1..] == [];
    assert Without([2], 1) == [2];
    assert Without([1, 2], 1) == [2];
    assert [] + [FIRST] == [FIRST];
    assert Advance(TwoUnderWay(), 0, true).readers == OneDone().readers;
  }

  lemma SecondReturns()
    ensures Advance(OneDone(), 0, true) == BothDone()
  {
    assert OneDone().flights[..0] + OneDone().flights[1..] == [Flight(LAST, [1, 2])];
    assert Advance(OneDone(), 0, true).readers == BothDone().readers;
  }

  /** Some run ends in this state. */
  ghost predicate Reachable(s: Stream) {
    exists ss: seq<Stream>, steps: seq<Step> :: Run(ss, steps) && ss[|steps|] == s
  }

  lemma Reach(s: Stream, step: Step)
    requires Reachable(s) && Enabled(s, step)
    ensures Reachable(Next(s, step))
  {
    var ss: seq<Stream>, steps: seq<Step> :| Run(ss, steps) && ss[|steps|] == s;
    var longer, more := ss + [Next(s, step)], steps + [step];
    assert Run(longer, more);
    assert longer[|more|] == Next(s, step);
  }

  lemma ReachInitial(limit: nat)
    ensures Reachable(Initial(limit))
  {
    var ss, steps: seq<Step> := [Initial(limit)], [];
    assert Run(ss, steps) && ss[|steps|] == Initial(limit);
  }

  predicate MissedTheEnd(s: Stream, c: Consumer) {
    && c in s.readers && s.readers[c].mode.Resolved? && s.readers[c].skipped == {} && s.readers[c].since == 0
    && s.log == [FIRST, LAST] && IsTerminal(LAST.kind) && s.readers[c].got == [FIRST]
  }

  lemma OneListens()
    ensures Reachable(Replay(Attach(Initial(10), 1, 0), 1))
  {
    var attached := Attach(Initial(10), 1, 0);
    ReachInitial(10);
    Reach(Initial(10), DoAttach(1, 0));
    Reach(attached, DoReplay(1));
  }

  lemma BothReachable()
    ensures Reachable(BothListen())
  {
    var one := Replay(Attach(Initial(10), 1, 0), 1);
    TheyListen();
    OneListens();
    Reach(one, DoAttach(2, 0));
    Reach(Attach(one, 2, 0), DoReplay(2));
  }

  lemma TwoReachable()
    ensures Reachable(TwoUnderWay())
  {
    BothReachable();
    TheyAppend();
    Reach(BothListen(), DoBegin(Plain));
    Reach(OneUnderWay(), DoBegin(TurnCompleted));
  }

  /**
   Without that care: two consumers listen, a second append begins while the
   first still waits for a consumer, and the second consumer is done without
   having got the terminal event.
   */
  lemma OverlapLosesTheEnd()
    ensures exists s: Stream :: Reachable(s) && MissedTheEnd(s, 2)
  {
    TwoReachable();
    FirstReturns();
    SecondReturns();
    Reach(TwoUnderWay(), DoAdvance(0, true));
    Reach(OneDone(), DoAdvance(0, true));
    assert MissedTheEnd(BothDone(), 2);
  }
}
