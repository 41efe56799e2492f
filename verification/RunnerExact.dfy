/** Exactly when a consumer can rely on its stream, whatever comes. */
module RunnerExact {
  import opened RunnerStream
  import opened RunnerDelivery
  import opened RunnerGuarantee
  import opened RunnerClash

  lemma Regroup(a: seq<Step>, b: seq<Step>)
    requires a != []
    ensures a + b == [a[0]] + (a[1..] + b)
  {
  }

  lemma {:induction false} DoMore(s: Stream, a: seq<Step>, b: seq<Step>)
    requires CanDo(s, a) && CanDo(DoAll(s, a), b)
    ensures CanDo(s, a + b) && DoAll(s, a + b) == DoAll(DoAll(s, a), b)
    decreases |a|
  {
    if a == [] {
      assert a + b == b;
    } else {
      DoMore(Next(s, a[0]), a[1..], b);
      DoFirst(s, a[0], a[1..] + b);
      Regroup(a, b);
    }
  }

  // ---- A reader past its replay --------------------------------------------

  predicate Past(s: Stream, c: Consumer) {
    c in s.readers && !s.readers[c].mode.Replaying?
  }

  /** Of a reader past its replay only what it got and whether it listens changes. */
  ghost predicate SameReader(r: Reader, t: Reader) {
    && t.since == r.since && t.base == r.base && t.from == r.from && t.skipped == r.skipped
    && !t.mode.Replaying? && (r.mode.Rejected? ==> t.mode.Rejected?)
  }

  lemma ReaderStays(s: Stream, step: Step, c: Consumer)
    requires FlightsOk(s) && Enabled(s, step) && Past(s, c)
    ensures Past(Next(s, step), c) && SameReader(s.readers[c], Next(s, step).readers[c])
  {
    match step
    case DoBegin(k) => BeginReaders(s, k, c);
    case DoAdvance(j, ok) => AdvanceReaders(s, j, ok, c);
    case DoAttach(q, since) =>
    case DoReplay(q) =>
  }

  lemma {:induction false} SoundAlong(s: Stream, more: seq<Step>, c: Consumer)
    requires Sound(s, c) && Past(s, c) && CanDo(s, more)
    ensures Sound(DoAll(s, more), c) && Past(DoAll(s, more), c) && SameReader(s.readers[c], DoAll(s, more).readers[c])
    decreases |more|
  {
    if more != [] {
      StepKeepsSound(s, more[0], c);
      ReaderStays(s, more[0], c);
      SoundAlong(Next(s, more[0]), more[1..], c);
    }
  }

  /** What a reader has in a run without clashes, once it began to listen in time. */
  ghost predicate Served(s: Stream, c: Consumer) {
    && FlightsOk(s) && BufferOk(s) && Good(s, c) && Past(s, c) && InTime(s.readers[c])
  }

  predicate InTime(r: Reader) {
    r.mode.Rejected? || r.since <= r.from
  }

  lemma StepKeepsServed(s: Stream, step: Step, c: Consumer)
    requires Served(s, c) && Enabled(s, step) && !Clash(s, c) && !Clash(Next(s, step), c)
    ensures Served(Next(s, step), c)
  {
    StepKeepsBuffer(s, step);
    StepKeepsFlights(s, step);
    StepKeepsGood(s, step, c);
    ReaderStays(s, step, c);
  }

  ghost predicate QuietAlong(s: Stream, more: seq<Step>, c: Consumer)
    requires CanDo(s, more)
    decreases |more|
  {
    !Clash(s, c) && (more != [] ==> QuietAlong(Next(s, more[0]), more[1..], c))
  }

  lemma {:induction false} QuietIsRight(s: Stream, more: seq<Step>, c: Consumer)
    requires Served(s, c) && CanDo(s, more) && QuietAlong(s, more, c)
    ensures RightWhenDone(DoAll(s, more), c)
    decreases |more|
  {
    if more == [] {
      ServedIsRight(s, c);
    } else {
      StepKeepsServed(s, more[0], c);
      QuietIsRight(Next(s, more[0]), more[1..], c);
    }
  }

  lemma ServedIsRight(s: Stream, c: Consumer)
    requires Served(s, c)
    ensures RightWhenDone(s, c)
  {
    var r := s.readers[c];
    if r.mode.Resolved? { AllLater(s.log, r.from, r.base, r.since, r.skipped); }
  }

  // ---- Right in every continuation, if and only if none clashes -------------

  ghost predicate AlwaysRight(s: Stream, c: Consumer) {
    forall more :: CanDo(s, more) ==> RightWhenDone(DoAll(s, more), c)
  }

  ghost predicate CanClash(s: Stream, c: Consumer) {
    exists more :: CanDo(s, more) && Clash(DoAll(s, more), c)
  }

  lemma {:induction false} NoneIsQuiet(s: Stream, more: seq<Step>, c: Consumer)
    requires CanDo(s, more) && !CanClash(s, c)
    ensures QuietAlong(s, more, c)
    decreases |more|
  {
    assert CanDo(s, []) && DoAll(s, []) == s;
    if more != [] {
      var t := Next(s, more[0]);
      forall m | CanDo(t, m) ensures !Clash(DoAll(t, m), c) {
        DoFirst(s, more[0], m);
      }
      NoneIsQuiet(t, more[1..], c);
    }
  }

  lemma CanLose(s: Stream, more: seq<Step>, c: Consumer)
    requires Sound(s, c) && Past(s, c) && s.readers[c].since <= s.readers[c].from
    requires CanDo(s, more) && Clash(DoAll(s, more), c)
    ensures !AlwaysRight(s, c)
  {
    SoundAlong(s, more, c);
    var t := DoAll(s, more);
    var i, j :| ClashAt(t.flights, c, i, j);
    var rest := ClashLosesFrom(t, i, j, c);
    DoMore(s, more, rest);
    assert !RightWhenDone(DoAll(s, more + rest), c);
  }

  /**
   For a consumer that listens and never met a clash: it will have exactly the
   later events whenever it is done, if and only if it cannot meet one.
   */
  lemma RightIffNoClash(ss: seq<Stream>, steps: seq<Step>, n: nat, c: Consumer)
    requires Run(ss, steps) && n < |ss| && NeverClashes(ss, n, c)
    requires c in ss[n].readers && ss[n].readers[c].mode.Listening?
    requires ss[n].readers[c].since <= ss[n].readers[c].from
    ensures AlwaysRight(ss[n], c) <==> !CanClash(ss[n], c)
  {
    var s := ss[n];
    AlwaysSound(ss, steps, n, c);
    if more :| CanDo(s, more) && Clash(DoAll(s, more), c) {
      CanLose(s, more, c);
    } else {
      AlwaysGood(ss, steps, n, c);
      forall more | CanDo(s, more) ensures RightWhenDone(DoAll(s, more), c) {
        NoneIsQuiet(s, more, c);
        QuietIsRight(s, more, c);
      }
    }
  }

  // ---- The first to listen -------------------------------------------------

  /** Nobody is called before `c`. */
  ghost predicate First(s: Stream, c: Consumer) {
    (c in s.listeners ==> s.listeners[0] == c) && forall j :: !Owes(s.flights, j, c)
  }

  lemma WithoutFirst(listeners: seq<Consumer>, h: Consumer)
    requires listeners != [] && listeners[0] != h
    ensures Without(listeners, h) != [] && Without(listeners, h)[0] == listeners[0]
  {
  }

  lemma BeginKeepsFirst(s: Stream, k: Kind, c: Consumer)
    requires Distinct(s.listeners) && First(s, c)
    ensures First(Begin(s, k), c)
  {
    MoreFlights(s, k);
    var t := Begin(s, k);
    forall j ensures !Owes(t.flights, j, c) {
      if Owes(t.flights, j, c) {
        if j < |s.flights| {
          assert Owes(s.flights, j, c);
        } else {
          BehindFirst(s.listeners, c);
        }
      }
    }
  }

  lemma AdvanceKeepsFirst(s: Stream, j: nat, ok: bool, c: Consumer)
    requires Distinct(s.listeners) && j < |s.flights| && s.flights[j].waiting != [] && Distinct(s.flights[j].waiting)
    requires First(s, c)
    ensures First(Advance(s, j, ok), c)
  {
    AdvanceFlights(s, j, ok);
    AdvanceListeners(s, j, ok, c);
    var t := Advance(s, j, ok);
    forall i ensures !Owes(t.flights, i, c) {
      OwedBefore(s.flights, j, i, c);
    }
    if c in t.listeners && s.flights[j].waiting[0] != c { WithoutFirst(s.listeners, s.flights[j].waiting[0]); }
    if c in t.listeners && s.flights[j].waiting[0] == c { WithoutKeeps(s.listeners, c); }
  }

  lemma StepKeepsFirst(s: Stream, step: Step, c: Consumer)
    requires FlightsOk(s) && Enabled(s, step) && Past(s, c) && First(s, c)
    ensures First(Next(s, step), c)
  {
    match step
    case DoBegin(k) => BeginKeepsFirst(s, k, c);
    case DoAdvance(j, ok) => AdvanceKeepsFirst(s, j, ok, c);
    case DoAttach(q, since) =>
    case DoReplay(q) =>
  }

  lemma {:induction false} FirstNeverClashes(s: Stream, more: seq<Step>, c: Consumer)
    requires FlightsOk(s) && Past(s, c) && First(s, c) && CanDo(s, more)
    ensures !Clash(DoAll(s, more), c)
    decreases |more|
  {
    if more != [] {
      StepKeepsFlights(s, more[0]);
      StepKeepsFirst(s, more[0], c);
      ReaderStays(s, more[0], c);
      FirstNeverClashes(Next(s, more[0]), more[1..], c);
    }
  }

  /** Behind another listener, two appends at once are enough. */
  lemma SecondCanClash(s: Stream, c: Consumer)
    requires FlightsOk(s) && !IsTerminalStatus(s.status) && c in s.readers && |s.listeners| > 1 && c in s.listeners[1..]
    ensures CanClash(s, c)
  {
    var t := Begin(s, Plain);
    var u := Begin(t, Plain);
    BehindFirst(s.listeners, c);
    BeginFields(s, Plain);
    BeginReaders(s, Plain, c);
    BeginReaders(t, Plain, c);
    MoreFlights(s, Plain);
    MoreFlights(t, Plain);
    DoFirst(t, DoBegin(Plain), []);
    DoFirst(s, DoBegin(Plain), [DoBegin(Plain)]);
    assert [DoBegin(Plain)] + [DoBegin(Plain)] == [DoBegin(Plain), DoBegin(Plain)];
    assert ClashAt(u.flights, c, |s.flights|, |s.flights| + 1);
    assert Clash(DoAll(s, [DoBegin(Plain), DoBegin(Plain)]), c);
  }

  // ---- When it begins to listen --------------------------------------------

  /** A `sinceSeq` ahead of the log: the very next event is already too much. */
  lemma AheadCanFail(s: Stream, c: Consumer)
    requires Sound(s, c) && !IsTerminalStatus(s.status) && c in s.readers && s.readers[c].mode.Listening?
    requires s.readers[c].since > |s.log|
    ensures !AlwaysRight(s, c)
  {
    var r, event := s.readers[c], Event(s.nextSeq, TurnCompleted);
    var t := EndTurn(s, c);
    BeginReaders(s, TurnCompleted, c);
    BeginFields(s, TurnCompleted);
    MoreFlights(s, TurnCompleted);
    assert c in s.listeners;
    var i := |s.flights|;
    assert t.flights[i] == Flight(event, s.listeners);
    var rest := CallReturns(t, i, c);
    DoFirst(s, DoBegin(TurnCompleted), rest);
    var done := DoAll(t, rest);
    LaterIs(done.log, r.base, r.since, r.skipped);
    assert event in done.readers[c].got by {
      assert done.readers[c].got[|done.readers[c].got| - 1] == event;
    }
    assert event !in Later(done.log, r.base, r.since, r.skipped);
    assert !RightWhenDone(DoAll(s, [DoBegin(TurnCompleted)] + rest), c);
  }

  /** Until it listens, nothing waits for it. */
  lemma NoClashYet(ss: seq<Stream>, steps: seq<Step>, n: nat, c: Consumer)
    requires Run(ss, steps) && n < |steps| && steps[n] == DoReplay(c) && ss[n + 1].readers[c].mode.Listening?
    ensures NeverClashes(ss, n + 1, c)
  {
    forall i | 0 <= i <= n + 1 ensures !Clash(ss[i], c) {
      NothingOwedBefore(ss, steps, i, n, c);
    }
  }

  lemma {:induction false} NotPastBefore(ss: seq<Stream>, steps: seq<Step>, i: nat, n: nat, c: Consumer)
    requires Run(ss, steps) && i <= n < |ss| && !Past(ss[n], c)
    ensures !Past(ss[i], c)
    decreases n - i
  {
    if i < n {
      NotPastBefore(ss, steps, i + 1, n, c);
      if Past(ss[i], c) {
        AlwaysSound(ss, steps, i, c);
        ReaderStays(ss[i], steps[i], c);
      }
    }
  }

  lemma NothingOwedBefore(ss: seq<Stream>, steps: seq<Step>, i: nat, n: nat, c: Consumer)
    requires Run(ss, steps) && i <= n + 1 && n < |steps| && steps[n] == DoReplay(c)
    ensures forall j :: !Owes(ss[i].flights, j, c)
  {
    var k := if i <= n then i else n;
    AlwaysSound(ss, steps, k, c);
    NotPastBefore(ss, steps, k, n, c);
    NotWaiting(ss[k], c);
    assert ss[i].flights == ss[k].flights;
    assert !OwedIn(ss[i].flights, c);
  }

  /**
   What a replay passes over: for each event evicted since the consumer came, it
   leaves out one, the one it would have read next; it has all others up to where
   it stands that are later than its `sinceSeq`.
   */
  lemma SkipsOnePerEviction(ss: seq<Stream>, steps: seq<Step>, n: nat, c: Consumer)
    requires Run(ss, steps) && n < |ss| && c in ss[n].readers && ss[n].readers[c].mode.Replaying?
    ensures var r := ss[n].readers[c]; var at := Evicted(ss[n]) + r.mode.at;
      && 0 <= at <= |ss[n].log| && |r.skipped| == Evicted(ss[n]) - r.base && Between(r.skipped, r.base, at)
      && r.got == Later(ss[n].log[..at], r.base, r.since, r.skipped)
    ensures n < |steps| && steps[n].DoBegin? && |ss[n].events| + 1 > ss[n].limit ==>
      && c in ss[n + 1].readers
      && ss[n + 1].readers[c].skipped == ss[n].readers[c].skipped + {Evicted(ss[n]) + ss[n].readers[c].mode.at + 1}
  {
    forall i | 0 <= i <= n ensures !Clash(ss[i], c) {
      NotPastBefore(ss, steps, i, n, c);
    }
    AlwaysGood(ss, steps, n, c);
    BufferAlwaysOk(ss, steps, n);
    if n < |steps| && steps[n].DoBegin? && |ss[n].events| + 1 > ss[n].limit { NextIsSkipped(ss[n], steps[n].kind, c); }
  }

  lemma NextIsSkipped(s: Stream, k: Kind, c: Consumer)
    requires BufferOk(s) && Distinct(s.listeners) && |s.events| + 1 > s.limit
    requires c in s.readers && s.readers[c].mode.Replaying? && s.readers[c].mode.at <= |s.events|
    ensures c in Begin(s, k).readers
    ensures Begin(s, k).readers[c].skipped == s.readers[c].skipped + {Evicted(s) + s.readers[c].mode.at + 1}
  {
    BeginReaders(s, k, c);
    if s.readers[c].mode.at < |s.events| { assert s.events[s.readers[c].mode.at] == s.log[Evicted(s) + s.readers[c].mode.at]; }
  }

  /**
   When a consumer begins to listen, it is settled whether it can rely on the
   stream: it will have exactly the later events whenever it is done, in every
   continuation, if and only if nobody listened before it and its `sinceSeq` is
   not ahead of the log.
   */
  lemma AlwaysRightIff(ss: seq<Stream>, steps: seq<Step>, n: nat, c: Consumer)
    requires Run(ss, steps) && n < |steps| && steps[n] == DoReplay(c)
    requires c in ss[n + 1].readers && ss[n + 1].readers[c].mode.Listening?
    ensures AlwaysRight(ss[n + 1], c) <==> ss[n].listeners == [] && ss[n + 1].readers[c].since <= |ss[n].log|
  {
    var s := ss[n + 1];
    AlwaysSound(ss, steps, n + 1, c);
    assert s.listeners == ss[n].listeners + [c] && s.readers[c].from == |s.log| == |ss[n].log|;
    if s.readers[c].since > |s.log| {
      AheadCanFail(s, c);
    } else {
      NoClashYet(ss, steps, n, c);
      RightIffNoClash(ss, steps, n + 1, c);
      if ss[n].listeners == [] {
        NothingOwedBefore(ss, steps, n + 1, n, c);
        forall more | CanDo(s, more) ensures !Clash(DoAll(s, more), c) {
          FirstNeverClashes(s, more, c);
        }
      } else {
        assert s.listeners[1..][|s.listeners| - 2] == c;
        SecondCanClash(s, c);
      }
    }
  }

  // ---- Both can happen -----------------------------------------------------

  const AHEAD := Reader(5, 0, Listening, 0, [], {})

  function Waiting(): Stream {
    Stream(10, Queued, 1, [], [], [1], [], map[1 := AHEAD])
  }

  function Told(): Stream {
    Stream(10, Completed, 2, [Event(1, TurnCompleted)], [Event(1, TurnCompleted)], [1],
           [Flight(Event(1, TurnCompleted), [1])], map[1 := AHEAD.(got := [Event(1, TurnCompleted)])])
  }

  function Over(): Stream {
    Told().(listeners := [], flights := [], readers := map[1 := Told().readers[1].(mode := Resolved)])
  }

  lemma WaitingReached()
    ensures Reachable(Waiting())
  {
    ReachInitial(10);
    Reach(Initial(10), DoAttach(1, 5));
    Reach(Attach(Initial(10), 1, 5), DoReplay(1));
    assert Replay(Attach(Initial(10), 1, 5), 1) == Waiting();
  }

  lemma ToldReached()
    ensures Reachable(Told())
  {
    WaitingReached();
    Reach(Waiting(), DoBegin(TurnCompleted));
    assert [] + [Event(1, TurnCompleted)] == [Event(1, TurnCompleted)];
    assert Begin(Waiting(), TurnCompleted).readers == Told().readers;
    assert Begin(Waiting(), TurnCompleted) == Told();
  }

  // A buffer of two: event 3 evicts event 1 while the reader stands behind it.

  const ONE := Event(1, Plain)
  const TWO := Event(2, Plain)
  const THREE := Event(3, TurnCompleted)

  function TwoHeld(): Stream {
    Stream(2, Queued, 3, [ONE, TWO], [ONE, TWO], [], [], map[])
  }

  function OneRead(): Stream {
    TwoHeld().(readers := map[1 := Reader(0, 0, Replaying(1), 0, [ONE], {})])
  }

  function Evicting(): Stream {
    Stream(2, Completed, 4, [TWO, THREE], [ONE, TWO, THREE], [], [], map[1 := Reader(0, 0, Replaying(1), 0, [ONE], {2})])
  }

  lemma TwoHeldReached()
    ensures Reachable(TwoHeld())
  {
    var first := Begin(Initial(2), Plain);
    ReachInitial(2);
    Reach(Initial(2), DoBegin(Plain));
    Reach(first, DoBegin(Plain));
    assert first == Stream(2, Queued, 2, [ONE], [ONE], [], [], map[]);
    assert [ONE] + [TWO] == [ONE, TWO];
    assert Begin(first, Plain).readers == map[];
  }

  lemma OneReadReached()
    ensures Reachable(OneRead())
  {
    TwoHeldReached();
    var attached := Attach(TwoHeld(), 1, 0);
    Reach(TwoHeld(), DoAttach(1, 0));
    Reach(attached, DoReplay(1));
    assert [] + [ONE] == [ONE];
    assert Replay(attached, 1).readers == OneRead().readers;
  }

  lemma EvictingReached()
    ensures Reachable(Evicting())
  {
    OneReadReached();
    Reach(OneRead(), DoBegin(TurnCompleted));
    assert [ONE, TWO] + [THREE] == [ONE, TWO, THREE] && [ONE, TWO, THREE][1..] == [TWO, THREE];
    var none: set<nat> := {};
    assert none + {2} == {2};
    assert Begin(OneRead(), TurnCompleted).readers == Evicting().readers;
  }

  /** It does happen: a reachable state in which a consumer is done with events 1 and 3, but not 2. */
  lemma EvictionSkips()
    ensures exists s: Stream :: Reachable(s) && SkippedTwo(s)
  {
    EvictingReached();
    var read := Replay(Evicting(), 1);
    Reach(Evicting(), DoReplay(1));
    Reach(read, DoReplay(1));
    assert [ONE] + [THREE] == [ONE, THREE];
    assert read.readers[1] == Reader(0, 0, Replaying(2), 0, [ONE, THREE], {2});
    assert SkippedTwo(Replay(read, 1));
  }

  predicate SkippedTwo(s: Stream) {
    && 1 in s.readers && s.readers[1].mode.Resolved? && s.readers[1].since == 0 && s.readers[1].base == 0
    && s.log == [ONE, TWO, THREE] && s.events == [TWO, THREE] && s.readers[1].got == [ONE, THREE]
  }

  /** Consumer 1, with `sinceSeq` 5, is done with event 1. */
  predicate TooMuch(s: Stream) {
    && 1 in s.readers && s.readers[1].mode.Resolved? && s.readers[1].since == 5
    && s.log == s.readers[1].got == [Event(1, TurnCompleted)] && s.readers[1].skipped == {} && Later(s.log, s.readers[1].base, 5, {}) == []
  }

  lemma AheadGetsTooMuch()
    ensures exists s: Stream :: Reachable(s) && TooMuch(s)
  {
    ToldReached();
    Reach(Told(), DoAdvance(0, true));
    assert Without([1], 1) == [];
    assert Advance(Told(), 0, true).readers == Over().readers;
    assert Advance(Told(), 0, true) == Over();
    LaterNext(Over().log, 0, 0, 5, {});
    assert Over().log[..0] == [] && Over().log[..1] == Over().log;
    assert TooMuch(Over());
  }
}
