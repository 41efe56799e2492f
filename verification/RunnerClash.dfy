/** When delivery goes wrong: what a clash of appends, or a `sinceSeq` ahead of the log, costs a consumer. */
module RunnerClash {
  import opened RunnerStream
  import opened RunnerDelivery
  import opened RunnerGuarantee

  // ---- Continuations -------------------------------------------------------

  predicate CanDo(s: Stream, steps: seq<Step>)
    decreases |steps|
  {
    steps == [] || (Enabled(s, steps[0]) && CanDo(Next(s, steps[0]), steps[1..]))
  }

  function DoAll(s: Stream, steps: seq<Step>): Stream
    requires CanDo(s, steps)
    decreases |steps|
  {
    if steps == [] then s else DoAll(Next(s, steps[0]), steps[1..])
  }

  lemma DoFirst(s: Stream, step: Step, more: seq<Step>)
    requires Enabled(s, step) && CanDo(Next(s, step), more)
    ensures CanDo(s, [step] + more) && DoAll(s, [step] + more) == DoAll(Next(s, step), more)
  {
    assert ([step] + more)[1..] == more;
  }

  /** A consumer that is done has exactly the later events. */
  ghost predicate RightWhenDone(s: Stream, c: Consumer) {
    c in s.readers && s.readers[c].mode.Resolved? ==>
      s.readers[c].got == Later(s.log, s.readers[c].base, s.readers[c].since, s.readers[c].skipped)
  }

  // ---- What a call can add -------------------------------------------------

  /** What a reader has, or waits for, is in the log; what it waits for came after it began to listen, and is not there yet. */
  ghost predicate Pending(s: Stream, c: Consumer) {
    c in s.readers ==> GotOk(s.readers[c], |s.log|) && NotYet(s.readers[c], s.flights, c)
  }

  ghost predicate NotYet(r: Reader, flights: seq<Flight>, c: Consumer) {
    forall j :: Owes(flights, j, c) ==> flights[j].event !in r.got && flights[j].event.seqNo > r.from
  }

  ghost predicate GotOk(r: Reader, size: nat) {
    && r.base <= size
    && (r.mode.Listening? ==> r.base <= r.from <= size && Between(r.skipped, 0, r.from))
    && Between(r.skipped, 0, size)
    && forall e :: e in r.got ==> e.seqNo <= size
  }

  /** Appends under way are in the order of their events, which are in the log. */
  ghost predicate InOrder(s: Stream) {
    Rising(s.flights) && forall i :: 0 <= i < |s.flights| ==> s.flights[i].event in s.log
  }

  ghost predicate Rising(flights: seq<Flight>) {
    forall i, j :: 0 <= i < j < |flights| ==> flights[i].event.seqNo < flights[j].event.seqNo
  }

  lemma BeginKeepsOrder(s: Stream, k: Kind)
    requires InOrder(s) && LogOk(s.log, s.nextSeq, s.status)
    ensures InOrder(Begin(s, k))
  {
    var t := Begin(s, k);
    BeginFields(s, k);
    forall i | 0 <= i < |t.flights| ensures t.flights[i].event in t.log && (i < |s.flights| ==> t.flights[i].event.seqNo < s.nextSeq) {
      if i < |s.flights| {
        assert t.flights[i] == s.flights[i];
      } else {
        assert t.log[|s.log|] == t.flights[i].event;
      }
    }
  }

  lemma AdvanceKeepsOrder(s: Stream, j: nat, ok: bool)
    requires InOrder(s) && j < |s.flights| && s.flights[j].waiting != []
    ensures InOrder(Advance(s, j, ok))
  {
    AdvanceFlights(s, j, ok);
    AdvanceLog(s, j, ok);
    var t := Advance(s, j, ok);
    forall i | 0 <= i < |t.flights| ensures t.flights[i].event == s.flights[Before(s.flights, j, i)].event {
    }
  }

  lemma AdvanceLog(s: Stream, j: nat, ok: bool)
    requires j < |s.flights| && s.flights[j].waiting != []
    ensures SameBuffer(s, Advance(s, j, ok))
  {
  }

  lemma StepKeepsOrder(s: Stream, step: Step)
    requires InOrder(s) && LogOk(s.log, s.nextSeq, s.status) && Enabled(s, step)
    ensures InOrder(Next(s, step))
  {
    match step
    case DoBegin(k) => BeginKeepsOrder(s, k);
    case DoAdvance(j, ok) => AdvanceKeepsOrder(s, j, ok);
    case DoAttach(q, since) =>
    case DoReplay(q) =>
  }

  /** What an eviction makes a reader pass over is in the log, or the new event. */
  lemma UpcomingInLog(s: Stream, r: Reader)
    requires BufferOk(s) && Between(r.skipped, 0, |s.log|)
    ensures Between(Shifted(s.events, s.nextSeq, r).skipped, 0, |s.log| + 1)
  {
    if r.mode.Replaying? && r.mode.at < |s.events| {
      assert s.events[r.mode.at] == s.log[Evicted(s) + r.mode.at];
    }
  }

  lemma BeginKeepsPending(s: Stream, k: Kind, c: Consumer)
    requires FlightsOk(s) && BufferOk(s) && InOrder(s) && c in s.readers && Pending(s, c)
    ensures Pending(Begin(s, k), c)
  {
    UpcomingInLog(s, s.readers[c]);
    var t, event, r := Begin(s, k), Event(s.nextSeq, k), s.readers[c];
    BeginReaders(s, k, c);
    BeginFields(s, k);
    forall j | Owes(t.flights, j, c) ensures t.flights[j].event !in t.readers[c].got && t.flights[j].event.seqNo > t.readers[c].from {
      if j < |s.flights| {
        assert t.flights[j] == s.flights[j] && Owes(s.flights, j, c);
      } else {
        assert t.flights[j] == Flight(event, s.listeners);
        BehindFirst(s.listeners, c);
        assert s.readers[c].mode.Listening?;
      }
    }
  }

  lemma BehindFirst(cs: seq<Consumer>, c: Consumer)
    requires |cs| > 1 && c in cs[1..] && Distinct(cs)
    ensures c != cs[0] && c in cs
  {
  }

  lemma AdvanceNotYet(flights: seq<Flight>, r: Reader, after: Reader, j: nat, c: Consumer)
    requires j < |flights| && flights[j].waiting != [] && Distinct(flights[j].waiting) && Rising(flights)
    requires NotYet(r, flights, c) && after.from == r.from
    requires after.got == r.got
      || (|flights[j].waiting| > 1 && c == flights[j].waiting[1] && after.got == r.got + [flights[j].event])
    ensures NotYet(after, AdvancedFlights(flights, j), c)
  {
    var now := AdvancedFlights(flights, j);
    forall i | Owes(now, i, c) ensures now[i].event !in after.got && now[i].event.seqNo > after.from {
      OwedBefore(flights, j, i, c);
    }
  }

  lemma AdvanceKeepsPending(s: Stream, j: nat, ok: bool, c: Consumer)
    requires j < |s.flights| && s.flights[j].waiting != [] && Distinct(s.flights[j].waiting)
    requires Rising(s.flights) && s.flights[j].event.seqNo <= |s.log|
    requires c in s.readers && Pending(s, c)
    ensures Pending(Advance(s, j, ok), c)
  {
    AdvanceReaders(s, j, ok, c);
    AdvanceFlights(s, j, ok);
    AdvanceNotYet(s.flights, s.readers[c], AdvancedReader(s, j, ok, s.readers[c], c), j, c);
  }

  lemma ReplayKeepsPending(s: Stream, q: Consumer, c: Consumer)
    requires FlightsOk(s) && BufferOk(s) && q in s.readers && s.readers[q].mode.Replaying?
    requires c in s.readers && Pending(s, c)
    ensures Pending(Replay(s, q), c)
  {
    NotWaiting(s, q);
    if c == q { assert forall j :: Owes(s.flights, j, c) ==> OwedIn(s.flights, c); }
  }

  lemma AttachKeepsPending(s: Stream, q: Consumer, since: nat, c: Consumer)
    requires FlightsOk(s) && q !in s.readers && Pending(s, c) && |s.events| <= |s.log|
    ensures Pending(Attach(s, q, since), c)
  {
    NotWaiting(s, q);
    if c == q { assert forall j :: Owes(s.flights, j, c) ==> OwedIn(s.flights, c); }
  }

  /** The parts of the invariant that concern `c`. */
  ghost predicate Sound(s: Stream, c: Consumer) {
    FlightsOk(s) && BufferOk(s) && InOrder(s) && Pending(s, c)
  }

  lemma StepKeepsPending(s: Stream, step: Step, c: Consumer)
    requires Sound(s, c) && Enabled(s, step)
    ensures Pending(Next(s, step), c)
  {
    match step
    case DoAttach(q, since) => AttachKeepsPending(s, q, since, c);
    case DoBegin(k) => if c in s.readers { BeginKeepsPending(s, k, c); } else { NoReaderAppears(s, step, c); }
    case DoReplay(q) => if c in s.readers { ReplayKeepsPending(s, q, c); } else { NoReaderAppears(s, step, c); }
    case DoAdvance(j, ok) =>
      if c in s.readers {
        EventInLog(s, j);
        AdvanceKeepsPending(s, j, ok, c);
      } else {
        NoReaderAppears(s, step, c);
      }
  }

  lemma EventInLog(s: Stream, j: nat)
    requires InOrder(s) && LogOk(s.log, s.nextSeq, s.status) && j < |s.flights|
    ensures s.flights[j].event.seqNo <= |s.log|
  {
  }

  lemma StepKeepsSound(s: Stream, step: Step, c: Consumer)
    requires Sound(s, c) && Enabled(s, step)
    ensures Sound(Next(s, step), c)
  {
    StepKeepsBuffer(s, step);
    StepKeepsFlights(s, step);
    StepKeepsOrder(s, step);
    StepKeepsPending(s, step, c);
  }

  lemma {:induction false} AlwaysSound(ss: seq<Stream>, steps: seq<Step>, n: nat, c: Consumer)
    requires Run(ss, steps) && n < |ss|
    ensures Sound(ss[n], c)
    decreases n
  {
    if n > 0 {
      AlwaysSound(ss, steps, n - 1, c);
      StepKeepsSound(ss[n - 1], steps[n - 1], c);
    }
  }

  // ---- To the end of one call ----------------------------------------------

  /** Append `i` of a finished turn goes on until `c` returns: then `c` is done, with at most this event more. */
  lemma {:induction false} CallReturns(s: Stream, i: nat, c: Consumer) returns (steps: seq<Step>)
    requires WaitersOk(s.flights, s.readers) && IsTerminalStatus(s.status)
    requires i < |s.flights| && c in s.flights[i].waiting && c in s.readers && s.readers[c].mode.Listening?
    ensures CanDo(s, steps)
    ensures var t := DoAll(s, steps); var r := s.readers[c];
      && c in t.readers && t.log == s.log
      && t.readers[c] == r.(mode := Resolved,
                            got := r.got + if c == s.flights[i].waiting[0] then [] else [s.flights[i].event])
    decreases |s.flights[i].waiting|
  {
    var w, t := s.flights[i].waiting, Advance(s, i, true);
    AdvanceReaders(s, i, true, c);
    if c == w[0] {
      steps := [DoAdvance(i, true)];
      DoFirst(s, DoAdvance(i, true), []);
    } else {
      assert w == [w[0]] + w[1..] && c in w[1..];
      AdvanceFlights(s, i, true);
      AdvanceKeepsWaiters(s, i, true);
      var more := CallReturns(t, i, c);
      DoFirst(s, DoAdvance(i, true), more);
      steps := [DoAdvance(i, true)] + more;
    }
  }

  // ---- What a clash costs --------------------------------------------------

  /** An event `c` should have got, and did not. */
  ghost predicate Misses(s: Stream, c: Consumer) {
    && c in s.readers && s.readers[c].mode.Resolved?
    && exists e :: e in Later(s.log, s.readers[c].base, s.readers[c].since, s.readers[c].skipped) && e !in s.readers[c].got
  }

  lemma FinishedClashLoses(s: Stream, i: nat, j: nat, c: Consumer) returns (steps: seq<Step>)
    requires Sound(s, c) && IsTerminalStatus(s.status)
    requires c in s.readers && s.readers[c].mode.Listening? && s.readers[c].since <= s.readers[c].from
    requires ClashAt(s.flights, c, i, j)
    ensures CanDo(s, steps) && Misses(DoAll(s, steps), c)
  {
    var r, missed := s.readers[c], s.flights[j].event;
    steps := CallReturns(s, i, c);
    var t := DoAll(s, steps);
    LaterIs(s.log, r.base, r.since, r.skipped);
    assert missed != s.flights[i].event;
    assert missed in Later(t.log, r.base, r.since, r.skipped) && missed !in t.readers[c].got;
  }

  /**
   A clash always matters: from every reachable state with one, there is a
   continuation after which the consumer is done and short of an event.
   */
  lemma ClashLoses(ss: seq<Stream>, steps: seq<Step>, n: nat, c: Consumer)
    requires Run(ss, steps) && n < |ss| && Clash(ss[n], c) && ss[n].readers[c].since <= ss[n].readers[c].from
    ensures exists more :: CanDo(ss[n], more) && Misses(DoAll(ss[n], more), c)
  {
    AlwaysSound(ss, steps, n, c);
    var i, j :| ClashAt(ss[n].flights, c, i, j);
    var more := ClashLosesFrom(ss[n], i, j, c);
  }

  /** The terminal event leaves the clash as it is. */
  lemma TurnEnds(s: Stream, i: nat, j: nat, c: Consumer)
    requires Distinct(s.listeners) && c in s.readers && s.readers[c].mode.Listening? && ClashAt(s.flights, c, i, j)
    ensures var t := Begin(s, TurnCompleted);
      && c in t.readers && t.readers[c].mode.Listening? && ClashAt(t.flights, c, i, j)
      && t.readers[c].since == s.readers[c].since && t.readers[c].from == s.readers[c].from
  {
    var t := Begin(s, TurnCompleted);
    BeginReaders(s, TurnCompleted, c);
    MoreFlights(s, TurnCompleted);
    assert t.flights[i] == s.flights[i] && t.flights[j] == s.flights[j];
  }

  lemma MoreFlights(s: Stream, k: Kind)
    ensures Begin(s, k).flights ==
      s.flights + if s.listeners == [] then [] else [Flight(Event(s.nextSeq, k), s.listeners)]
  {
  }

  lemma EndTurn(s: Stream, c: Consumer) returns (t: Stream)
    requires Sound(s, c) && !IsTerminalStatus(s.status)
    ensures t == Next(s, DoBegin(TurnCompleted)) && Sound(t, c) && IsTerminalStatus(t.status)
  {
    t := Next(s, DoBegin(TurnCompleted));
    StepKeepsSound(s, DoBegin(TurnCompleted), c);
    BeginFields(s, TurnCompleted);
  }

  lemma ClashLosesFrom(s: Stream, i: nat, j: nat, c: Consumer) returns (more: seq<Step>)
    requires Sound(s, c)
    requires c in s.readers && s.readers[c].mode.Listening? && s.readers[c].since <= s.readers[c].from
    requires ClashAt(s.flights, c, i, j)
    ensures CanDo(s, more) && Misses(DoAll(s, more), c)
  {
    if IsTerminalStatus(s.status) {
      more := FinishedClashLoses(s, i, j, c);
    } else {
      var t := EndTurn(s, c);
      TurnEnds(s, i, j, c);
      var rest := FinishedClashLoses(t, i, j, c);
      DoFirst(s, DoBegin(TurnCompleted), rest);
      more := [DoBegin(TurnCompleted)] + rest;
    }
  }
}
