/** What every consumer of a turn's stream gets. */
module RunnerDelivery {
  import opened RunnerStream

  /** The events from position `base` on whose number is greater than `since`, without the skipped ones. */
  function Later(log: seq<Event>, base: nat, since: nat, skipped: set<nat>): seq<Event> {
    if |log| <= base then []
    else
      var rest := Later(log[..|log| - 1], base, since, skipped);
      if log[|log| - 1].seqNo > since && log[|log| - 1].seqNo !in skipped then rest + [log[|log| - 1]] else rest
  }

  /** What a reader that listens from position `from` on should get of the log: the replay is filtered, live events are not. */
  function Due(log: seq<Event>, r: Reader): seq<Event>
    requires r.from <= |log|
  {
    Later(log[..r.from], r.base, r.since, r.skipped) + log[r.from..]
  }

  // ---- Structure -----------------------------------------------------------

  ghost predicate Distinct(cs: seq<Consumer>) {
    forall i, j :: 0 <= i < j < |cs| ==> cs[i] != cs[j]
  }

  ghost predicate FlightsOk(s: Stream) {
    && Distinct(s.listeners) && (forall c :: c in s.listeners ==> c in s.readers && s.readers[c].mode.Listening?)
    && (forall c :: c in s.readers && s.readers[c].mode.Listening? && !IsTerminalStatus(s.status) ==> c in s.listeners)
    && (forall j :: 0 <= j < |s.flights| ==>
          && s.flights[j].waiting != [] && Distinct(s.flights[j].waiting)
          && (forall c :: c in s.flights[j].waiting ==> c in s.readers && !s.readers[c].mode.Replaying?))
  }

  /** Flight `j` has still to call `c`. */
  predicate Owes(flights: seq<Flight>, j: int, c: Consumer) {
    0 <= j < |flights| && |flights[j].waiting| > 1 && c in flights[j].waiting[1..]
  }

  /** Two appends under way wait for `c`, and flight `j`, one of them, has still to call it. */
  ghost predicate ClashAt(flights: seq<Flight>, c: Consumer, i: int, j: int) {
    i != j && 0 <= i < |flights| && c in flights[i].waiting && Owes(flights, j, c)
  }

  ghost predicate Clash(s: Stream, c: Consumer) {
    c in s.readers && s.readers[c].mode.Listening? && exists i, j :: ClashAt(s.flights, c, i, j)
  }

  /** A flight that has still to call the listening `c` carries the last event. */
  ghost predicate CarriesLast(s: Stream, c: Consumer) {
    c in s.readers && s.readers[c].mode.Listening? ==>
      forall j :: Owes(s.flights, j, c) ==> s.log != [] && s.flights[j].event == s.log[|s.log| - 1]
  }

  ghost predicate Waits(flights: seq<Flight>, c: Consumer) {
    exists i :: 0 <= i < |flights| && c in flights[i].waiting
  }

  ghost predicate OwedIn(flights: seq<Flight>, c: Consumer) {
    exists i :: Owes(flights, i, c)
  }

  /** `c` is in an append under way. */
  ghost predicate InFlight(s: Stream, c: Consumer) {
    Waits(s.flights, c)
  }

  /** `c` has still to be called with the last event. */
  ghost predicate Owed(s: Stream, c: Consumer) {
    OwedIn(s.flights, c)
  }

  /** Numbers of events behind the first `base`, up to `at`. */
  predicate Between(numbers: set<nat>, base: nat, at: int) {
    forall n :: n in numbers ==> base < n <= at
  }

  /**
   What holds of a reader of a log of which the buffer holds the last `held`:
   `owed` the last event is still to come, `flying` it is in some append under
   way, `listed` it is among the listeners.
   */
  ghost predicate Fine(r: Reader, log: seq<Event>, held: nat, status: Status, owed: bool, flying: bool, listed: bool) {
    match r.mode
    case Replaying(at) =>
      && held <= |log| && at <= held && |r.skipped| == |log| - held - r.base
      && Between(r.skipped, r.base, |log| - held + at)
      && r.got == Later(log[..|log| - held + at], r.base, r.since, r.skipped)
    case Listening =>
      && r.base <= r.from <= |log| && Between(r.skipped, r.base, r.from)
      && (if owed then r.from < |log| && r.got == Due(log[..|log| - 1], r) else r.got == Due(log, r))
      && (if IsTerminalStatus(status) then flying else listed)
    case Resolved =>
      && r.base <= r.from <= |log| && Between(r.skipped, r.base, r.from)
      && IsTerminalStatus(status) && r.got == Due(log, r)
    case Rejected => true
  }

  ghost predicate ReaderOk(s: Stream, c: Consumer)
    requires c in s.readers
  {
    Fine(s.readers[c], s.log, |s.events|, s.status, Owed(s, c), InFlight(s, c), c in s.listeners)
  }

  // ---- Replaying -----------------------------------------------------------

  lemma LaterNext(log: seq<Event>, at: nat, base: nat, since: nat, skipped: set<nat>)
    requires base <= at < |log|
    ensures Later(log[..at + 1], base, since, skipped) ==
      Later(log[..at], base, since, skipped)
      + if log[at].seqNo > since && log[at].seqNo !in skipped then [log[at]] else []
  {
    assert log[..at + 1][..at] == log[..at];
  }

  lemma NotWaiting(s: Stream, c: Consumer)
    requires FlightsOk(s) && (c !in s.readers || s.readers[c].mode.Replaying?)
    ensures !InFlight(s, c) && !Owed(s, c) && c !in s.listeners
  {
    forall j | 0 <= j < |s.flights| ensures c !in s.flights[j].waiting && c !in s.flights[j].waiting[1..] {
    }
  }

  /** The reader after one turn of the replay loop. */
  function NextReader(r: Reader, events: seq<Event>): Reader
    requires r.mode.Replaying? && r.mode.at < |events|
  {
    var event := events[r.mode.at];
    r.(mode := Replaying(r.mode.at + 1), got := if event.seqNo > r.since then r.got + [event] else r.got)
  }

  lemma ReplayOne(r: Reader, log: seq<Event>, events: seq<Event>, limit: nat, status: Status)
    requires WindowOk(events, log, limit) && r.mode.Replaying? && r.mode.at < |events|
    requires events[r.mode.at].seqNo == |log| - |events| + r.mode.at + 1
    requires Fine(r, log, |events|, status, false, false, false)
    ensures Fine(NextReader(r, events), log, |events|, status, false, false, false)
  {
    var at := |log| - |events| + r.mode.at;
    LaterNext(log, at, r.base, r.since, r.skipped);
    assert events[r.mode.at] == log[at];
  }

  lemma ReplayEnds(r: Reader, log: seq<Event>, events: seq<Event>, limit: nat, status: Status)
    requires WindowOk(events, log, limit) && r.mode.Replaying? && r.mode.at >= |events|
    requires Fine(r, log, |events|, status, false, false, false)
    ensures IsTerminalStatus(status) ==>
      Fine(r.(from := |log|, mode := Resolved), log, |events|, status, false, false, false)
    ensures !IsTerminalStatus(status) ==>
      Fine(r.(from := |log|, mode := Listening), log, |events|, status, false, false, true)
  {
    assert log[..|log|] == log && log[|log|..] == [];
  }

  lemma SameFlights(s: Stream, t: Stream, c: Consumer)
    requires t.flights == s.flights
    ensures Owed(t, c) == Owed(s, c) && InFlight(t, c) == InFlight(s, c)
  {
  }

  lemma ReplayReader(s: Stream, c: Consumer)
    requires BufferOk(s) && FlightsOk(s)
    requires c in s.readers && s.readers[c].mode.Replaying? && ReaderOk(s, c)
    ensures ReaderOk(Replay(s, c), c)
  {
    NotWaiting(s, c);
    if s.readers[c].mode.at < |s.events| {
      assert s.events[s.readers[c].mode.at] == s.log[Evicted(s) + s.readers[c].mode.at];
      NextReplay(s, c);
    } else {
      LastReplay(s, c);
    }
  }

  lemma NextReplay(s: Stream, c: Consumer)
    requires WindowOk(s.events, s.log, s.limit) && c !in s.listeners && !Owed(s, c) && !InFlight(s, c)
    requires c in s.readers && s.readers[c].mode.Replaying? && s.readers[c].mode.at < |s.events| && ReaderOk(s, c)
    requires s.events[s.readers[c].mode.at].seqNo == Evicted(s) + s.readers[c].mode.at + 1
    ensures ReaderOk(Replay(s, c), c)
  {
    ReplayFields(s, c);
    ReplayOne(s.readers[c], s.log, s.events, s.limit, s.status);
  }

  lemma ReplayFields(s: Stream, c: Consumer)
    requires c in s.readers && s.readers[c].mode.Replaying? && s.readers[c].mode.at < |s.events|
    ensures var t := Replay(s, c);
      && c in t.readers && t.readers[c] == NextReader(s.readers[c], s.events)
      && t.log == s.log && t.events == s.events && t.status == s.status && t.flights == s.flights && t.listeners == s.listeners
  {
  }

  lemma LastReplay(s: Stream, c: Consumer)
    requires WindowOk(s.events, s.log, s.limit) && c !in s.listeners && !Owed(s, c) && !InFlight(s, c)
    requires c in s.readers && s.readers[c].mode.Replaying? && s.readers[c].mode.at >= |s.events| && ReaderOk(s, c)
    ensures ReaderOk(Replay(s, c), c)
  {
    SameFlights(s, Replay(s, c), c);
    ReplayEnds(s.readers[c], s.log, s.events, s.limit, s.status);
  }

  // ---- Appending -----------------------------------------------------------

  /** A new event, seen by a reader that is called with it at once, or owed it. */
  lemma DueGrows(log: seq<Event>, event: Event, r: Reader)
    requires r.from <= |log|
    ensures Due(log + [event], r) == Due(log, r) + [event]
    ensures (log + [event])[..|log|] == log
  {
    assert (log + [event])[..r.from] == log[..r.from];
    assert (log + [event])[r.from..] == log[r.from..] + [event];
  }

  lemma NoneOwedBefore(s: Stream, k: Kind, c: Consumer)
    requires c in s.listeners && !(exists i, j :: ClashAt(Begin(s, k).flights, c, i, j))
    ensures forall j :: !Owes(s.flights, j, c)
    ensures forall j :: Owes(Begin(s, k).flights, j, c) <==> j == |s.flights| && c in s.listeners[1..]
    ensures InFlight(Begin(s, k), c)
  {
    var t := Begin(s, k);
    var last := |s.flights|;
    assert t.flights == s.flights + [Flight(Event(s.nextSeq, k), s.listeners)];
    assert t.flights[last].waiting == s.listeners;
    forall j ensures !Owes(s.flights, j, c) {
      if Owes(s.flights, j, c) {
        assert t.flights[j] == s.flights[j];
        assert ClashAt(t.flights, c, last, j);
      }
    }
    forall j ensures Owes(t.flights, j, c) <==> j == last && c in s.listeners[1..] {
      if 0 <= j < last { assert t.flights[j] == s.flights[j] && !Owes(s.flights, j, c); }
    }
  }

  /** A reader right after an append began. */
  function BegunReader(s: Stream, k: Kind, r: Reader, c: Consumer): Reader {
    if r.mode.Replaying? then (if |s.events| + 1 > s.limit then Shifted(s.events, s.nextSeq, r) else r)
    else if r.mode.Listening? && s.listeners != [] && c == s.listeners[0] then r.(got := r.got + [Event(s.nextSeq, k)])
    else r
  }

  lemma BeginReaders(s: Stream, k: Kind, c: Consumer)
    requires c in s.readers && Distinct(s.listeners)
    ensures c in Begin(s, k).readers && Begin(s, k).readers[c] == BegunReader(s, k, s.readers[c], c)
    ensures s.listeners == [] ==> Begin(s, k).flights == s.flights
    ensures Begin(s, k).listeners == s.listeners
  {
  }

  lemma ReplayingThroughAppend(r: Reader, log: seq<Event>, held: nat, event: Event, status: Status, after: Status)
    requires r.mode.Replaying? && Fine(r, log, held, status, false, false, false)
    ensures Fine(r, log + [event], held + 1, after, false, false, false)
  {
    var at := |log| - held + r.mode.at;
    assert (log + [event])[..at] == log[..at];
  }

  lemma BeginKeepsReader(s: Stream, k: Kind, c: Consumer)
    requires BufferOk(s) && FlightsOk(s) && !IsTerminalStatus(s.status) && !Clash(Begin(s, k), c)
    requires c in s.readers && ReaderOk(s, c)
    ensures var t := Begin(s, k); c in t.readers && ReaderOk(t, c)
  {
    BeginReaders(s, k, c);
    match s.readers[c].mode
    case Replaying(at) => BeginReplaying(s, k, c);
    case Listening => BeginListening(s, k, c);
    case _ =>
  }

  lemma BeginReplaying(s: Stream, k: Kind, c: Consumer)
    requires BufferOk(s) && FlightsOk(s) && c in s.readers && s.readers[c].mode.Replaying? && ReaderOk(s, c)
    ensures c in Begin(s, k).readers && ReaderOk(Begin(s, k), c)
  {
    var t, event := Begin(s, k), Event(s.nextSeq, k);
    BeginReaders(s, k, c);
    BeginFields(s, k);
    NotWaiting(s, c);
    BeginWaits(s, k, c);
    if |s.events| + 1 > s.limit {
      ReplayingThroughEviction(s, s.readers[c], event, t.status);
    } else {
      ReplayingThroughAppend(s.readers[c], s.log, |s.events|, event, s.status, t.status);
    }
  }

  /** An eviction moves the reader one event on, without giving it that event. */
  lemma ReplayingThroughEviction(s: Stream, r: Reader, event: Event, after: Status)
    requires BufferOk(s) && |s.events| == s.limit && event.seqNo == s.nextSeq
    requires r.mode.Replaying? && Fine(r, s.log, |s.events|, s.status, false, false, false)
    ensures Fine(Shifted(s.events, s.nextSeq, r), s.log + [event], |s.events|, after, false, false, false)
  {
    var longer, at := s.log + [event], Evicted(s) + r.mode.at;
    assert longer[at].seqNo == at + 1;
    if r.mode.at < |s.events| { assert s.events[r.mode.at] == s.log[at]; }
    assert longer[..at] == s.log[..at];
    LaterNext(longer, at, r.base, r.since, Shifted(s.events, s.nextSeq, r).skipped);
    SkipsBeyond(s.log[..at], r.base, r.since, r.skipped, at + 1);
  }

  /** To skip a number that does not occur changes nothing. */
  lemma {:induction false} SkipsBeyond(log: seq<Event>, base: nat, since: nat, skipped: set<nat>, n: nat)
    requires forall i :: 0 <= i < |log| ==> log[i].seqNo != n
    ensures Later(log, base, since, skipped + {n}) == Later(log, base, since, skipped)
  {
    if |log| > base { SkipsBeyond(log[..|log| - 1], base, since, skipped, n); }
  }

  /** Who is not a listener is not waited for anew. */
  lemma BeginWaits(s: Stream, k: Kind, c: Consumer)
    requires c !in s.listeners && !InFlight(s, c) && !Owed(s, c)
    ensures !InFlight(Begin(s, k), c) && !Owed(Begin(s, k), c)
  {
    var t := Begin(s, k);
    forall i | 0 <= i < |t.flights| ensures c !in t.flights[i].waiting && !Owes(t.flights, i, c) {
      if i < |s.flights| { assert t.flights[i] == s.flights[i] && !Owes(s.flights, i, c); }
    }
  }

  lemma BeginListening(s: Stream, k: Kind, c: Consumer)
    requires FlightsOk(s) && !IsTerminalStatus(s.status) && !Clash(Begin(s, k), c)
    requires c in s.readers && s.readers[c].mode.Listening? && ReaderOk(s, c)
    ensures c in Begin(s, k).readers && ReaderOk(Begin(s, k), c)
  {
    var t, r, event := Begin(s, k), s.readers[c], Event(s.nextSeq, k);
    BeginReaders(s, k, c);
    BeginFields(s, k);
    NoneOwedBefore(s, k, c);
    DueGrows(s.log, event, r);
    var i :| 0 <= i < |s.listeners| && s.listeners[i] == c;
    assert i > 0 ==> s.listeners[1..][i - 1] == c;
    assert Owed(t, c) ==> Owes(t.flights, |s.flights|, c);
    assert c in s.listeners[1..] ==> Owes(t.flights, |s.flights|, c);
  }

  lemma BeginKeepsLast(s: Stream, k: Kind, c: Consumer)
    requires FlightsOk(s) && !IsTerminalStatus(s.status) && !Clash(Begin(s, k), c) && c in s.readers
    ensures CarriesLast(Begin(s, k), c)
  {
    BeginReaders(s, k, c);
    BeginFields(s, k);
    if s.readers[c].mode.Listening? { NoneOwedBefore(s, k, c); }
  }

  // ---- A listener returns --------------------------------------------------

  /** The reader after flight `j` advanced. */
  function AdvancedReader(s: Stream, j: nat, ok: bool, r: Reader, c: Consumer): Reader
    requires j < |s.flights| && s.flights[j].waiting != []
  {
    var f := s.flights[j];
    if !r.mode.Listening? then r
    else if c == f.waiting[0] then
      if !ok || IsTerminalStatus(s.status) then r.(mode := if ok then Resolved else Rejected) else r
    else if |f.waiting| > 1 && c == f.waiting[1] then r.(got := r.got + [f.event])
    else r
  }

  lemma AdvanceReaders(s: Stream, j: nat, ok: bool, c: Consumer)
    requires j < |s.flights| && s.flights[j].waiting != [] && Distinct(s.flights[j].waiting)
    requires c in s.readers
    ensures c in Advance(s, j, ok).readers && Advance(s, j, ok).readers[c] == AdvancedReader(s, j, ok, s.readers[c], c)
    ensures SameBuffer(s, Advance(s, j, ok))
  {
  }

  lemma {:induction false} WithoutKeeps(listeners: seq<Consumer>, h: Consumer)
    requires Distinct(listeners)
    ensures Distinct(Without(listeners, h))
    ensures forall c :: c in Without(listeners, h) <==> c in listeners && c != h
  {
    if listeners != [] {
      assert listeners == [listeners[0]] + listeners[1..];
      WithoutKeeps(listeners[1..], h);
      var rest := Without(listeners[1..], h);
      if listeners[0] != h {
        forall i, k | 0 <= i < k < |[listeners[0]] + rest| ensures ([listeners[0]] + rest)[i] != ([listeners[0]] + rest)[k] {
          if i == 0 { assert rest[k - 1] in listeners[1..]; }
        }
      }
    }
  }

  predicate Leaves(s: Stream, j: nat, ok: bool, c: Consumer)
    requires j < |s.flights| && s.flights[j].waiting != []
  {
    && c in s.readers && s.readers[c].mode.Listening? && c == s.flights[j].waiting[0]
    && (!ok || IsTerminalStatus(s.status))
  }

  lemma AdvanceListeners(s: Stream, j: nat, ok: bool, c: Consumer)
    requires j < |s.flights| && s.flights[j].waiting != [] && Distinct(s.listeners)
    ensures Distinct(Advance(s, j, ok).listeners)
    ensures c in Advance(s, j, ok).listeners ==> c in s.listeners
    ensures !IsTerminalStatus(s.status) && c in s.listeners && (ok || c != s.flights[j].waiting[0]) ==>
      c in Advance(s, j, ok).listeners
    ensures Leaves(s, j, ok, c) ==> c !in Advance(s, j, ok).listeners
  {
    WithoutKeeps(s.listeners, s.flights[j].waiting[0]);
  }

  function AdvancedFlights(flights: seq<Flight>, j: nat): seq<Flight>
    requires j < |flights| && flights[j].waiting != []
  {
    if |flights[j].waiting| == 1 then flights[..j] + flights[j + 1..]
    else flights[j := Flight(flights[j].event, flights[j].waiting[1..])]
  }

  lemma AdvanceFlights(s: Stream, j: nat, ok: bool)
    requires j < |s.flights| && s.flights[j].waiting != []
    ensures Advance(s, j, ok).flights == AdvancedFlights(s.flights, j)
  {
  }

  /** Who still waits after flight `j` advanced. */
  lemma StillWaits(flights: seq<Flight>, j: nat, c: Consumer)
    requires j < |flights| && flights[j].waiting != [] && c != flights[j].waiting[0]
    ensures Waits(AdvancedFlights(flights, j), c) <==> Waits(flights, c)
  {
    var after := AdvancedFlights(flights, j);
    var w := flights[j].waiting;
    assert w == [w[0]] + w[1..];
    if Waits(flights, c) {
      var i :| 0 <= i < |flights| && c in flights[i].waiting;
      if |w| == 1 {
        assert i != j;
        assert after[if i < j then i else i - 1] == flights[i];
      } else if i == j {
        assert c in w[1..] && after[j].waiting == w[1..];
      } else {
        assert after[i] == flights[i];
      }
    }
    if Waits(after, c) {
      var i :| 0 <= i < |after| && c in after[i].waiting;
      if |w| == 1 {
        assert after[i] == flights[if i < j then i else i + 1];
      } else if i == j {
        assert c in flights[j].waiting;
      } else {
        assert after[i] == flights[i];
      }
    }
  }

  /** Where flight `i` is once flight `j` advanced. */
  function Moved(flights: seq<Flight>, j: nat, i: int): int
    requires j < |flights| && flights[j].waiting != []
  {
    if |flights[j].waiting| == 1 && i > j then i - 1 else i
  }

  /** Of the other flights nothing changes. */
  lemma OthersOwe(flights: seq<Flight>, j: nat, i: int, c: Consumer)
    requires j < |flights| && flights[j].waiting != [] && i != j
    ensures Owes(AdvancedFlights(flights, j), Moved(flights, j, i), c) <==> Owes(flights, i, c)
  {
  }

  /** The flight that advanced no longer owes its next listener. */
  lemma OwnOwes(flights: seq<Flight>, j: nat, c: Consumer)
    requires j < |flights| && Distinct(flights[j].waiting) && |flights[j].waiting| > 1
    ensures Owes(AdvancedFlights(flights, j), j, c) <==> Owes(flights, j, c) && c != flights[j].waiting[1]
  {
    var w := flights[j].waiting;
    assert w[1..] == [w[1]] + w[1..][1..];
    forall k | 0 <= k < |w[1..][1..]| ensures w[1..][1..][k] == w[k + 2] && w[1..][1..][k] != w[1] { }
  }

  /** Which flight it was before flight `j` advanced. */
  function Before(flights: seq<Flight>, j: nat, i: int): int
    requires j < |flights|
  {
    if |flights[j].waiting| == 1 && i >= j then i + 1 else i
  }

  /** Advancing makes no flight owe anybody anew. */
  lemma OwedBefore(flights: seq<Flight>, j: nat, i: int, c: Consumer)
    requires j < |flights| && flights[j].waiting != [] && Distinct(flights[j].waiting)
    ensures Owes(AdvancedFlights(flights, j), i, c) ==>
      Owes(flights, Before(flights, j, i), c)
      && AdvancedFlights(flights, j)[i].event == flights[Before(flights, j, i)].event
  {
    var was := Before(flights, j, i);
    if was != j {
      OthersOwe(flights, j, was, c);
    } else if |flights[j].waiting| > 1 {
      OwnOwes(flights, j, c);
    }
  }

  /** Who is still owed, unless there is a clash: those behind the next listener. */
  lemma StillOwed(flights: seq<Flight>, j: nat, c: Consumer)
    requires j < |flights| && flights[j].waiting != [] && Distinct(flights[j].waiting)
    requires !(exists i, k :: ClashAt(flights, c, i, k))
    ensures c == flights[j].waiting[0] ==> !OwedIn(flights, c)
    ensures OwedIn(AdvancedFlights(flights, j), c) <==>
      OwedIn(flights, c) && !(|flights[j].waiting| > 1 && c == flights[j].waiting[1])
  {
    var after := AdvancedFlights(flights, j);
    var w := flights[j].waiting;
    if i :| Owes(flights, i, c) {
      assert i != j && c in w ==> ClashAt(flights, c, j, i);
      if |w| > 1 { OwnOwes(flights, j, c); }
      if i != j { OthersOwe(flights, j, i, c); }
    }
    if i :| Owes(after, i, c) {
      var was := Before(flights, j, i);
      OwedBefore(flights, j, i, c);
      if was == j { OwnOwes(flights, j, c); }
      assert was != j && c in w ==> ClashAt(flights, c, j, was);
    }
  }

  /** The returning listener `c` has everything; the next one gets what it is owed. */
  lemma AdvancedFine(s: Stream, j: nat, ok: bool, c: Consumer)
    requires FlightsOk(s) && !Clash(s, c) && j < |s.flights| && CarriesLast(s, c)
    requires c in s.readers && s.readers[c].mode.Listening? && ReaderOk(s, c)
    ensures var t := Advance(s, j, ok);
      Fine(AdvancedReader(s, j, ok, s.readers[c], c), s.log, |s.events|, s.status, Owed(t, c), InFlight(t, c), c in t.listeners)
  {
    var w := s.flights[j].waiting;
    AdvanceFlights(s, j, ok);
    AdvanceListeners(s, j, ok, c);
    StillOwed(s.flights, j, c);
    if c != w[0] {
      StillWaits(s.flights, j, c);
      if |w| > 1 && c == w[1] {
        assert w[1..][0] == c;
        NextGetsLast(s.log, s.readers[c], s.flights[j].event);
      }
    }
  }

  lemma NextGetsLast(log: seq<Event>, r: Reader, event: Event)
    requires r.from < |log| && event == log[|log| - 1] && r.got == Due(log[..|log| - 1], r)
    ensures r.got + [event] == Due(log, r)
  {
    var front := log[..|log| - 1];
    assert log == front + [event];
    DueGrows(front, event, r);
  }

  lemma AdvanceKeepsReader(s: Stream, j: nat, ok: bool, c: Consumer)
    requires FlightsOk(s) && !Clash(s, c) && j < |s.flights| && CarriesLast(s, c)
    requires c in s.readers && ReaderOk(s, c)
    ensures var t := Advance(s, j, ok); c in t.readers && ReaderOk(t, c)
  {
    AdvanceReaders(s, j, ok, c);
    if s.readers[c].mode.Listening? {
      AdvancedFine(s, j, ok, c);
    }
  }

  lemma AdvanceKeepsLast(s: Stream, j: nat, ok: bool, c: Consumer)
    requires FlightsOk(s) && j < |s.flights| && CarriesLast(s, c) && c in s.readers
    ensures CarriesLast(Advance(s, j, ok), c)
  {
    AdvanceReaders(s, j, ok, c);
    AdvanceFlights(s, j, ok);
    var t := Advance(s, j, ok);
    forall i | Owes(t.flights, i, c) && t.readers[c].mode.Listening?
      ensures s.log != [] && t.flights[i].event == s.log[|s.log| - 1]
    {
      OwedBefore(s.flights, j, i, c);
    }
  }
}
