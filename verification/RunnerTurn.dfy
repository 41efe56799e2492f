/** The stream as the runner keeps it: pushes, splices and listeners changed in place. */
module RunnerTurn {
  import opened RunnerStream

  class TurnStream {
    const limit: nat
    var status: Status
    var nextSeq: nat
    var events: seq<Event>
    ghost var log: seq<Event>
    var listeners: seq<Consumer>
    var flights: seq<Flight>
    var readers: map<Consumer, Reader>
    /** The turn is still in `activeTurns`, and nobody began to finish it. */
    var active: bool
    var finalized: bool

    constructor (limit: nat)
      ensures Contents() == Initial(limit) && active && !finalized
    {
      this.limit := limit;
      status, nextSeq, events, log := Queued, 1, [], [];
      listeners, flights, readers := [], [], map[];
      active, finalized := true, false;
    }

    ghost function Contents(): Stream
      reads this
    {
      Stream(limit, status, nextSeq, events, log, listeners, flights, readers)
    }

    /** A terminal event is in the log only once the turn was finalized. */
    ghost predicate Valid()
      reads this
    {
      BufferOk(Contents()) && (IsTerminalStatus(status) ==> finalized)
    }

    method PushEvent(k: Kind)
      modifies this`status, this`nextSeq, this`events, this`log, this`readers
      ensures Contents() == Push(old(Contents()), k)
    {
      status := Queued;
      status := MapStatus(k, status);
      var event := Event(nextSeq, k);
      var evicts := |events| + 1 > limit;
      readers := map c | c in readers :: if evicts then Shifted(events, nextSeq, readers[c]) else readers[c];
      nextSeq := nextSeq + 1;
      events := events + [event];
      log := log + [event];
      if |events| > limit { events := events[|events| - limit..]; }
    }

    /** The part of `appendTurnEvent` up to the first wait: the event is stored and the first listener called. */
    method AppendTurnEvent(k: Kind)
      modifies this`status, this`nextSeq, this`events, this`log, this`flights, this`readers
      ensures Contents() == Begin(old(Contents()), k)
      ensures old(Valid() && !finalized) ==> Enabled(old(Contents()), DoBegin(k))
      ensures old(Valid() && !IsTerminalStatus(status)) ==>
        BufferOk(Contents()) && (finalized || !IsTerminal(k) ==> Valid())
    {
      ghost var before := Contents();
      if Valid() && !IsTerminalStatus(status) { BeginKeepsBuffer(before, k); }
      var event := Event(nextSeq, k);
      PushEvent(k);
      if |listeners| > 0 {
        flights := flights + [Flight(event, listeners)];
        CallListener(listeners[0], event);
      }
    }

    method CallListener(c: Consumer, event: Event)
      modifies this`readers
      ensures Contents() == Call(old(Contents()), c, event)
    {
      if c in readers && readers[c].mode.Listening? {
        readers := readers[c := readers[c].(got := readers[c].got + [event])];
      }
    }

    /** A listener's `finish`, or its failure. */
    method FinishListener(c: Consumer, ok: bool)
      modifies this`readers, this`listeners
      ensures Contents() == Settle(old(Contents()), c, ok)
    {
      if c in readers && readers[c].mode.Listening? && (!ok || IsTerminalStatus(status)) {
        readers := readers[c := readers[c].(mode := if ok then Resolved else Rejected)];
        listeners := Without(listeners, c);
      }
    }

    /** The rest of append number `j`: on to its next listener, or to its end. */
    method ListenerReturned(j: nat, ok: bool)
      requires j < |flights| && flights[j].waiting != []
      modifies this`readers, this`listeners, this`flights
      ensures Contents() == Advance(old(Contents()), j, ok)
      ensures Enabled(old(Contents()), DoAdvance(j, ok)) && (old(Valid()) ==> Valid())
    {
      OthersKeepBuffer(Contents(), DoAdvance(j, ok));
      var flight := flights[j];
      FinishListener(flight.waiting[0], ok);
      if |flight.waiting| == 1 {
        flights := flights[..j] + flights[j + 1..];
        if IsTerminalStatus(status) { listeners := []; }
      } else {
        flights := flights[j := Flight(flight.event, flight.waiting[1..])];
        CallListener(flight.waiting[1], flight.event);
      }
    }

    /** A terminal event is appended at most once, by the first to finish the turn. */
    method FinalizeTurn(k: Kind)
      requires Valid() && IsTerminal(k)
      modifies this
      ensures Valid()
      ensures old(active && !finalized) ==> Enabled(old(Contents()), DoBegin(k))
      ensures if old(active && !finalized) then !active && finalized && Contents() == Begin(old(Contents()), k)
              else active == old(active) && finalized == old(finalized) && Contents() == old(Contents())
    {
      if !active || finalized { return; }
      finalized := true;
      active := false;
      BeginKeepsBuffer(Contents(), k);
      AppendTurnEvent(k);
    }

    /** `consumeTurnEvents` begins: an iterator over the buffer. */
    method BeginReplay(c: Consumer, since: nat)
      requires BufferOk(Contents())
      modifies this`readers
      ensures Contents() == Attach(old(Contents()), c, since)
    {
      readers := readers[c := Reader(since, nextSeq - 1 - |events|, Replaying(0), 0, [], {})];
    }

    /** One turn of the loop over the buffer, or, behind its last event, the end or the listener. */
    method ReplayNext(c: Consumer)
      requires BufferOk(Contents()) && c in readers && readers[c].mode.Replaying?
      modifies this`readers, this`listeners
      ensures Contents() == Replay(old(Contents()), c)
    {
      var r := readers[c];
      if r.mode.at < |events| {
        var event := events[r.mode.at];
        r := r.(mode := Replaying(r.mode.at + 1));
        if event.seqNo > r.since { r := r.(got := r.got + [event]); }
        readers := readers[c := r];
        return;
      }
      r := r.(from := nextSeq - 1);
      if IsTerminalStatus(status) {
        readers := readers[c := r.(mode := Resolved)];
      } else {
        readers, listeners := readers[c := r.(mode := Listening)], listeners + [c];
      }
    }

    /** Every step of the runs in place, so what the runs guarantee holds of this stream. */
    method Perform(step: Step)
      requires BufferOk(Contents()) && Enabled(Contents(), step)
      modifies this
      ensures Contents() == Next(old(Contents()), step) && BufferOk(Contents())
    {
      ghost var before := Contents();
      match step {
        case DoBegin(k) => AppendTurnEvent(k);
        case DoAdvance(j, ok) => ListenerReturned(j, ok);
        case DoAttach(c, since) => BeginReplay(c, since);
        case DoReplay(c) => ReplayNext(c);
      }
      assert Contents() == Next(before, step);
      StepKeepsBuffer(before, step);
    }
  }
}
