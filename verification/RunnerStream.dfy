/**
 A turn's event stream in the embedded runner: a bounded buffer, and consumers
 that first replay it and then listen.
 */
module RunnerStream {
  datatype Status = Queued | Running | WaitingApproval | Completed | Failed | Cancelled

  datatype Kind = Started | ApprovalRequested | ApprovalResolved | TurnCompleted | TurnFailed | TurnCancelled | Plain

  predicate IsTerminalStatus(s: Status) {
    s == Completed || s == Failed || s == Cancelled
  }

  predicate IsTerminal(k: Kind) {
    k == TurnCompleted || k == TurnFailed || k == TurnCancelled
  }

  function MapStatus(k: Kind, current: Status): Status {
    match k
    case Started => Running
    case ApprovalRequested => WaitingApproval
    case ApprovalResolved => Running
    case TurnCompleted => Completed
    case TurnFailed => Failed
    case TurnCancelled => Cancelled
    case Plain => current
  }

  datatype Event = Event(seqNo: nat, kind: Kind)

  type Consumer = nat

  /** `Replaying(at)`: the buffer's iterator stands at index `at`. */
  datatype Mode = Replaying(at: nat) | Listening | Resolved | Rejected

  /**
   `got` is what was passed to the consumer's callback. `base` counts the events
   evicted before it attached, `from` those appended before it began to listen,
   and `skipped` has the numbers of the events that its replay passed over.
   */
  datatype Reader = Reader(since: nat, base: nat, mode: Mode, from: nat, got: seq<Event>, skipped: set<nat>)

  /** An append under way: its listeners are called one after another; the first one was called already. */
  datatype Flight = Flight(event: Event, waiting: seq<Consumer>)

  /** `log` is every event ever appended; the stream itself keeps only `events`. */
  datatype Stream = Stream(
    limit: nat,
    status: Status,
    nextSeq: nat,
    events: seq<Event>,
    log: seq<Event>,
    listeners: seq<Consumer>,
    flights: seq<Flight>,
    readers: map<Consumer, Reader>)

  function Initial(limit: nat): Stream {
    Stream(limit, Queued, 1, [], [], [], [], map[])
  }

  function Evicted(s: Stream): int {
    |s.log| - |s.events|
  }

  // ---- Appending -----------------------------------------------------------

  /** The last `limit` events. */
  function Bounded(events: seq<Event>, limit: nat): seq<Event> {
    if |events| > limit then events[|events| - limit..] else events
  }

  /**
   A replay goes on at the same index, so an eviction makes it pass over the event
   that was next, be it the new one.
   */
  function Shifted(events: seq<Event>, nextSeq: nat, r: Reader): Reader {
    if r.mode.Replaying? then
      r.(skipped := r.skipped + {if r.mode.at < |events| then events[r.mode.at].seqNo else nextSeq})
    else r
  }

  function Push(s: Stream, k: Kind): Stream {
    var event := Event(s.nextSeq, k);
    var events := Bounded(s.events + [event], s.limit);
    var evicts := |s.events| + 1 > s.limit;
    s.(status := MapStatus(k, Queued), nextSeq := s.nextSeq + 1, events := events, log := s.log + [event],
       readers := map c | c in s.readers :: if evicts then Shifted(s.events, s.nextSeq, s.readers[c]) else s.readers[c])
  }

  /** Calling a listener that is settled does nothing. */
  function Call(s: Stream, c: Consumer, event: Event): Stream {
    if c in s.readers && s.readers[c].mode.Listening? then
      s.(readers := s.readers[c := s.readers[c].(got := s.readers[c].got + [event])])
    else s
  }

  function Without(listeners: seq<Consumer>, c: Consumer): seq<Consumer> {
    if listeners == [] then []
    else if listeners[0] == c then Without(listeners[1..], c)
    else [listeners[0]] + Without(listeners[1..], c)
  }

  /** Start an append: the first listener is called at once. */
  function Begin(s: Stream, k: Kind): Stream {
    var pushed := Push(s, k);
    var event := Event(s.nextSeq, k);
    if s.listeners == [] then pushed
    else Call(pushed.(flights := pushed.flights + [Flight(event, s.listeners)]), s.listeners[0], event)
  }

  /** The listener's callback is done; with a terminal status the consumer is done too. */
  function Settle(s: Stream, c: Consumer, ok: bool): Stream {
    if c in s.readers && s.readers[c].mode.Listening? && (!ok || IsTerminalStatus(s.status)) then
      s.(readers := s.readers[c := s.readers[c].(mode := if ok then Resolved else Rejected)],
         listeners := Without(s.listeners, c))
    else s
  }

  /** Flight `j`: the listener being awaited returns, and the next one is called, or the append ends. */
  function Advance(s: Stream, j: nat, ok: bool): Stream
    requires j < |s.flights| && s.flights[j].waiting != []
  {
    var flight := s.flights[j];
    var settled := Settle(s, flight.waiting[0], ok);
    if |flight.waiting| == 1 then
      settled.(flights := s.flights[..j] + s.flights[j + 1..],
               listeners := if IsTerminalStatus(s.status) then [] else settled.listeners)
    else
      Call(settled.(flights := s.flights[j := Flight(flight.event, flight.waiting[1..])]), flight.waiting[1], flight.event)
  }

  // ---- Consuming -----------------------------------------------------------

  function Attach(s: Stream, c: Consumer, since: nat): Stream {
    s.(readers := s.readers[c := Reader(since, if Evicted(s) >= 0 then Evicted(s) else 0, Replaying(0), 0, [], {})])
  }

  /** One turn of the replay loop; after the last event the consumer is done, or starts to listen. */
  function Replay(s: Stream, c: Consumer): Stream
    requires c in s.readers && s.readers[c].mode.Replaying?
  {
    var r := s.readers[c];
    if r.mode.at < |s.events| then
      var event := s.events[r.mode.at];
      s.(readers := s.readers[c := r.(mode := Replaying(r.mode.at + 1),
                                      got := if event.seqNo > r.since then r.got + [event] else r.got)])
    else
      var done := r.(from := |s.log|);
      if IsTerminalStatus(s.status) then s.(readers := s.readers[c := done.(mode := Resolved)])
      else s.(readers := s.readers[c := done.(mode := Listening)], listeners := s.listeners + [c])
  }

  // ---- Runs ----------------------------------------------------------------

  datatype Step =
    | DoBegin(kind: Kind)
    | DoAdvance(j: nat, ok: bool)
    | DoAttach(c: Consumer, since: nat)
    | DoReplay(c: Consumer)

  /** Nothing is appended after a terminal event. */
  predicate Enabled(s: Stream, step: Step) {
    match step
    case DoBegin(_) => !IsTerminalStatus(s.status)
    case DoAdvance(j, _) => j < |s.flights| && s.flights[j].waiting != []
    case DoAttach(c, _) => c !in s.readers
    case DoReplay(c) => c in s.readers && s.readers[c].mode.Replaying?
  }

  function Next(s: Stream, step: Step): Stream
    requires Enabled(s, step)
  {
    match step
    case DoBegin(k) => Begin(s, k)
    case DoAdvance(j, ok) => Advance(s, j, ok)
    case DoAttach(c, since) => Attach(s, c, since)
    case DoReplay(c) => Replay(s, c)
  }

  ghost predicate Run(ss: seq<Stream>, steps: seq<Step>) {
    && |ss| == |steps| + 1
    && ss[0] == Initial(ss[0].limit)
    && forall i :: 0 <= i < |steps| ==> Enabled(ss[i], steps[i]) && ss[i + 1] == Next(ss[i], steps[i])
  }

  // ---- The buffer ----------------------------------------------------------

  /** Events are numbered from one, and only the last may be terminal, as the status tells. */
  ghost predicate LogOk(log: seq<Event>, nextSeq: nat, status: Status) {
    && nextSeq == |log| + 1
    && (forall i :: 0 <= i < |log| ==> log[i].seqNo == i + 1)
    && (forall i :: 0 <= i < |log| - 1 ==> !IsTerminal(log[i].kind))
    && (IsTerminalStatus(status) <==> log != [] && IsTerminal(log[|log| - 1].kind))
    && status == Told(log)
  }

  /** The status that the last event tells; one that says nothing about it puts the turn back to queued. */
  function Told(log: seq<Event>): Status {
    if log == [] then Queued
    else
      match log[|log| - 1].kind
      case Plain => Queued
      case ApprovalRequested => WaitingApproval
      case TurnCancelled => Cancelled
      case TurnFailed => Failed
      case TurnCompleted => Completed
      case _ => Running
  }

  /** The buffer is the contiguous end of the log, at most `limit` long, and full once something was evicted. */
  ghost predicate WindowOk(events: seq<Event>, log: seq<Event>, limit: nat) {
    && |events| <= |log| && events == log[|log| - |events|..]
    && |events| <= limit && (|events| < |log| ==> |events| == limit)
  }

  ghost predicate BufferOk(s: Stream) {
    LogOk(s.log, s.nextSeq, s.status) && WindowOk(s.events, s.log, s.limit)
  }

  lemma LogGrows(log: seq<Event>, nextSeq: nat, status: Status, k: Kind)
    requires LogOk(log, nextSeq, status) && !IsTerminalStatus(status)
    ensures LogOk(log + [Event(nextSeq, k)], nextSeq + 1, MapStatus(k, Queued))
  {
    var longer := log + [Event(nextSeq, k)];
    forall i | 0 <= i < |longer| ensures longer[i].seqNo == i + 1 && (i < |log| ==> !IsTerminal(longer[i].kind)) {
      if i < |log| { assert longer[i] == log[i]; }
    }
  }

  lemma WindowMoves(events: seq<Event>, log: seq<Event>, limit: nat, event: Event)
    requires WindowOk(events, log, limit)
    ensures WindowOk(Bounded(events + [event], limit), log + [event], limit)
  {
    var longer := events + [event];
    assert longer == (log + [event])[|log| - |events|..];
  }

  lemma BeginFields(s: Stream, k: Kind)
    ensures var t := Begin(s, k); var event := Event(s.nextSeq, k);
      && t.log == s.log + [event] && t.events == Bounded(s.events + [event], s.limit)
      && t.nextSeq == s.nextSeq + 1 && t.status == MapStatus(k, Queued) && t.limit == s.limit
  {
  }

  ghost predicate SameBuffer(s: Stream, t: Stream) {
    t.log == s.log && t.events == s.events && t.nextSeq == s.nextSeq && t.status == s.status && t.limit == s.limit
  }

  lemma OthersKeepBuffer(s: Stream, step: Step)
    requires Enabled(s, step) && !step.DoBegin?
    ensures SameBuffer(s, Next(s, step))
  {
    match step
    case DoAdvance(j, ok) =>
    case DoAttach(c, since) =>
    case DoReplay(c) =>
  }

  lemma BeginKeepsBuffer(s: Stream, k: Kind)
    requires BufferOk(s) && !IsTerminalStatus(s.status)
    ensures BufferOk(Begin(s, k)) && Begin(s, k).status == MapStatus(k, Queued)
  {
    BeginFields(s, k);
    LogGrows(s.log, s.nextSeq, s.status, k);
    WindowMoves(s.events, s.log, s.limit, Event(s.nextSeq, k));
  }

  lemma StepKeepsBuffer(s: Stream, step: Step)
    requires LogOk(s.log, s.nextSeq, s.status) && WindowOk(s.events, s.log, s.limit) && Enabled(s, step)
    ensures BufferOk(Next(s, step))
  {
    if step.DoBegin? {
      BeginKeepsBuffer(s, step.kind);
    } else {
      OthersKeepBuffer(s, step);
    }
  }

  lemma {:induction false} BufferAlwaysOk(ss: seq<Stream>, steps: seq<Step>, n: nat)
    requires Run(ss, steps) && n < |ss|
    ensures BufferOk(ss[n])
    decreases n
  {
    if n > 0 {
      BufferAlwaysOk(ss, steps, n - 1);
      StepKeepsBuffer(ss[n - 1], steps[n - 1]);
    }
  }
}
