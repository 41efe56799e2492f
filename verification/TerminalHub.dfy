/**
 One terminal and the connections attached to it: the FIFO of output, resize
 and attach tasks, the single writer, the idle time, and closing.
 */
module TerminalHub {
  import opened Prelude

  const UNATTACHED_TIMEOUT_MS: int := 12 * 60 * 60 * 1000
  const MAX_PEERS := 8
  const PAUSE_ABOVE := 1024 * 1024
  const RESUME_BELOW := 256 * 1024

  type PeerId = string

  /** An xterm: opaque contents, known only through what can be done to them. */
  datatype Emulator<!S> = Emulator(
    reset: S -> S,
    write: (S, string) -> S,
    resize: (S, nat, nat) -> S,
    cols: S -> nat,
    rows: S -> nat,
    serialize: S -> string)

  /** Writing leaves the size alone, resizing sets it, and a serialized screen can be restored. */
  ghost predicate Faithful<S(!new)>(emu: Emulator<S>) {
    && (forall s, data :: emu.cols(emu.write(s, data)) == emu.cols(s) && emu.rows(emu.write(s, data)) == emu.rows(s))
    && (forall s, c, r :: emu.cols(emu.resize(s, c, r)) == c && emu.rows(emu.resize(s, c, r)) == r)
    && (forall s, t ::
          emu.write(emu.resize(emu.reset(t), emu.cols(s), emu.rows(s)), emu.serialize(s)) == s)
  }

  datatype TerminalState = Starting | Running | Closing | Exited

  datatype CloseReason = ByUser | ProcessExit | UnattachedTimeout | ApiShutdown

  datatype ServerMessage =
    | Ready(state: TerminalState, writerId: Option<PeerId>, connectionId: PeerId)
    | Snapshot(seqNo: nat, cols: nat, rows: nat, data: string)
    | Output(seqNo: nat, data: string)
    | Resized(seqNo: nat, cols: nat, rows: nat)
    | ControlChanged(writerId: Option<PeerId>)
    | ClosingNow(reason: CloseReason)
    | Exit(state: TerminalState)

  datatype Task =
    | WriteTask(data: string, bytes: nat)
    | ResizeTask(peer: PeerId, cols: nat, rows: nat)
    | AttachTask(peer: PeerId)

  datatype Process = NotSpawned | Alive | Gone

  /**
   How far the `closing` promise has come: `Draining` waits for the first `left`
   queued tasks. `awaited` tells whether a user's close waits for the promise of
   a closing that began before it.
   */
  datatype Closer = NotClosing | ProcessClosing(awaited: bool) | Draining(left: nat, awaited: bool) | Closed(awaited: bool)

  /**
   `peers` maps an attached connection to whether messages reach it yet; `sent`
   holds every message that was ever passed to a connection. `listed` is
   membership in the service's `entries`.
   */
  datatype Entry<S> = Entry(
    state: TerminalState,
    cols: nat,
    rows: nat,
    screen: S,
    process: Process,
    peers: map<PeerId, bool>,
    writer: Option<PeerId>,
    unattachedSince: Option<int>,
    seqNo: nat,
    queue: seq<Task>,
    pending: nat,
    paused: bool,
    closer: Closer,
    reason: Option<CloseReason>,
    listed: bool,
    sent: map<PeerId, seq<ServerMessage>>)

  function Create<S>(screen: S, cols: nat, rows: nat): Entry<S> {
    Entry(Starting, cols, rows, screen, NotSpawned, map[], None, None, 0, [], 0, false, NotClosing, None, true, map[])
  }

  // ---- Messages ------------------------------------------------------------

  function Log(sent: map<PeerId, seq<ServerMessage>>, p: PeerId): seq<ServerMessage> {
    if p in sent then sent[p] else []
  }

  /** `peer.send` of a connection, muted until its snapshot was sent. */
  function Deliver(peers: map<PeerId, bool>, sent: map<PeerId, seq<ServerMessage>>, m: ServerMessage)
    : map<PeerId, seq<ServerMessage>>
  {
    map p | p in sent :: if p in peers && peers[p] then sent[p] + [m] else sent[p]
  }

  function Broadcast<S>(e: Entry<S>, m: ServerMessage): Entry<S> {
    e.(sent := Deliver(e.peers, e.sent, m))
  }

  // ---- Operations ----------------------------------------------------------

  function Spawned<S>(e: Entry<S>, now: int): Entry<S> {
    e.(state := Running, process := Alive, unattachedSince := Some(now))
  }

  function Dispose<S>(e: Entry<S>): Entry<S> {
    e.(peers := map[], listed := false)
  }

  function Produce<S>(e: Entry<S>, data: string, bytes: nat): Entry<S> {
    var pending := e.pending + bytes;
    e.(pending := pending, paused := e.paused || pending > PAUSE_ABOVE, queue := e.queue + [WriteTask(data, bytes)])
  }

  /** A connection ends the unattached time, and takes the control nobody has. */
  function Occupy<S>(e: Entry<S>, p: PeerId): Entry<S> {
    e.(unattachedSince := None, writer := if e.writer == None then Some(p) else e.writer)
  }

  function Attach<S>(e: Entry<S>, p: PeerId): Entry<S> {
    if !e.listed || (e.state != Running && e.state != Exited) || |e.peers| >= MAX_PEERS then e
    else
      var joined := if e.state == Running then Occupy(e, p) else e;
      joined.(peers := e.peers[p := false], sent := e.sent[p := []], queue := e.queue + [AttachTask(p)])
  }

  function Detach<S>(e: Entry<S>, p: PeerId, now: int): Entry<S> {
    if !e.listed || p !in e.peers then e
    else
      var left := e.(peers := e.peers - {p});
      var freed := if e.writer == Some(p) then Broadcast(left.(writer := None), ControlChanged(None)) else left;
      if freed.peers == map[] && e.state == Running then freed.(unattachedSince := Some(now)) else freed
  }

  /** `input` reaches the process exactly under this condition; otherwise it is an error. */
  predicate AcceptsInput<S>(e: Entry<S>, p: PeerId) {
    e.listed && e.state == Running && e.writer == Some(p) && p in e.peers
  }

  function RequestResize<S>(e: Entry<S>, p: PeerId, cols: nat, rows: nat): Entry<S> {
    if !e.listed || e.state != Running || e.writer != Some(p) then e
    else e.(queue := e.queue + [ResizeTask(p, cols, rows)])
  }

  function TakeControl<S>(e: Entry<S>, p: PeerId): Entry<S> {
    if !e.listed || e.state != Running || p !in e.peers then e
    else Broadcast(e.(writer := Some(p)), ControlChanged(Some(p)))
  }

  // ---- Tasks ---------------------------------------------------------------

  /** The callback of `headless.write`: the bytes are off the queue, and a low queue resumes the process. */
  function Written<S>(e: Entry<S>, bytes: nat): Entry<S> {
    var pending := if bytes <= e.pending then e.pending - bytes else 0;
    e.(pending := pending, paused := e.paused && pending >= RESUME_BELOW, seqNo := e.seqNo + 1)
  }

  function RunWrite<S>(emu: Emulator<S>, e: Entry<S>, data: string, bytes: nat): Entry<S> {
    Broadcast(Written(e.(screen := emu.write(e.screen, data)), bytes), Output(e.seqNo + 1, data))
  }

  /** The terminal at its new size, and the next number. */
  function AtSize<S>(emu: Emulator<S>, e: Entry<S>, cols: nat, rows: nat): Entry<S> {
    e.(screen := emu.resize(e.screen, cols, rows), cols := cols, rows := rows, seqNo := e.seqNo + 1)
  }

  /** `ok` tells whether the process accepted the new size; when it throws, nothing changes. */
  function RunResize<S>(emu: Emulator<S>, e: Entry<S>, p: PeerId, cols: nat, rows: nat, ok: bool): Entry<S> {
    if e.state != Running || e.writer != Some(p) || !ok then e
    else Broadcast(AtSize(emu, e, cols, rows), Resized(e.seqNo + 1, cols, rows))
  }

  function RunAttach<S>(emu: Emulator<S>, e: Entry<S>, p: PeerId): Entry<S> {
    if p !in e.peers then e
    else
      var greeting := [Ready(e.state, e.writer, p),
                       Snapshot(e.seqNo, e.cols, e.rows, emu.serialize(e.screen))]
        + if e.state == Exited then [Exit(e.state)] else [];
      e.(peers := e.peers[p := true], sent := e.sent[p := Log(e.sent, p) + greeting])
  }

  function Drained(c: Closer): Closer {
    if c.Draining? && c.left > 0 then c.(left := c.left - 1) else c
  }

  /** The entry once the first task was taken off the queue. */
  function Rest<S>(e: Entry<S>): Entry<S>
    requires e.queue != []
  {
    e.(queue := e.queue[1..],
       closer := Drained(e.closer))
  }

  function RunTask<S>(emu: Emulator<S>, e: Entry<S>, ok: bool): Entry<S>
    requires e.queue != []
  {
    match e.queue[0]
    case WriteTask(data, bytes) => RunWrite(emu, Rest(e), data, bytes)
    case ResizeTask(p, cols, rows) => RunResize(emu, Rest(e), p, cols, rows, ok)
    case AttachTask(p) => RunAttach(emu, Rest(e), p)
  }

  // ---- Closing -------------------------------------------------------------

  predicate InProgress(c: Closer) {
    c.ProcessClosing? || c.Draining?
  }

  /**
   A terminal without a process has nothing to wait for but its queue. A close
   during another one waits for it, and a user's disposes of the terminal then.
   */
  function Close<S>(e: Entry<S>, reason: CloseReason): Entry<S> {
    if !e.listed then e
    else if InProgress(e.closer) then if reason == ByUser then Wait(e) else e
    else if e.closer.Closed? || e.state == Exited then if reason == ByUser then Dispose(e) else e
    else
      Broadcast(MarkClosing(e, reason), ClosingNow(reason))
  }

  function Wait<S>(e: Entry<S>): Entry<S>
    requires InProgress(e.closer)
  {
    e.(closer := e.closer.(awaited := true))
  }

  function MarkClosing<S>(e: Entry<S>, reason: CloseReason): Entry<S> {
    e.(state := Closing, reason := Some(reason), writer := None,
       closer := if e.process.NotSpawned? then Draining(|e.queue|, false) else ProcessClosing(false))
  }

  /** The process ended on its own. */
  function ProcessExits<S>(e: Entry<S>): Entry<S> {
    var gone := e.(process := Gone);
    if e.state == Running then Close(gone, ProcessExit) else gone
  }

  function ProcessClosed<S>(e: Entry<S>): Entry<S>
    requires e.closer.ProcessClosing?
  {
    e.(closer := Draining(|e.queue|, e.closer.awaited), process := Gone)
  }

  /** The closing and everybody who waits for it get the error. */
  function CloseFailed<S>(e: Entry<S>): Entry<S> {
    e.(closer := NotClosing)
  }

  /** The user's close that waited for another goes on. */
  function WaiterResumes<S>(e: Entry<S>): Entry<S> {
    Dispose(e.(closer := Closed(false)))
  }

  function FinishClose<S>(e: Entry<S>): Entry<S>
    requires e.closer.Draining?
  {
    var told := Broadcast(MarkExited(e), Exit(Exited));
    var done := told.(peers := map[]);
    if e.reason == Some(ByUser) || e.reason == Some(ApiShutdown) then Dispose(done) else done
  }

  function MarkExited<S>(e: Entry<S>): Entry<S>
    requires e.closer.Draining?
  {
    e.(state := Exited, unattachedSince := None, closer := Closed(e.closer.awaited))
  }

  /** One entry's turn in `sweep`. */
  function Examine<S>(e: Entry<S>, now: int): Entry<S> {
    if e.listed && (Retry(e) || Idle(e, now)) then Close(e, UnattachedTimeout) else e
  }

  predicate Retry<S>(e: Entry<S>) {
    e.state == Closing && e.reason == Some(UnattachedTimeout) && e.closer == NotClosing
  }

  predicate Idle<S>(e: Entry<S>, now: int) {
    && e.state == Running && e.peers == map[]
    && e.unattachedSince.Some? && now - e.unattachedSince.value >= UNATTACHED_TIMEOUT_MS
  }

  // ---- Runs ----------------------------------------------------------------

  datatype Step =
    | DoSpawned
    | DoSpawnFailed
    | DoProduce(data: string, bytes: nat)
    | DoRunTask(ok: bool)
    | DoAttach(peer: PeerId)
    | DoDetach(peer: PeerId)
    | DoResize(peer: PeerId, cols: nat, rows: nat)
    | DoTakeControl(peer: PeerId)
    | DoClose(reason: CloseReason)
    | DoProcessExit
    | DoProcessClosed
    | DoCloseFailed
    | DoFinishClose
    | DoWaiterResumes
    | DoExamine

  /** What the process, the promises and the connections may do in a state. Connection ids are new. */
  predicate Enabled<S>(e: Entry<S>, step: Step) {
    match step
    case DoSpawned => e.process.NotSpawned?
    case DoSpawnFailed => e.process.NotSpawned?
    case DoProduce(_, _) => !e.process.NotSpawned?
    case DoRunTask(_) => e.queue != []
    case DoAttach(p) => p !in e.sent
    case DoProcessExit => e.process.Alive?
    case DoClose(reason) => reason == ByUser || reason == ApiShutdown
    case DoProcessClosed => e.closer.ProcessClosing?
    case DoCloseFailed => e.closer.ProcessClosing?
    case DoFinishClose => e.closer.Draining? && e.closer.left == 0
    case DoWaiterResumes => e.closer == Closed(true)
    case _ => true
  }

  function Next<S>(emu: Emulator<S>, e: Entry<S>, now: int, step: Step): Entry<S>
    requires Enabled(e, step)
  {
    match step
    case DoSpawned => Spawned(e, now)
    case DoSpawnFailed => Dispose(e.(process := Gone))
    case DoProduce(data, bytes) => Produce(e, data, bytes)
    case DoRunTask(ok) => RunTask(emu, e, ok)
    case DoAttach(p) => Attach(e, p)
    case DoDetach(p) => Detach(e, p, now)
    case DoResize(p, cols, rows) => RequestResize(e, p, cols, rows)
    case DoTakeControl(p) => TakeControl(e, p)
    case DoClose(reason) => Close(e, reason)
    case DoProcessExit => ProcessExits(e)
    case DoProcessClosed => ProcessClosed(e)
    case DoCloseFailed => CloseFailed(e)
    case DoFinishClose => FinishClose(e)
    case DoWaiterResumes => WaiterResumes(e)
    case DoExamine => Examine(e, now)
  }

  datatype Timed = At(now: int, step: Step)

  /** A run of the terminal, the clock never going back. */
  ghost predicate Runs<S(!new)>(emu: Emulator<S>, es: seq<Entry<S>>, steps: seq<Timed>) {
    && |es| == |steps| + 1
    && (forall i :: 0 <= i < |steps| ==>
          Enabled(es[i], steps[i].step) && es[i + 1] == Next(emu, es[i], steps[i].now, steps[i].step))
    && (forall i, j :: 0 <= i < j < |steps| ==> steps[i].now <= steps[j].now)
  }

  /** A run from a new terminal. */
  ghost predicate Life<S(!new)>(emu: Emulator<S>, es: seq<Entry<S>>, steps: seq<Timed>) {
    && Runs(emu, es, steps)
    && exists screen :: es[0] == Create(screen, emu.cols(screen), emu.rows(screen))
  }
}
