/** What every step of a terminal keeps. */
module TerminalInvariants {
  import opened Prelude
  import opened TerminalHub

  /** Bytes of output queued but not written yet. */
  function QueuedBytes(queue: seq<Task>): nat {
    if queue == [] then 0
    else (if queue[0].WriteTask? then queue[0].bytes else 0) + QueuedBytes(queue[1..])
  }

  /** The process is stopped while too much output is queued, and only while enough is to start it again later. */
  ghost predicate FlowOk<S>(e: Entry<S>) {
    && e.pending == QueuedBytes(e.queue)
    && (e.pending > 1024 * 1024 ==> e.paused) && (e.paused ==> e.pending >= 256 * 1024)
  }

  lemma {:induction false} QueuedBytesAppend(queue: seq<Task>, task: Task)
    ensures QueuedBytes(queue + [task]) == QueuedBytes(queue) + if task.WriteTask? then task.bytes else 0
  {
    if queue == [] {
      assert [] + [task] == [task];
      assert [task][1..] == [];
    } else {
      assert (queue + [task])[1..] == queue[1..] + [task];
      QueuedBytesAppend(queue[1..], task);
    }
  }

  /** A paused process always has queued output left, so a later write resumes it. */
  lemma PausedHasOutput<S>(e: Entry<S>)
    requires FlowOk(e) && e.paused
    ensures exists task :: task in e.queue && task.WriteTask?
  {
    SomeWrite(e.queue);
  }

  lemma {:induction false} SomeWrite(queue: seq<Task>)
    requires QueuedBytes(queue) > 0
    ensures exists task :: task in queue && task.WriteTask?
  {
    if queue[0].WriteTask? {
      assert queue[0] in queue;
    } else {
      SomeWrite(queue[1..]);
      var task :| task in queue[1..] && task.WriteTask?;
      assert task in queue;
    }
  }

  lemma TaskKeepsFlow<S>(emu: Emulator<S>, e: Entry<S>, ok: bool)
    requires e.queue != [] && FlowOk(e)
    ensures FlowOk(RunTask(emu, e, ok))
  {
    match e.queue[0]
    case WriteTask(data, bytes) =>
    case ResizeTask(p, cols, rows) =>
    case AttachTask(p) =>
  }

  lemma QueueingKeepsFlow<S>(e: Entry<S>, task: Task)
    requires FlowOk(e)
    ensures task.WriteTask? ==> FlowOk(Produce(e, task.data, task.bytes))
    ensures task.AttachTask? ==> FlowOk(Attach(e, task.peer))
    ensures task.ResizeTask? ==> FlowOk(RequestResize(e, task.peer, task.cols, task.rows))
  {
    QueuedBytesAppend(e.queue, task);
  }

  /** The bookkeeping of queued bytes is kept by every step. */
  lemma StepKeepsFlow<S>(emu: Emulator<S>, e: Entry<S>, now: int, step: Step)
    requires Enabled(e, step) && FlowOk(e)
    ensures FlowOk(Next(emu, e, now, step))
  {
    match step
    case DoProduce(data, bytes) => QueueingKeepsFlow(e, WriteTask(data, bytes));
    case DoAttach(p) => QueueingKeepsFlow(e, AttachTask(p));
    case DoResize(p, cols, rows) => QueueingKeepsFlow(e, ResizeTask(p, cols, rows));
    case DoRunTask(ok) => TaskKeepsFlow(emu, e, ok);
    case DoClose(reason) => SameFlow(e, Close(e, reason));
    case DoExamine => SameFlow(e, Close(e, UnattachedTimeout));
    case DoProcessExit => SameFlow(e, ProcessExits(e));
    case _ =>
      OthersKeepQueue(emu, e, now, step);
      SameFlow(e, Next(emu, e, now, step));
  }

  lemma OthersKeepQueue<S>(emu: Emulator<S>, e: Entry<S>, now: int, step: Step)
    requires Enabled(e, step)
    requires step.DoSpawned? || step.DoSpawnFailed? || step.DoDetach? || step.DoTakeControl? || step.DoProcessClosed?
      || step.DoCloseFailed? || step.DoFinishClose? || step.DoWaiterResumes?
    ensures SameQueue(e, Next(emu, e, now, step))
  {
  }

  ghost predicate SameQueue<S>(e: Entry<S>, f: Entry<S>) {
    f.queue == e.queue && f.pending == e.pending && f.paused == e.paused
  }

  lemma SameFlow<S>(e: Entry<S>, f: Entry<S>)
    requires FlowOk(e) && SameQueue(e, f)
    ensures FlowOk(f)
  {
  }

  predicate Disposes(reason: Option<CloseReason>) {
    reason == Some(ByUser) || reason == Some(ApiShutdown)
  }

  /** A terminal whose process is not there yet can only be waiting for it, or closing for good. */
  ghost predicate BeforeSpawn<S>(e: Entry<S>) {
    && e.peers == map[] && e.state != Running
    && (e.listed ==>
          || (e.state == Starting && e.closer == NotClosing)
          || (e.state == Closing && e.closer.Draining? && Disposes(e.reason)))
  }

  ghost predicate StateOk<S>(e: Entry<S>) {
    && (e.process.NotSpawned? ==> BeforeSpawn(e))
    && (e.listed && !e.process.NotSpawned? ==> e.state != Starting)
    && (e.listed && InProgress(e.closer) ==> e.state == Closing || Disposes(e.reason))
    && (e.listed ==> (e.closer.Closed? <==> e.state == Exited))
    && (e.listed && e.closer.ProcessClosing? ==> !e.process.NotSpawned? && e.state == Closing)
  }

  /**
   A process that runs past the closing of a listed terminal is one that was
   spawned during it; a terminal whose process has ended is closed or being closed.
   */
  ghost predicate AliveOk<S>(e: Entry<S>) {
    && (e.listed && e.process.Alive? && e.closer.Draining? ==> Disposes(e.reason))
    && (e.listed && e.state == Running && !InProgress(e.closer) ==> e.process.Alive?)
    && (e.listed && e.closer.Closed? ==> e.process.Gone?)
    && (!e.listed ==> !e.closer.ProcessClosing?)
  }

  ghost predicate PeersOk<S>(e: Entry<S>) {
    && e.peers.Keys <= e.sent.Keys
    && |e.peers| <= MAX_PEERS
    && (!e.listed ==> e.peers == map[])
  }

  /** The writer is nobody, or an attached connection of a running terminal. */
  ghost predicate WriterOk<S>(e: Entry<S>) {
    e.listed && e.writer.Some? ==> e.state == Running && e.writer.value in e.peers
  }

  /** A running terminal has an unattached time exactly when nobody is attached, and one that ended has none. */
  ghost predicate IdleOk<S>(e: Entry<S>) {
    && (e.listed && e.state == Running ==> (e.unattachedSince.Some? <==> e.peers == map[]))
    && (e.listed && e.state == Exited ==> e.unattachedSince == None)
  }

  ghost predicate ServerOk<S>(e: Entry<S>) {
    StateOk(e) && AliveOk(e) && PeersOk(e) && WriterOk(e) && IdleOk(e)
  }

  lemma Joining(peers: map<PeerId, bool>, p: PeerId)
    requires p !in peers
    ensures |peers[p := false]| == |peers| + 1
  {
    assert peers[p := false].Keys == peers.Keys + {p};
  }

  lemma Leaving(peers: map<PeerId, bool>, p: PeerId)
    requires p in peers
    ensures |peers - {p}| < |peers|
  {
    assert (peers - {p}).Keys == peers.Keys - {p};
  }

  lemma AttachKeeps<S>(e: Entry<S>, p: PeerId)
    requires ServerOk(e) && p !in e.sent
    ensures ServerOk(Attach(e, p))
  {
    Joining(e.peers, p);
  }

  lemma DetachKeeps<S>(e: Entry<S>, p: PeerId, now: int)
    requires ServerOk(e)
    ensures ServerOk(Detach(e, p, now))
  {
    DetachKeepsState(e, p, now);
    DetachKeepsPeers(e, p, now);
  }

  lemma DetachKeepsState<S>(e: Entry<S>, p: PeerId, now: int)
    requires StateOk(e) && AliveOk(e)
    ensures StateOk(Detach(e, p, now)) && AliveOk(Detach(e, p, now))
  {
  }

  lemma DetachKeepsPeers<S>(e: Entry<S>, p: PeerId, now: int)
    requires PeersOk(e) && WriterOk(e) && IdleOk(e)
    ensures PeersOk(Detach(e, p, now)) && WriterOk(Detach(e, p, now)) && IdleOk(Detach(e, p, now))
  {
    if p in e.peers { Leaving(e.peers, p); }
  }

  lemma CloseKeeps<S>(e: Entry<S>, reason: CloseReason)
    requires ServerOk(e)
    requires e.listed && e.process.NotSpawned? ==> Disposes(Some(reason))
    ensures ServerOk(Close(e, reason))
  {
  }

  lemma ExitKeeps<S>(e: Entry<S>)
    requires ServerOk(e) && e.process.Alive?
    ensures ServerOk(ProcessExits(e))
  {
  }

  lemma FinishKeeps<S>(e: Entry<S>)
    requires ServerOk(e) && e.closer.Draining? && e.closer.left == 0
    ensures ServerOk(FinishClose(e))
  {
  }

  lemma TaskKeeps<S>(emu: Emulator<S>, e: Entry<S>, ok: bool)
    requires e.queue != [] && ServerOk(e)
    ensures ServerOk(RunTask(emu, e, ok))
  {
    TaskKeepsState(emu, e, ok);
    TaskKeepsPeers(emu, e, ok);
  }

  lemma TaskKeepsState<S>(emu: Emulator<S>, e: Entry<S>, ok: bool)
    requires e.queue != [] && StateOk(e) && AliveOk(e)
    ensures StateOk(RunTask(emu, e, ok)) && AliveOk(RunTask(emu, e, ok))
  {
    TaskKeepsClosing(emu, e, ok);
    StateCarries(e, RunTask(emu, e, ok));
  }

  /** Tasks leave the state and the closing alone, but for the queue it waits for. */
  ghost predicate SameClosing<S>(e: Entry<S>, f: Entry<S>) {
    && f.listed == e.listed && f.process == e.process && f.reason == e.reason && f.state == e.state
    && f.closer == Drained(e.closer) && (e.peers == map[] ==> f.peers == map[])
  }

  lemma TaskKeepsClosing<S>(emu: Emulator<S>, e: Entry<S>, ok: bool)
    requires e.queue != []
    ensures SameClosing(e, RunTask(emu, e, ok))
  {
    match e.queue[0]
    case WriteTask(_, _) =>
    case ResizeTask(_, _, _) =>
    case AttachTask(_) =>
  }

  lemma StateCarries<S>(e: Entry<S>, f: Entry<S>)
    requires StateOk(e) && AliveOk(e) && SameClosing(e, f)
    ensures StateOk(f) && AliveOk(f)
  {
  }

  lemma TaskKeepsPeers<S>(emu: Emulator<S>, e: Entry<S>, ok: bool)
    requires e.queue != [] && PeersOk(e) && WriterOk(e) && IdleOk(e)
    ensures PeersOk(RunTask(emu, e, ok)) && WriterOk(RunTask(emu, e, ok)) && IdleOk(RunTask(emu, e, ok))
  {
    var f := RunTask(emu, e, ok);
    if e.queue[0].AttachTask? && e.queue[0].peer in e.peers {
      assert f.peers.Keys == e.peers.Keys;
      assert |f.peers.Keys| == |f.peers|;
    }
  }

  /** Every step keeps them: one writer, the idle time, the connection limit and the closing order. */
  lemma StepKeepsServer<S>(emu: Emulator<S>, e: Entry<S>, now: int, step: Step)
    requires Enabled(e, step) && ServerOk(e)
    ensures ServerOk(Next(emu, e, now, step))
  {
    match step
    case DoAttach(p) => AttachKeeps(e, p);
    case DoDetach(p) => DetachKeeps(e, p, now);
    case DoRunTask(ok) => TaskKeeps(emu, e, ok);
    case DoClose(reason) => CloseKeeps(e, reason);
    case DoExamine => if e.listed && (Retry(e) || Idle(e, now)) { CloseKeeps(e, UnattachedTimeout); }
    case DoProcessExit => ExitKeeps(e);
    case DoFinishClose => FinishKeeps(e);
    case _ =>
  }

  // ---- Whole lives ---------------------------------------------------------

  /** All invariants hold after every step of every life. */
  lemma {:induction false} LifeKeepsServer<S(!new)>(emu: Emulator<S>, es: seq<Entry<S>>, steps: seq<Timed>, n: nat)
    requires Life(emu, es, steps) && n < |es|
    ensures ServerOk(es[n]) && FlowOk(es[n])
    decreases n
  {
    if n > 0 {
      LifeKeepsServer(emu, es, steps, n - 1);
      StepKeepsServer(emu, es[n - 1], steps[n - 1].now, steps[n - 1].step);
      StepKeepsFlow(emu, es[n - 1], steps[n - 1].now, steps[n - 1].step);
    }
  }
}
