/** The order of a connection's messages: one greeting, then live messages, and the exit message for everybody. */
module TerminalGreetings {
  import opened Prelude
  import opened TerminalHub

  /** One ready message, one snapshot, then only live messages. */
  predicate OneGreeting(p: PeerId, log: seq<ServerMessage>) {
    log != [] ==>
      && |log| >= 2 && log[0].Ready? && log[0].connectionId == p && log[1].Snapshot?
      && forall i :: 2 <= i < |log| ==> !log[i].Ready? && !log[i].Snapshot?
  }

  /** Each waiting attach task is the only one of its connection, which got nothing yet. */
  ghost predicate AwaitsGreeting(queue: seq<Task>, sent: map<PeerId, seq<ServerMessage>>, i: int)
    requires 0 <= i < |queue|
  {
    queue[i].AttachTask? ==>
      && queue[i].peer in sent && sent[queue[i].peer] == []
      && forall j :: 0 <= j < |queue| && j != i ==> queue[j] != queue[i]
  }

  ghost predicate QueueOk<S>(e: Entry<S>) {
    && e.peers.Keys <= e.sent.Keys
    && (forall i :: 0 <= i < |e.queue| ==> AwaitsGreeting(e.queue, e.sent, i))
    && (forall p :: p in e.peers && e.peers[p] ==> p in e.sent && e.sent[p] != [])
    && (forall p :: p in e.peers && !e.peers[p] ==> AttachTask(p) in e.queue)
  }

  ghost predicate LogsOk<S>(e: Entry<S>) {
    forall p :: p in e.sent ==> OneGreeting(p, e.sent[p])
  }

  /** While a terminal is closing, attach tasks are only among those the closing waits for. */
  ghost predicate DrainOk<S>(e: Entry<S>) {
    e.listed && e.state == Closing && e.closer.Draining? ==>
      && e.closer.left <= |e.queue|
      && forall i :: e.closer.left <= i < |e.queue| ==> !e.queue[i].AttachTask?
  }

  // ---- Steps that do not touch the queue's front ----------------------------

  lemma MoreQueue(queue: seq<Task>, sent: map<PeerId, seq<ServerMessage>>, task: Task)
    requires forall i :: 0 <= i < |queue| ==> AwaitsGreeting(queue, sent, i)
    requires !task.AttachTask?
    ensures var longer := queue + [task];
      forall i :: 0 <= i < |longer| ==> AwaitsGreeting(longer, sent, i)
  {
    var longer := queue + [task];
    forall i | 0 <= i < |longer| ensures AwaitsGreeting(longer, sent, i) {
      if i < |queue| { assert AwaitsGreeting(queue, sent, i); }
    }
  }

  lemma NewAttach<S>(e: Entry<S>, p: PeerId)
    requires QueueOk(e) && p !in e.sent
    ensures QueueOk(Attach(e, p))
  {
    var f := Attach(e, p);
    forall j | 0 <= j < |e.queue| ensures e.queue[j] != AttachTask(p) {
      assert AwaitsGreeting(e.queue, e.sent, j);
    }
    forall i | 0 <= i < |f.queue| ensures AwaitsGreeting(f.queue, f.sent, i) {
      if i < |e.queue| { assert AwaitsGreeting(e.queue, e.sent, i); }
    }
    forall q | q in f.peers && !f.peers[q] ensures AttachTask(q) in f.queue {
      if q == p && p !in e.peers && p in f.peers { assert f.queue[|f.queue| - 1] == AttachTask(p); }
    }
  }

  /** A broadcast gives nothing to a connection that waits for its greeting. */
  lemma BroadcastKeeps<S>(e: Entry<S>, m: ServerMessage)
    requires QueueOk(e) && LogsOk(e) && !m.Ready? && !m.Snapshot?
    ensures QueueOk(Broadcast(e, m)) && LogsOk(Broadcast(e, m))
  {
    var f := Broadcast(e, m);
    forall i | 0 <= i < |f.queue| ensures AwaitsGreeting(f.queue, f.sent, i) {
      assert AwaitsGreeting(e.queue, e.sent, i);
      if e.queue[i].AttachTask? && e.queue[i].peer in e.peers {
        assert !e.peers[e.queue[i].peer];
      }
    }
    forall p | p in f.sent ensures OneGreeting(p, f.sent[p]) {
      assert OneGreeting(p, e.sent[p]);
    }
  }

  // ---- Tasks ---------------------------------------------------------------

  lemma FrontRemoved<S>(e: Entry<S>)
    requires e.queue != [] && QueueOk(e)
    ensures var rest := Rest(e);
      && (forall i :: 0 <= i < |rest.queue| ==> AwaitsGreeting(rest.queue, rest.sent, i))
      && (forall i :: 0 <= i < |rest.queue| && rest.queue[i].AttachTask? ==> rest.queue[i] != e.queue[0])
      && (forall p :: p in e.peers && !e.peers[p] && AttachTask(p) != e.queue[0] ==> AttachTask(p) in rest.queue)
  {
    var rest := Rest(e);
    forall i | 0 <= i < |rest.queue|
      ensures AwaitsGreeting(rest.queue, rest.sent, i) && (rest.queue[i].AttachTask? ==> rest.queue[i] != e.queue[0])
    {
      assert rest.queue[i] == e.queue[i + 1];
      assert AwaitsGreeting(e.queue, e.sent, i + 1);
      assert forall j :: 0 <= j < |rest.queue| ==> rest.queue[j] == e.queue[j + 1];
    }
    assert e.queue == [e.queue[0]] + rest.queue;
  }

  lemma RestKeeps<S>(e: Entry<S>)
    requires e.queue != [] && QueueOk(e) && !e.queue[0].AttachTask?
    ensures QueueOk(Rest(e))
  {
    FrontRemoved(e);
    var rest := Rest(e);
  }

  /** Greeting changes the log and the state of one connection. */
  lemma Greeting<S>(emu: Emulator<S>, e: Entry<S>)
    requires e.queue != [] && e.queue[0].AttachTask? && e.peers.Keys <= e.sent.Keys
    ensures var f := RunTask(emu, e, true); var p := e.queue[0].peer;
      && f.queue == e.queue[1..] && f.peers.Keys == e.peers.Keys && f.sent.Keys == e.sent.Keys
      && (forall q :: q in e.sent && q != p ==> f.sent[q] == e.sent[q])
      && (forall q :: q in e.peers && q != p ==> f.peers[q] == e.peers[q])
      && (p !in e.peers ==> f.sent == e.sent)
      && (p in e.peers && e.sent[p] == [] ==> f.peers[p] && f.sent[p] != [] && OneGreeting(p, f.sent[p]))
  {
  }

  lemma GreetKeeps<S>(emu: Emulator<S>, e: Entry<S>)
    requires e.queue != [] && QueueOk(e) && LogsOk(e) && e.queue[0].AttachTask?
    ensures QueueOk(RunTask(emu, e, true)) && LogsOk(RunTask(emu, e, true))
  {
    FrontRemoved(e);
    Greeting(emu, e);
    assert AwaitsGreeting(e.queue, e.sent, 0);
    var f := RunTask(emu, e, true);
    forall i | 0 <= i < |f.queue| ensures AwaitsGreeting(f.queue, f.sent, i) {
      if f.queue[i].AttachTask? { assert f.queue[i] == Rest(e).queue[i] && AwaitsGreeting(Rest(e).queue, e.sent, i); }
    }
    forall p | p in f.sent ensures OneGreeting(p, f.sent[p]) {
      assert OneGreeting(p, e.sent[p]);
    }
  }

  ghost predicate SameOrder<S>(e: Entry<S>, f: Entry<S>) {
    f.queue == e.queue && f.sent == e.sent && f.peers == e.peers
  }

  lemma CarriesOver<S>(e: Entry<S>, f: Entry<S>)
    requires QueueOk(e) && LogsOk(e) && SameOrder(e, f)
    ensures QueueOk(f) && LogsOk(f)
  {
  }

  /** For the order of messages, a write is its broadcast. */
  lemma WriteOrder<S>(emu: Emulator<S>, r: Entry<S>, data: string, bytes: nat)
    ensures SameOrder(Broadcast(r, Output(r.seqNo + 1, data)), RunWrite(emu, r, data, bytes))
  {
  }

  lemma RunWriteKeeps<S>(emu: Emulator<S>, r: Entry<S>, data: string, bytes: nat)
    requires QueueOk(r) && LogsOk(r)
    ensures QueueOk(RunWrite(emu, r, data, bytes)) && LogsOk(RunWrite(emu, r, data, bytes))
  {
    var m := Output(r.seqNo + 1, data);
    BroadcastKeeps(r, m);
    WriteOrder(emu, r, data, bytes);
    CarriesOver(Broadcast(r, m), RunWrite(emu, r, data, bytes));
  }

  lemma RunResizeKeeps<S>(emu: Emulator<S>, r: Entry<S>, p: PeerId, cols: nat, rows: nat, ok: bool)
    requires QueueOk(r) && LogsOk(r)
    ensures QueueOk(RunResize(emu, r, p, cols, rows, ok)) && LogsOk(RunResize(emu, r, p, cols, rows, ok))
  {
    if r.state == Running && r.writer == Some(p) && ok { ResizedKeeps(emu, r, cols, rows); }
  }

  lemma ResizedKeeps<S>(emu: Emulator<S>, r: Entry<S>, cols: nat, rows: nat)
    requires QueueOk(r) && LogsOk(r)
    ensures var f := Broadcast(AtSize(emu, r, cols, rows), Resized(r.seqNo + 1, cols, rows)); QueueOk(f) && LogsOk(f)
  {
    var m := Resized(r.seqNo + 1, cols, rows);
    BroadcastKeeps(r, m);
    ResizeOrder(emu, r, cols, rows);
    CarriesOver(Broadcast(r, m), Broadcast(AtSize(emu, r, cols, rows), m));
  }

  lemma ResizeOrder<S>(emu: Emulator<S>, r: Entry<S>, cols: nat, rows: nat)
    ensures var m := Resized(r.seqNo + 1, cols, rows);
      SameOrder(Broadcast(r, m), Broadcast(AtSize(emu, r, cols, rows), m))
  {
  }

  lemma WriteKeeps<S>(emu: Emulator<S>, e: Entry<S>, ok: bool)
    requires e.queue != [] && QueueOk(e) && LogsOk(e) && !e.queue[0].AttachTask?
    ensures QueueOk(RunTask(emu, e, ok)) && LogsOk(RunTask(emu, e, ok))
  {
    RestKeeps(e);
    var task := e.queue[0];
    if task.WriteTask? {
      RunWriteKeeps(emu, Rest(e), task.data, task.bytes);
    } else {
      RunResizeKeeps(emu, Rest(e), task.peer, task.cols, task.rows, ok);
    }
  }

  // ---- The other steps -----------------------------------------------------

  lemma DetachKeepsOrder<S>(e: Entry<S>, p: PeerId, now: int)
    requires QueueOk(e) && LogsOk(e)
    ensures QueueOk(Detach(e, p, now)) && LogsOk(Detach(e, p, now))
  {
    if e.listed && p in e.peers {
      var left := e.(peers := e.peers - {p}, writer := None);
      assert QueueOk(left);
      BroadcastKeeps(left, ControlChanged(None));
    }
  }

  lemma CloseKeepsOrder<S>(e: Entry<S>, reason: CloseReason)
    requires QueueOk(e) && LogsOk(e)
    ensures QueueOk(Close(e, reason)) && LogsOk(Close(e, reason))
  {
    CarriesOver(e, MarkClosing(e, reason));
    BroadcastKeeps(MarkClosing(e, reason), ClosingNow(reason));
  }

  lemma FinishKeepsOrder<S>(e: Entry<S>)
    requires QueueOk(e) && LogsOk(e) && e.closer.Draining?
    ensures QueueOk(FinishClose(e)) && LogsOk(FinishClose(e))
  {
    CarriesOver(e, MarkExited(e));
    BroadcastKeeps(MarkExited(e), Exit(Exited));
  }

  lemma TakeControlKeepsOrder<S>(e: Entry<S>, p: PeerId)
    requires QueueOk(e) && LogsOk(e)
    ensures QueueOk(TakeControl(e, p)) && LogsOk(TakeControl(e, p))
  {
    BroadcastKeeps(e.(writer := Some(p)), ControlChanged(Some(p)));
  }

  lemma AttachKeepsOrder<S>(e: Entry<S>, p: PeerId)
    requires QueueOk(e) && LogsOk(e) && p !in e.sent
    ensures QueueOk(Attach(e, p)) && LogsOk(Attach(e, p))
  {
    NewAttach(e, p);
  }

  lemma StepKeepsOrder<S>(emu: Emulator<S>, e: Entry<S>, now: int, step: Step)
    requires Enabled(e, step) && QueueOk(e) && LogsOk(e)
    ensures QueueOk(Next(emu, e, now, step)) && LogsOk(Next(emu, e, now, step))
  {
    match step
    case DoRunTask(ok) => if e.queue[0].AttachTask? { GreetKeeps(emu, e); } else { WriteKeeps(emu, e, ok); }
    case DoAttach(p) => AttachKeepsOrder(e, p);
    case DoDetach(p) => DetachKeepsOrder(e, p, now);
    case DoTakeControl(p) => TakeControlKeepsOrder(e, p);
    case DoClose(reason) => CloseKeepsOrder(e, reason);
    case DoExamine => CloseKeepsOrder(e, UnattachedTimeout);
    case DoProcessExit => CloseKeepsOrder(e.(process := Gone), ProcessExit);
    case DoFinishClose => FinishKeepsOrder(e);
    case DoProduce(data, bytes) => MoreQueue(e.queue, e.sent, WriteTask(data, bytes));
    case DoResize(p, cols, rows) => MoreQueue(e.queue, e.sent, ResizeTask(p, cols, rows));
    case _ =>
  }

  lemma TaskKeepsDrain<S>(emu: Emulator<S>, e: Entry<S>, ok: bool)
    requires e.queue != [] && DrainOk(e)
    ensures DrainOk(RunTask(emu, e, ok))
  {
    assert DrainOk(Rest(e));
    match e.queue[0]
    case WriteTask(_, _) =>
    case ResizeTask(_, _, _) =>
    case AttachTask(_) =>
  }

  lemma CloseKeepsDrain<S>(e: Entry<S>, reason: CloseReason)
    requires DrainOk(e)
    ensures DrainOk(Close(e, reason))
    ensures e.closer.ProcessClosing? ==> DrainOk(ProcessClosed(e))
    ensures e.closer.Draining? ==> DrainOk(FinishClose(e))
  {
  }

  lemma StepKeepsDrain<S>(emu: Emulator<S>, e: Entry<S>, now: int, step: Step)
    requires Enabled(e, step) && DrainOk(e)
    ensures DrainOk(Next(emu, e, now, step))
  {
    match step
    case DoRunTask(ok) => TaskKeepsDrain(emu, e, ok);
    case DoClose(reason) => CloseKeepsDrain(e, reason);
    case DoExamine => CloseKeepsDrain(e, UnattachedTimeout);
    case DoProcessExit => CloseKeepsDrain(e.(process := Gone), ProcessExit);
    case DoProcessClosed => CloseKeepsDrain(e, ProcessExit);
    case DoFinishClose => CloseKeepsDrain(e, ProcessExit);
    case _ =>
  }

  // ---- Whole lives ---------------------------------------------------------

  /** Every connection gets at most one ready message and one snapshot, before anything else. */
  lemma {:induction false} GreetedOnce<S(!new)>(emu: Emulator<S>, es: seq<Entry<S>>, steps: seq<Timed>, n: nat)
    requires Life(emu, es, steps) && n < |es|
    ensures QueueOk(es[n]) && LogsOk(es[n]) && DrainOk(es[n])
    decreases n
  {
    if n > 0 {
      GreetedOnce(emu, es, steps, n - 1);
      StepKeepsOrder(emu, es[n - 1], steps[n - 1].now, steps[n - 1].step);
      StepKeepsDrain(emu, es[n - 1], steps[n - 1].now, steps[n - 1].step);
    }
  }

  /**
   When closing finishes, exactly the attached connections that have their snapshot
   get the exit message, as their last. Without a spawn that returned while it was
   closing, that is all of them.
   */
  lemma ExitReachesAll<S(!new)>(emu: Emulator<S>, es: seq<Entry<S>>, steps: seq<Timed>, n: nat, p: PeerId)
    requires Life(emu, es, steps) && n < |steps| && steps[n].step == DoFinishClose && p in es[n].peers
    ensures p in es[n].sent && p in es[n + 1].sent
    ensures es[n + 1].sent[p] == es[n].sent[p] + if es[n].sent[p] != [] then [Exit(Exited)] else []
    ensures es[n].listed && es[n].state == Closing ==> es[n].sent[p] != []
  {
    GreetedOnce(emu, es, steps, n);
    assert es[n + 1] == FinishClose(es[n]);
    Greeted(es[n], p);
  }

  /** Messages reach a connection exactly once it was greeted, and until then its task is queued. */
  lemma Greeted<S>(e: Entry<S>, p: PeerId)
    requires QueueOk(e) && p in e.peers
    ensures e.peers[p] <==> e.sent[p] != []
    ensures !e.peers[p] ==> AttachTask(p) in e.queue
  {
    if !e.peers[p] {
      var i :| 0 <= i < |e.queue| && e.queue[i] == AttachTask(p);
      assert AwaitsGreeting(e.queue, e.sent, i);
    }
  }

  /** The exception: a user closes a starting terminal, the spawn returns, and a connection attaches before the end. */
  lemma ExitMissed<S(!new)>(emu: Emulator<S>, screen: S, now: int, p: PeerId)
    ensures exists es: seq<Entry<S>> ::
      && Life(emu, es, [At(now, DoClose(ByUser)), At(now, DoSpawned), At(now, DoAttach(p)), At(now, DoFinishClose)])
      && p in es[3].peers && p in es[4].sent && es[4].sent[p] == []
  {
    var created := Create(screen, emu.cols(screen), emu.rows(screen));
    var closing := Close(created, ByUser);
    var running := Spawned(closing, now);
    var attached := Attach(running, p);
    var es := [created, closing, running, attached, FinishClose(attached)];
    assert es[0] == Create(screen, emu.cols(screen), emu.rows(screen));
    assert attached.peers == map[p := false] && attached.sent[p] == [];
    assert Life(emu, es, [At(now, DoClose(ByUser)), At(now, DoSpawned), At(now, DoAttach(p)), At(now, DoFinishClose)]);
  }
}
