/**
 The browser's copy of a terminal, and its agreement with the server in every
 interleaving of output, resizes, attaches, detaches and closing.
 */
module TerminalReplica {
  import opened Prelude
  import opened TerminalHub
  import opened TerminalInvariants

  /** What the message handler keeps. `gap` is set when it closes the socket over a missing number. */
  datatype View<S> = View(
    connectionId: PeerId, writer: bool, ended: bool, sequence: int, screen: S, ready: bool, gap: bool)

  function Receive<S>(emu: Emulator<S>, v: View<S>, m: ServerMessage): View<S> {
    if v.gap then v
    else
      match m
      case Ready(state, writerId, connectionId) =>
        v.(connectionId := connectionId, writer := writerId == Some(connectionId), ended := state == Exited)
      case Snapshot(seqNo, cols, rows, data) =>
        v.(sequence := seqNo, ready := true,
           screen := emu.write(emu.resize(emu.reset(v.screen), cols, rows), data))
      case Output(seqNo, data) =>
        if seqNo != v.sequence + 1 then v.(gap := true)
        else v.(sequence := seqNo, screen := emu.write(v.screen, data))
      case Resized(seqNo, cols, rows) =>
        if seqNo != v.sequence + 1 then v.(gap := true)
        else v.(sequence := seqNo, screen := emu.resize(v.screen, cols, rows))
      case ControlChanged(writerId) => v.(writer := writerId == Some(v.connectionId))
      case ClosingNow(_) => v.(ended := true, writer := false)
      case Exit(_) => v.(ended := true, writer := false)
  }

  /** The view after all messages. */
  function Fold<S>(emu: Emulator<S>, v: View<S>, messages: seq<ServerMessage>): View<S>
    decreases |messages|
  {
    if messages == [] then v
    else Receive(emu, Fold(emu, v, messages[..|messages| - 1]), messages[|messages| - 1])
  }

  /** The keyboard is live. */
  predicate MayType<S>(v: View<S>) {
    v.ready && v.writer && !v.ended
  }

  /** A view at the moment it connects, whatever it showed before. */
  predicate Connecting<S>(v: View<S>) {
    !v.gap && !v.ready && !v.writer && !v.ended
  }

  /** The view of an attached connection that got its snapshot. */
  ghost predicate InSync<S(!new)>(e: Entry<S>, p: PeerId, v: View<S>) {
    && !v.gap && v.ready
    && v.connectionId == p
    && v.sequence == e.seqNo
    && v.screen == e.screen
    && (v.writer <==> e.writer == Some(p))
    && (v.ended ==> e.state != Running)
    && (e.state == Exited ==> v.ended)
  }

  ghost predicate PeerOk<S(!new)>(emu: Emulator<S>, v0: View<S>, e: Entry<S>, p: PeerId)
    requires p in e.sent
  {
    var v := Fold(emu, v0, e.sent[p]);
    && !v.gap
    && (p in e.peers && e.peers[p] ==> InSync(e, p, v))
    && (p in e.peers && !e.peers[p] ==> e.sent[p] == [] && AttachTask(p) in e.queue)
  }

  ghost predicate SizeOk<S>(emu: Emulator<S>, e: Entry<S>) {
    e.cols == emu.cols(e.screen) && e.rows == emu.rows(e.screen)
  }

  // ---- One message ---------------------------------------------------------

  lemma FoldOne<S>(emu: Emulator<S>, v: View<S>, messages: seq<ServerMessage>, m: ServerMessage)
    ensures Fold(emu, v, messages + [m]) == Receive(emu, Fold(emu, v, messages), m)
  {
    assert (messages + [m])[..|messages|] == messages;
  }

  /** A broadcast reaches exactly the connections that got their snapshot. */
  lemma BroadcastLog<S>(e: Entry<S>, m: ServerMessage, p: PeerId)
    requires p in e.sent
    ensures p in Broadcast(e, m).sent
    ensures Broadcast(e, m).sent[p] == if p in e.peers && e.peers[p] then e.sent[p] + [m] else e.sent[p]
  {
  }

  /**
   `next` is the state after a broadcast of `m`, in which at most `p` itself left:
   the view of `p` stays in agreement if taking `m` keeps it so.
   */
  lemma AfterBroadcast<S(!new)>(emu: Emulator<S>, v0: View<S>, e: Entry<S>, mid: Entry<S>, m: ServerMessage, p: PeerId)
    requires p in e.sent && PeerOk(emu, v0, e, p)
    requires mid.sent == e.sent && p in mid.sent
    requires p in mid.peers ==> p in e.peers && mid.peers[p] == e.peers[p]
    requires forall task :: task in e.queue && task.AttachTask? ==> task in mid.queue
    requires p in mid.peers && mid.peers[p] ==>
      InSync(mid, p, Receive(emu, Fold(emu, v0, e.sent[p]), m))
    ensures PeerOk(emu, v0, Broadcast(mid, m), p)
  {
    BroadcastLog(mid, m, p);
    FoldOne(emu, v0, e.sent[p], m);
  }

  // ---- Tasks ---------------------------------------------------------------

  lemma WriteKeepsPeer<S(!new)>(emu: Emulator<S>, v0: View<S>, e: Entry<S>, data: string, bytes: nat, p: PeerId)
    requires p in e.sent && PeerOk(emu, v0, e, p)
    ensures PeerOk(emu, v0, RunWrite(emu, e, data, bytes), p)
  {
    var mid := Written(e.(screen := emu.write(e.screen, data)), bytes);
    AfterBroadcast(emu, v0, e, mid, Output(e.seqNo + 1, data), p);
  }

  lemma ResizeKeepsPeer<S(!new)>(emu: Emulator<S>, v0: View<S>, e: Entry<S>, who: PeerId, cols: nat, rows: nat, ok: bool, p: PeerId)
    requires p in e.sent && PeerOk(emu, v0, e, p)
    ensures PeerOk(emu, v0, RunResize(emu, e, who, cols, rows, ok), p)
  {
    if e.state == Running && e.writer == Some(who) && ok {
      AfterBroadcast(emu, v0, e, AtSize(emu, e, cols, rows), Resized(e.seqNo + 1, cols, rows), p);
    }
  }

  /** Any view that is not broken agrees with the server once it has the greeting. */
  lemma Greeted<S(!new)>(emu: Emulator<S>, e: Entry<S>, p: PeerId, v: View<S>)
    requires Faithful(emu) && SizeOk(emu, e) && !v.gap
    ensures var ready := Receive(emu, v, Ready(e.state, e.writer, p));
      var shown := Receive(emu, ready, Snapshot(e.seqNo, e.cols, e.rows, emu.serialize(e.screen)));
      && !shown.gap && shown.ready && shown.connectionId == p && shown.sequence == e.seqNo
      && shown.screen == e.screen && (shown.writer <==> e.writer == Some(p)) && (shown.ended <==> e.state == Exited)
  {
    var t := v.screen;
    var s := e.screen;
    assert emu.write(emu.resize(emu.reset(t), emu.cols(s), emu.rows(s)), emu.serialize(s)) == s;
  }

  lemma FoldTwo<S>(emu: Emulator<S>, v: View<S>, messages: seq<ServerMessage>, a: ServerMessage, b: ServerMessage)
    ensures Fold(emu, v, messages + [a, b]) == Receive(emu, Receive(emu, Fold(emu, v, messages), a), b)
  {
    assert messages + [a, b] == (messages + [a]) + [b];
    FoldOne(emu, v, messages, a);
    FoldOne(emu, v, messages + [a], b);
  }

  lemma AttachTaskKeepsPeer<S(!new)>(emu: Emulator<S>, v0: View<S>, e: Entry<S>, who: PeerId, p: PeerId)
    requires Faithful(emu) && SizeOk(emu, e)
    requires e.state == Exited && e.peers != map[] ==> e.writer == None
    requires p in e.sent
    requires !Fold(emu, v0, e.sent[p]).gap
    requires p != who ==> PeerOk(emu, v0, e, p)
    ensures p in RunAttach(emu, e, who).sent && PeerOk(emu, v0, RunAttach(emu, e, who), p)
  {
    if p == who && p in e.peers {
      var ready, shot := Ready(e.state, e.writer, p), Snapshot(e.seqNo, e.cols, e.rows, emu.serialize(e.screen));
      var log := e.sent[p];
      FoldTwo(emu, v0, log, ready, shot);
      Greeted(emu, e, p, Fold(emu, v0, log));
      if e.state == Exited {
        FoldOne(emu, v0, log + [ready, shot], Exit(e.state));
        assert log + ([ready, shot] + [Exit(e.state)]) == (log + [ready, shot]) + [Exit(e.state)];
      } else {
        assert log + ([ready, shot] + []) == log + [ready, shot];
      }
    }
  }

  lemma RestKeepsPeer<S(!new)>(emu: Emulator<S>, v0: View<S>, e: Entry<S>, p: PeerId)
    requires e.queue != [] && p in e.sent && PeerOk(emu, v0, e, p)
    ensures e.queue[0] != AttachTask(p) ==> PeerOk(emu, v0, Rest(e), p)
    ensures !Fold(emu, v0, Rest(e).sent[p]).gap
  {
    assert e.queue == [e.queue[0]] + Rest(e).queue;
  }

  lemma TaskKeepsPeer<S(!new)>(emu: Emulator<S>, v0: View<S>, e: Entry<S>, ok: bool, p: PeerId)
    requires Faithful(emu) && SizeOk(emu, e)
    requires e.state == Exited && e.peers != map[] ==> e.writer == None
    requires e.queue != [] && p in e.sent && PeerOk(emu, v0, e, p)
    ensures p in RunTask(emu, e, ok).sent && PeerOk(emu, v0, RunTask(emu, e, ok), p)
  {
    RestKeepsPeer(emu, v0, e, p);
    match e.queue[0]
    case WriteTask(data, bytes) => WriteKeepsPeer(emu, v0, Rest(e), data, bytes, p);
    case ResizeTask(who, cols, rows) => ResizeKeepsPeer(emu, v0, Rest(e), who, cols, rows, ok, p);
    case AttachTask(who) => AttachTaskKeepsPeer(emu, v0, Rest(e), who, p);
  }

  // ---- The other steps -----------------------------------------------------

  lemma AttachKeepsPeer<S(!new)>(emu: Emulator<S>, v0: View<S>, e: Entry<S>, who: PeerId, p: PeerId)
    requires who !in e.sent && Connecting(v0)
    requires p in e.sent ==> PeerOk(emu, v0, e, p)
    ensures p in Attach(e, who).sent ==> PeerOk(emu, v0, Attach(e, who), p)
  {
    var f := Attach(e, who);
    if p == who && p in f.sent {
      assert f.queue[|f.queue| - 1] == AttachTask(p);
    }
  }

  lemma DetachKeepsPeer<S(!new)>(emu: Emulator<S>, v0: View<S>, e: Entry<S>, who: PeerId, now: int, p: PeerId)
    requires p in e.sent && PeerOk(emu, v0, e, p)
    ensures p in Detach(e, who, now).sent && PeerOk(emu, v0, Detach(e, who, now), p)
  {
    if e.listed && who in e.peers && e.writer == Some(who) {
      var mid := e.(peers := e.peers - {who}, writer := None);
      AfterBroadcast(emu, v0, e, mid, ControlChanged(None), p);
    }
  }

  lemma TakeControlKeepsPeer<S(!new)>(emu: Emulator<S>, v0: View<S>, e: Entry<S>, who: PeerId, p: PeerId)
    requires p in e.sent && PeerOk(emu, v0, e, p)
    ensures p in TakeControl(e, who).sent && PeerOk(emu, v0, TakeControl(e, who), p)
  {
    if e.listed && e.state == Running && who in e.peers {
      AfterBroadcast(emu, v0, e, e.(writer := Some(who)), ControlChanged(Some(who)), p);
    }
  }

  lemma CloseKeepsPeer<S(!new)>(emu: Emulator<S>, v0: View<S>, e: Entry<S>, reason: CloseReason, p: PeerId)
    requires p in e.sent && PeerOk(emu, v0, e, p)
    ensures p in Close(e, reason).sent && PeerOk(emu, v0, Close(e, reason), p)
  {
    if e.listed && !InProgress(e.closer) && !e.closer.Closed? && e.state != Exited {
      AfterBroadcast(emu, v0, e, MarkClosing(e, reason), ClosingNow(reason), p);
    }
  }

  lemma FinishKeepsPeer<S(!new)>(emu: Emulator<S>, v0: View<S>, e: Entry<S>, p: PeerId)
    requires e.closer.Draining? && p in e.sent && PeerOk(emu, v0, e, p)
    ensures p in FinishClose(e).sent && PeerOk(emu, v0, FinishClose(e), p)
  {
    FoldOne(emu, v0, e.sent[p], Exit(Exited));
    FinishLog(e, p);
  }

  /** At the end a connection got the exit message or nothing, and none is attached. */
  lemma FinishLog<S>(e: Entry<S>, p: PeerId)
    requires e.closer.Draining? && p in e.sent
    ensures var f := FinishClose(e);
      f.peers == map[] && p in f.sent && (f.sent[p] == e.sent[p] || f.sent[p] == e.sent[p] + [Exit(Exited)])
  {
  }

  lemma QuietKeepsPeer<S(!new)>(emu: Emulator<S>, v0: View<S>, e: Entry<S>, f: Entry<S>, p: PeerId)
    requires p in e.sent && PeerOk(emu, v0, e, p)
    requires f.sent == e.sent && (f.peers == map[] || (f.peers == e.peers && e.queue <= f.queue
      && f.state == e.state && f.writer == e.writer && f.seqNo == e.seqNo && f.screen == e.screen))
    ensures PeerOk(emu, v0, f, p)
  {
  }

  predicate IsQuiet(step: Step) {
    || step.DoSpawned? || step.DoSpawnFailed? || step.DoProduce? || step.DoResize?
    || step.DoProcessClosed? || step.DoCloseFailed? || step.DoWaiterResumes?
  }

  lemma QuietStepKeepsPeer<S(!new)>(emu: Emulator<S>, v0: View<S>, e: Entry<S>, now: int, step: Step, p: PeerId)
    requires Enabled(e, step) && IsQuiet(step) && (e.process.NotSpawned? ==> e.peers == map[])
    requires p in e.sent && PeerOk(emu, v0, e, p)
    ensures Next(emu, e, now, step).sent == e.sent && PeerOk(emu, v0, Next(emu, e, now, step), p)
  {
    QuietKeepsPeer(emu, v0, e, Next(emu, e, now, step), p);
  }

  lemma ClosingStepKeepsPeer<S(!new)>(emu: Emulator<S>, v0: View<S>, e: Entry<S>, now: int, step: Step, p: PeerId)
    requires step.DoClose? || step.DoExamine? || step.DoProcessExit? || step.DoFinishClose?
    requires Enabled(e, step)
    requires p in e.sent && PeerOk(emu, v0, e, p)
    ensures p in Next(emu, e, now, step).sent && PeerOk(emu, v0, Next(emu, e, now, step), p)
  {
    match step
    case DoClose(reason) => CloseKeepsPeer(emu, v0, e, reason, p);
    case DoExamine => CloseKeepsPeer(emu, v0, e, UnattachedTimeout, p);
    case DoProcessExit => CloseKeepsPeer(emu, v0, e.(process := Gone), ProcessExit, p);
    case DoFinishClose => FinishKeepsPeer(emu, v0, e, p);
  }

  /** Only attaching starts a log. */
  lemma NoLogAppears<S>(emu: Emulator<S>, e: Entry<S>, now: int, step: Step, p: PeerId)
    requires Enabled(e, step) && !step.DoAttach? && e.peers.Keys <= e.sent.Keys && p !in e.sent
    ensures p !in Next(emu, e, now, step).sent
  {
    if step.DoRunTask? {
      NoLogFromTask(emu, e, step.ok, p);
    } else {
      assert p !in Broadcast(e, ClosingNow(ByUser)).sent;
    }
  }

  lemma NoLogFromTask<S>(emu: Emulator<S>, e: Entry<S>, ok: bool, p: PeerId)
    requires e.queue != [] && e.peers.Keys <= e.sent.Keys && p !in e.sent
    ensures p !in RunTask(emu, e, ok).sent
  {
    match e.queue[0]
    case WriteTask(data, bytes) =>
    case ResizeTask(who, cols, rows) =>
    case AttachTask(who) =>
  }

  lemma StepKeepsPeer<S(!new)>(emu: Emulator<S>, v0: View<S>, e: Entry<S>, now: int, step: Step, p: PeerId)
    requires Faithful(emu) && Connecting(v0) && SizeOk(emu, e)
    requires Enabled(e, step) && (e.process.NotSpawned? ==> e.peers == map[]) && e.peers.Keys <= e.sent.Keys
    requires e.state == Exited && e.peers != map[] ==> e.writer == None
    requires p in e.sent ==> PeerOk(emu, v0, e, p)
    ensures p in Next(emu, e, now, step).sent ==> PeerOk(emu, v0, Next(emu, e, now, step), p)
  {
    if step.DoAttach? {
      AttachKeepsPeer(emu, v0, e, step.peer, p);
    } else if p in e.sent {
      if step.DoRunTask? {
        TaskKeepsPeer(emu, v0, e, step.ok, p);
      } else if step.DoDetach? {
        DetachKeepsPeer(emu, v0, e, step.peer, now, p);
      } else if step.DoTakeControl? {
        TakeControlKeepsPeer(emu, v0, e, step.peer, p);
      } else if IsQuiet(step) {
        QuietStepKeepsPeer(emu, v0, e, now, step, p);
      } else {
        ClosingStepKeepsPeer(emu, v0, e, now, step, p);
      }
    } else {
      NoLogAppears(emu, e, now, step, p);
    }
  }

  lemma TaskKeepsSize<S(!new)>(emu: Emulator<S>, e: Entry<S>, ok: bool)
    requires Faithful(emu) && SizeOk(emu, e) && e.queue != []
    ensures SizeOk(emu, RunTask(emu, e, ok))
  {
    match e.queue[0]
    case WriteTask(_, _) =>
    case ResizeTask(_, _, _) =>
    case AttachTask(_) =>
  }

  lemma OtherKeepsSize<S>(emu: Emulator<S>, e: Entry<S>, now: int, step: Step)
    requires Enabled(e, step) && !step.DoRunTask?
    ensures var f := Next(emu, e, now, step); f.screen == e.screen && f.cols == e.cols && f.rows == e.rows
  {
    match step
    case DoExamine =>
    case DoProcessExit =>
    case DoClose(_) =>
    case DoFinishClose =>
    case _ =>
  }

  lemma StepKeepsSize<S(!new)>(emu: Emulator<S>, e: Entry<S>, now: int, step: Step)
    requires Faithful(emu) && SizeOk(emu, e) && Enabled(e, step)
    ensures SizeOk(emu, Next(emu, e, now, step))
  {
    if step.DoRunTask? { TaskKeepsSize(emu, e, step.ok); } else { OtherKeepsSize(emu, e, now, step); }
  }

  /**
   Terminal replication: in every interleaving, no connection that ever attached
   sees a missing number, and one that got its snapshot shows exactly the
   server's terminal once it has taken its messages.
   */
  lemma {:induction false} TerminalReplication<S(!new)>(
    emu: Emulator<S>, es: seq<Entry<S>>, steps: seq<Timed>, n: nat, v0: View<S>, p: PeerId)
    requires Faithful(emu) && Life(emu, es, steps) && n < |es| && Connecting(v0)
    ensures SizeOk(emu, es[n])
    ensures p in es[n].sent ==> PeerOk(emu, v0, es[n], p)
    decreases n
  {
    if n > 0 {
      TerminalReplication(emu, es, steps, n - 1, v0, p);
      LifeKeepsServer(emu, es, steps, n - 1);
      StepKeepsSize(emu, es[n - 1], steps[n - 1].now, steps[n - 1].step);
      StepKeepsPeer(emu, v0, es[n - 1], steps[n - 1].now, steps[n - 1].step, p);
    }
  }

  /** The check on numbers never fails, wherever the connection stands in its messages. */
  lemma NeverAGap<S(!new)>(emu: Emulator<S>, es: seq<Entry<S>>, steps: seq<Timed>, n: nat, v0: View<S>, p: PeerId, k: nat)
    requires Faithful(emu) && Life(emu, es, steps) && n < |es| && Connecting(v0)
    requires p in es[n].sent && k <= |es[n].sent[p]|
    ensures !Fold(emu, v0, es[n].sent[p][..k]).gap
  {
    TerminalReplication(emu, es, steps, n, v0, p);
    GapStays(emu, v0, es[n].sent[p], k);
  }

  lemma {:induction false} GapStays<S>(emu: Emulator<S>, v: View<S>, messages: seq<ServerMessage>, k: nat)
    requires k <= |messages|
    ensures Fold(emu, v, messages[..k]).gap ==> Fold(emu, v, messages).gap
    decreases |messages|
  {
    if k == |messages| {
      assert messages[..k] == messages;
    } else {
      var front := messages[..|messages| - 1];
      assert front[..k] == messages[..k];
      GapStays(emu, v, front, k);
    }
  }

  /** Writer agreement: the keyboard is live exactly on the connection whose input the server accepts. */
  lemma WriterAgreement<S(!new)>(emu: Emulator<S>, es: seq<Entry<S>>, steps: seq<Timed>, n: nat, v0: View<S>, p: PeerId)
    requires Faithful(emu) && Life(emu, es, steps) && n < |es| && Connecting(v0)
    requires p in es[n].peers && es[n].peers[p]
    ensures p in es[n].sent
    ensures MayType(Fold(emu, v0, es[n].sent[p])) <==> AcceptsInput(es[n], p)
    ensures Fold(emu, v0, es[n].sent[p]).screen == es[n].screen
  {
    LifeKeepsServer(emu, es, steps, n);
    TerminalReplication(emu, es, steps, n, v0, p);
  }
}
