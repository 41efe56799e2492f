/** Who is attached to a terminal, who controls it and what is asked of it, told from the steps of its life. */
module TerminalControl {
  import opened Prelude
  import opened TerminalHub
  import opened TerminalInvariants
  import opened TerminalGreetings

  // ---- Control -------------------------------------------------------------

  /** The step gives `p` the control: it takes it, or attaches where nobody has it. */
  predicate Gains<S>(e: Entry<S>, step: Step, p: PeerId) {
    && e.listed && e.state == Running
    && ((step == DoTakeControl(p) && p in e.peers) || (step == DoAttach(p) && e.writer == None && |e.peers| < 8))
  }

  /** The step ends the control of `p`: it detaches, or another connection takes it. */
  predicate Loses<S>(e: Entry<S>, step: Step, p: PeerId) {
    step == DoDetach(p) || (step.DoTakeControl? && step.peer != p && step.peer in e.peers)
  }

  /** Input is accepted from this connection and from no other. */
  ghost predicate Controls<S>(e: Entry<S>, p: PeerId) {
    forall q :: AcceptsInput(e, q) <==> q == p
  }

  predicate RunsOn<S>(e: Entry<S>) {
    e.listed && e.state == Running
  }

  lemma ControlBegins<S>(emu: Emulator<S>, e: Entry<S>, now: int, step: Step, p: PeerId)
    requires Enabled(e, step) && Gains(e, step, p)
    ensures Controls(Next(emu, e, now, step), p)
  {
  }

  lemma ControlStays<S>(emu: Emulator<S>, e: Entry<S>, now: int, step: Step, p: PeerId)
    requires Enabled(e, step) && PeersOk(e) && RunsOn(e) && Controls(e, p) && !Loses(e, step, p)
    requires RunsOn(Next(emu, e, now, step))
    ensures Controls(Next(emu, e, now, step), p)
  {
    assert AcceptsInput(e, p);
    match step
    case DoRunTask(ok) => TaskKeepsControl(emu, e, ok);
    case _ =>
  }

  lemma TaskKeepsControl<S>(emu: Emulator<S>, e: Entry<S>, ok: bool)
    requires e.queue != []
    ensures var f := RunTask(emu, e, ok); f.peers.Keys == e.peers.Keys && f.writer == e.writer
  {
    match e.queue[0]
    case WriteTask(_, _) =>
    case ResizeTask(_, _, _) =>
    case AttachTask(_) =>
  }

  /** The step after state `m` keeps the control of `p`, unless it loses it or the terminal stops running. */
  ghost predicate KeptAt<S>(es: seq<Entry<S>>, steps: seq<Timed>, m: int, p: PeerId)
    requires |es| == |steps| + 1 && 0 <= m < |steps|
  {
    RunsOn(es[m]) && RunsOn(es[m + 1]) && Controls(es[m], p) && !Loses(es[m], steps[m].step, p) ==> Controls(es[m + 1], p)
  }

  lemma {:induction false} KeptFrom<S>(es: seq<Entry<S>>, steps: seq<Timed>, i: nat, n: nat, p: PeerId)
    requires |es| == |steps| + 1 && i <= n < |es| && Controls(es[i], p)
    requires forall m :: i <= m <= n ==> RunsOn(es[m])
    requires forall m :: i <= m < n ==> KeptAt(es, steps, m, p) && !Loses(es[m], steps[m].step, p)
    ensures Controls(es[n], p)
    decreases n
  {
    if i < n {
      KeptFrom(es, steps, i, n - 1, p);
      assert KeptAt(es, steps, n - 1, p) && RunsOn(es[n - 1]);
    }
  }

  /**
   Control is given at once and kept: after a connection takes it, or attaches
   where nobody has it, the terminal accepts its input and nobody else's, as long
   as it runs and until another connection takes control or this one detaches.
   */
  lemma ControlIsGiven<S(!new)>(emu: Emulator<S>, es: seq<Entry<S>>, steps: seq<Timed>, i: nat, n: nat, p: PeerId)
    requires Life(emu, es, steps) && i < n < |es| && Gains(es[i], steps[i].step, p)
    requires forall m :: i < m <= n ==> RunsOn(es[m])
    requires forall m :: i < m < n ==> !Loses(es[m], steps[m].step, p)
    ensures Controls(es[n], p)
  {
    ControlBegins(emu, es[i], steps[i].now, steps[i].step, p);
    forall m | i < m < n ensures KeptAt(es, steps, m, p) {
      AlwaysKept(emu, es, steps, m, p);
    }
    KeptFrom(es, steps, i + 1, n, p);
  }

  lemma AlwaysKept<S(!new)>(emu: Emulator<S>, es: seq<Entry<S>>, steps: seq<Timed>, m: nat, p: PeerId)
    requires Life(emu, es, steps) && m < |steps|
    ensures KeptAt(es, steps, m, p)
  {
    LifeKeepsServer(emu, es, steps, m);
    if RunsOn(es[m]) && RunsOn(es[m + 1]) && Controls(es[m], p) && !Loses(es[m], steps[m].step, p) {
      ControlStays(emu, es[m], steps[m].now, steps[m].step, p);
    }
  }

  /** Who has control after the step had it before, unless the step gives it. */
  ghost predicate GivenAt<S>(es: seq<Entry<S>>, steps: seq<Timed>, m: int, p: PeerId)
    requires |es| == |steps| + 1 && 0 <= m < |steps|
  {
    AcceptsInput(es[m + 1], p) ==>
      Gains(es[m], steps[m].step, p) || (AcceptsInput(es[m], p) && !Loses(es[m], steps[m].step, p))
  }

  lemma {:induction false} GivenFrom<S>(es: seq<Entry<S>>, steps: seq<Timed>, n: nat, p: PeerId) returns (i: nat)
    requires |es| == |steps| + 1 && n < |es| && !AcceptsInput(es[0], p) && AcceptsInput(es[n], p)
    requires forall m :: 0 <= m < n ==> GivenAt(es, steps, m, p)
    ensures i < n && Gains(es[i], steps[i].step, p) && forall m :: i < m < n ==> !Loses(es[m], steps[m].step, p)
    decreases n
  {
    assert GivenAt(es, steps, n - 1, p);
    if Gains(es[n - 1], steps[n - 1].step, p) {
      i := n - 1;
    } else {
      i := GivenFrom(es, steps, n - 1, p);
    }
  }

  /** Who has control gained it at some step, and did not lose it since. */
  lemma ControlWasGiven<S(!new)>(emu: Emulator<S>, es: seq<Entry<S>>, steps: seq<Timed>, n: nat, p: PeerId) returns (i: nat)
    requires Life(emu, es, steps) && n < |es| && AcceptsInput(es[n], p)
    ensures i < n && Gains(es[i], steps[i].step, p) && forall m :: i < m < n ==> !Loses(es[m], steps[m].step, p)
  {
    forall m | 0 <= m < n ensures GivenAt(es, steps, m, p) {
      AlwaysGiven(emu, es, steps, m, p);
    }
    i := GivenFrom(es, steps, n, p);
  }

  lemma AlwaysGiven<S(!new)>(emu: Emulator<S>, es: seq<Entry<S>>, steps: seq<Timed>, m: nat, p: PeerId)
    requires Life(emu, es, steps) && m < |steps|
    ensures GivenAt(es, steps, m, p)
  {
    LifeKeepsServer(emu, es, steps, m);
    if AcceptsInput(es[m + 1], p) && !Gains(es[m], steps[m].step, p) {
      ControlSince(emu, es[m], steps[m].now, steps[m].step, p);
    }
  }

  lemma ControlSince<S>(emu: Emulator<S>, e: Entry<S>, now: int, step: Step, p: PeerId)
    requires Enabled(e, step) && StateOk(e) && WriterOk(e)
    requires AcceptsInput(Next(emu, e, now, step), p) && !Gains(e, step, p)
    ensures AcceptsInput(e, p) && !Loses(e, step, p)
  {
    match step
    case DoRunTask(ok) =>
      TaskKeepsControl(emu, e, ok);
      TaskKeepsClosing(emu, e, ok);
    case _ =>
  }

  // ---- What connections are told -------------------------------------------

  /** The step begins to close the terminal, for this reason. */
  predicate BeginsClose<S>(e: Entry<S>, now: int, step: Step, reason: CloseReason) {
    && e.listed && !InProgress(e.closer) && !e.closer.Closed? && e.state != Exited
    && match step
       case DoClose(why) => why == reason
       case DoProcessExit => reason == ProcessExit && e.state == Running
       case DoExamine => reason == UnattachedTimeout && (Retry(e) || Idle(e, now))
       case _ => false
  }

  /** What the step announces to everybody who has a snapshot. */
  ghost predicate Announces<S>(e: Entry<S>, now: int, step: Step, m: ServerMessage) {
    || (step.DoTakeControl? && e.listed && e.state == Running && step.peer in e.peers && m == ControlChanged(Some(step.peer)))
    || (step.DoDetach? && e.listed && step.peer in e.peers && e.writer == Some(step.peer) && m == ControlChanged(None))
    || (step == DoFinishClose && m == Exit(Exited))
    || (exists reason :: BeginsClose(e, now, step, reason) && m == ClosingNow(reason))
  }

  /**
   Every change of control and of the terminal's end is told to exactly the
   connections that have their snapshot, at the moment it happens; those that are
   waiting for it are told nothing.
   */
  lemma Announced<S(!new)>(emu: Emulator<S>, es: seq<Entry<S>>, steps: seq<Timed>, n: nat, c: PeerId, m: ServerMessage)
    requires Life(emu, es, steps) && n < |steps| && Announces(es[n], steps[n].now, steps[n].step, m)
    requires c in es[n].peers && steps[n].step != DoDetach(c)
    ensures c in es[n].sent && c in es[n + 1].sent
    ensures es[n + 1].sent[c] == es[n].sent[c] + if es[n].sent[c] != [] then [m] else []
  {
    GreetedOnce(emu, es, steps, n);
    Greeted(es[n], c);
    AnnouncedTo(emu, es[n], steps[n].now, steps[n].step, c, m);
  }

  lemma AnnouncedTo<S>(emu: Emulator<S>, e: Entry<S>, now: int, step: Step, c: PeerId, m: ServerMessage)
    requires Enabled(e, step) && Announces(e, now, step, m)
    requires c in e.peers && c in e.sent && step != DoDetach(c)
    ensures c in Next(emu, e, now, step).sent
    ensures Next(emu, e, now, step).sent[c] == e.sent[c] + if e.peers[c] then [m] else []
  {
    if reason :| BeginsClose(e, now, step, reason) && m == ClosingNow(reason) {
      CloseTells(e, reason, c);
      CloseTells(e.(process := Gone), reason, c);
    }
  }

  lemma CloseTells<S>(e: Entry<S>, reason: CloseReason, c: PeerId)
    requires e.listed && !InProgress(e.closer) && !e.closer.Closed? && e.state != Exited && c in e.peers && c in e.sent
    ensures c in Close(e, reason).sent && Close(e, reason).sent[c] == e.sent[c] + if e.peers[c] then [ClosingNow(reason)] else []
    ensures Close(e, reason).state == Closing && Close(e, reason).reason == Some(reason) && Close(e, reason).writer == None
  {
  }

  /** Nobody controls a terminal that began to close, and the reason is noted. */
  lemma ClosingTakesControl<S>(emu: Emulator<S>, e: Entry<S>, now: int, step: Step, reason: CloseReason, p: PeerId)
    requires Enabled(e, step) && BeginsClose(e, now, step, reason)
    ensures var f := Next(emu, e, now, step);
      f.state == Closing && f.reason == Some(reason) && InProgress(f.closer) && f.listed && !AcceptsInput(f, p)
  {
  }

  /** The first messages of a connection tell the state, who has control, and the screen as they are at that moment. */
  lemma GreetingTells<S(!new)>(emu: Emulator<S>, es: seq<Entry<S>>, steps: seq<Timed>, n: nat, p: PeerId)
    requires Life(emu, es, steps) && n < |steps| && steps[n].step.DoRunTask?
    requires es[n].queue != [] && es[n].queue[0] == AttachTask(p) && p in es[n].peers
    ensures p in es[n + 1].sent
    ensures var e := es[n];
      es[n + 1].sent[p] == [Ready(e.state, e.writer, p), Snapshot(e.seqNo, e.cols, e.rows, emu.serialize(e.screen))]
                           + if e.state == Exited then [Exit(Exited)] else []
  {
    GreetedOnce(emu, es, steps, n);
    assert AwaitsGreeting(es[n].queue, es[n].sent, 0);
  }

  /** Everybody who sees the screen of a terminal that ended was told so. */
  ghost predicate ToldExit<S>(e: Entry<S>) {
    e.state == Exited ==> forall p :: p in e.peers && e.peers[p] ==> p in e.sent && Exit(Exited) in e.sent[p]
  }

  lemma StepTellsExit<S>(emu: Emulator<S>, e: Entry<S>, now: int, step: Step)
    requires Enabled(e, step) && ToldExit(e) && QueueOk(e)
    ensures ToldExit(Next(emu, e, now, step))
  {
    match step
    case DoRunTask(ok) => TaskTellsExit(emu, e, ok);
    case DoAttach(p) => AttachTellsExit(e, p);
    case DoDetach(p) => DetachTellsExit(e, p, now);
    case _ =>
  }

  lemma AttachTellsExit<S>(e: Entry<S>, p: PeerId)
    requires ToldExit(e) && p !in e.sent
    ensures ToldExit(Attach(e, p))
  {
  }

  lemma DetachTellsExit<S>(e: Entry<S>, p: PeerId, now: int)
    requires ToldExit(e)
    ensures ToldExit(Detach(e, p, now))
  {
  }

  lemma TaskTellsExit<S>(emu: Emulator<S>, e: Entry<S>, ok: bool)
    requires e.queue != [] && ToldExit(e) && e.peers.Keys <= e.sent.Keys
    ensures ToldExit(RunTask(emu, e, ok))
  {
    match e.queue[0]
    case WriteTask(_, _) =>
    case ResizeTask(_, _, _) =>
    case AttachTask(p) =>
  }

  /** A connection to a terminal that ended knows it as soon as it has its snapshot. */
  lemma {:induction false} ExitIsKnown<S(!new)>(emu: Emulator<S>, es: seq<Entry<S>>, steps: seq<Timed>, n: nat)
    requires Life(emu, es, steps) && n < |es|
    ensures ToldExit(es[n])
    decreases n
  {
    if n > 0 {
      ExitIsKnown(emu, es, steps, n - 1);
      GreetedOnce(emu, es, steps, n - 1);
      StepTellsExit(emu, es[n - 1], steps[n - 1].now, steps[n - 1].step);
    }
  }

  // ---- Attached connections ------------------------------------------------

  predicate Joins<S>(e: Entry<S>, step: Step, p: PeerId) {
    step == DoAttach(p) && e.listed && (e.state == Running || e.state == Exited) && |e.peers| < 8
  }

  /** It detaches, or the terminal drops everybody: at the end of closing, and when it is removed. */
  predicate Leaves<S>(e: Entry<S>, step: Step, p: PeerId) {
    match step
    case DoDetach(q) => q == p && e.listed
    case DoFinishClose => true
    case DoWaiterResumes => true
    case DoSpawnFailed => true
    case DoClose(reason) => reason == ByUser && e.listed && !InProgress(e.closer) && (e.closer.Closed? || e.state == Exited)
    case _ => false
  }

  ghost predicate JoinedAndStayed<S>(es: seq<Entry<S>>, steps: seq<Timed>, k: int, n: int, p: PeerId) {
    && 0 <= k < n <= |steps| && |es| == |steps| + 1 && Joins(es[k], steps[k].step, p)
    && forall j :: k < j < n ==> !Leaves(es[j], steps[j].step, p)
  }

  lemma PeersMove<S>(emu: Emulator<S>, e: Entry<S>, now: int, step: Step, p: PeerId)
    requires Enabled(e, step)
    ensures p in Next(emu, e, now, step).peers <==> Joins(e, step, p) || (p in e.peers && !Leaves(e, step, p))
  {
    match step
    case DoAttach(q) => AttachMoves(e, q, p);
    case DoDetach(q) => DetachMoves(e, q, now, p);
    case DoRunTask(ok) => TaskKeepsControl(emu, e, ok);
    case DoExamine => CloseKeepsPeers(e, UnattachedTimeout);
    case DoProcessExit => CloseKeepsPeers(e.(process := Gone), ProcessExit);
    case DoClose(reason) => CloseKeepsPeers(e, reason);
    case _ =>
  }

  lemma AttachMoves<S>(e: Entry<S>, q: PeerId, p: PeerId)
    ensures p in Attach(e, q).peers <==> Joins(e, DoAttach(q), p) || p in e.peers
  {
  }

  lemma DetachMoves<S>(e: Entry<S>, q: PeerId, now: int, p: PeerId)
    ensures p in Detach(e, q, now).peers <==> p in e.peers && !Leaves(e, DoDetach(q), p)
  {
  }

  lemma CloseKeepsPeers<S>(e: Entry<S>, reason: CloseReason)
    ensures Close(e, reason).peers ==
      if reason == ByUser && e.listed && !InProgress(e.closer) && (e.closer.Closed? || e.state == Exited) then map[] else e.peers
  {
  }

  lemma JoinedMoves<S>(es: seq<Entry<S>>, steps: seq<Timed>, n: nat, m: nat, p: PeerId)
    requires n < |steps| && m == n + 1 && |es| == |steps| + 1
    ensures (exists k :: JoinedAndStayed(es, steps, k, m, p)) <==>
      Joins(es[n], steps[n].step, p)
      || ((exists k :: JoinedAndStayed(es, steps, k, n, p)) && !Leaves(es[n], steps[n].step, p))
  {
    if k :| JoinedAndStayed(es, steps, k, m, p) {
      assert k < n ==> JoinedAndStayed(es, steps, k, n, p) && !Leaves(es[n], steps[n].step, p);
    }
    if Joins(es[n], steps[n].step, p) {
      assert JoinedAndStayed(es, steps, n, m, p);
    } else if !Leaves(es[n], steps[n].step, p) {
      if k :| JoinedAndStayed(es, steps, k, n, p) { assert JoinedAndStayed(es, steps, k, m, p); }
    }
  }

  /** Step `m` moves the connection as it should. */
  ghost predicate MovesAt<S>(es: seq<Entry<S>>, steps: seq<Timed>, m: int, p: PeerId)
    requires |es| == |steps| + 1 && 0 <= m < |steps|
  {
    p in es[m + 1].peers <==> Joins(es[m], steps[m].step, p) || (p in es[m].peers && !Leaves(es[m], steps[m].step, p))
  }

  lemma {:induction false} AttachedFrom<S>(es: seq<Entry<S>>, steps: seq<Timed>, n: nat, p: PeerId)
    requires |es| == |steps| + 1 && n < |es| && p !in es[0].peers && forall m :: 0 <= m < n ==> MovesAt(es, steps, m, p)
    ensures p in es[n].peers <==> exists k :: JoinedAndStayed(es, steps, k, n, p)
    decreases n
  {
    if n > 0 {
      AttachedFrom(es, steps, n - 1, p);
      assert MovesAt(es, steps, n - 1, p);
      JoinedMoves(es, steps, n - 1, n, p);
    }
  }

  /** A connection is attached exactly if it joined and did not leave since. */
  lemma AttachedIff<S(!new)>(emu: Emulator<S>, es: seq<Entry<S>>, steps: seq<Timed>, n: nat, p: PeerId)
    requires Life(emu, es, steps) && n < |es|
    ensures p in es[n].peers <==> exists k :: JoinedAndStayed(es, steps, k, n, p)
  {
    forall m | 0 <= m < n ensures MovesAt(es, steps, m, p) {
      PeersMove(emu, es[m], steps[m].now, steps[m].step, p);
    }
    AttachedFrom(es, steps, n, p);
  }

  // ---- What is asked -------------------------------------------------------

  /** The tasks a step asks for. */
  function Asks<S>(e: Entry<S>, step: Step): seq<Task> {
    match step
    case DoProduce(data, bytes) => [WriteTask(data, bytes)]
    case DoResize(p, cols, rows) => if AcceptsInput(e, p) then [ResizeTask(p, cols, rows)] else []
    case DoAttach(p) => if Joins(e, step, p) then [AttachTask(p)] else []
    case _ => []
  }

  function AskedUpTo<S>(es: seq<Entry<S>>, steps: seq<Timed>, n: nat): seq<Task>
    requires n <= |steps| && n <= |es|
  {
    if n == 0 then [] else AskedUpTo(es, steps, n - 1) + Asks(es[n - 1], steps[n - 1].step)
  }

  function TakenUpTo(steps: seq<Timed>, n: nat): nat
    requires n <= |steps|
  {
    if n == 0 then 0 else TakenUpTo(steps, n - 1) + if steps[n - 1].step.DoRunTask? then 1 else 0
  }

  lemma QueueStep<S>(emu: Emulator<S>, e: Entry<S>, now: int, step: Step)
    requires Enabled(e, step) && WriterOk(e)
    ensures Next(emu, e, now, step).queue == if step.DoRunTask? then e.queue[1..] else e.queue + Asks(e, step)
  {
    match step
    case DoRunTask(ok) => TaskTaken(emu, e, ok);
    case _ =>
  }

  lemma TaskTaken<S>(emu: Emulator<S>, e: Entry<S>, ok: bool)
    requires e.queue != []
    ensures RunTask(emu, e, ok).queue == e.queue[1..]
  {
    match e.queue[0]
    case WriteTask(_, _) =>
    case ResizeTask(_, _, _) =>
    case AttachTask(_) =>
  }

  /**
   The queue is first in, first out: at every moment it holds exactly the tasks
   asked for and not run yet, in the order in which output came, the controlling
   connection asked for a size, and connections attached.
   */
  lemma {:induction false} QueueIsFifo<S(!new)>(emu: Emulator<S>, es: seq<Entry<S>>, steps: seq<Timed>, n: nat)
    requires Life(emu, es, steps) && n < |es|
    ensures TakenUpTo(steps, n) <= |AskedUpTo(es, steps, n)|
    ensures es[n].queue == AskedUpTo(es, steps, n)[TakenUpTo(steps, n)..]
    decreases n
  {
    if n > 0 {
      QueueIsFifo(emu, es, steps, n - 1);
      LifeKeepsServer(emu, es, steps, n - 1);
      QueueStep(emu, es[n - 1], steps[n - 1].now, steps[n - 1].step);
      Shifts(AskedUpTo(es, steps, n - 1), TakenUpTo(steps, n - 1), es[n - 1].queue, Asks(es[n - 1], steps[n - 1].step));
    }
  }

  lemma Shifts(asked: seq<Task>, taken: nat, queue: seq<Task>, more: seq<Task>)
    requires taken <= |asked| && queue == asked[taken..]
    ensures queue + more == (asked + more)[taken..]
    ensures queue != [] ==> taken + 1 <= |asked| && queue[1..] == asked[taken + 1..] && asked + [] == asked
  {
  }

  // ---- The list ------------------------------------------------------------

  /** The step asks to remove the terminal for good. */
  predicate AsksToRemove(step: Step) {
    step == DoClose(ByUser) || step == DoClose(ApiShutdown) || step == DoSpawnFailed
  }

  /** A closing for good, or a wait for one, goes back to somebody who asked for it. */
  predicate ToBeRemoved<S>(e: Entry<S>) {
    || !e.listed || (InProgress(e.closer) && (e.closer.awaited || Disposes(e.reason)))
    || (e.closer.Closed? && e.closer.awaited)
  }

  lemma RemovalBegins<S>(emu: Emulator<S>, e: Entry<S>, now: int, step: Step)
    requires Enabled(e, step) && !ToBeRemoved(e) && ToBeRemoved(Next(emu, e, now, step))
    ensures AsksToRemove(step)
  {
    match step
    case DoRunTask(ok) => TaskKeepsClosing(emu, e, ok);
    case _ =>
  }

  /** A terminal stays in the list, after its end too, until a user, the shutdown or a failed spawn removes it. */
  lemma {:induction false} StaysListed<S(!new)>(emu: Emulator<S>, es: seq<Entry<S>>, steps: seq<Timed>, n: nat)
    requires Life(emu, es, steps) && n < |es| && forall i :: 0 <= i < n ==> !AsksToRemove(steps[i].step)
    ensures es[n].listed && !ToBeRemoved(es[n])
    decreases n
  {
    if n > 0 {
      StaysListed(emu, es, steps, n - 1);
      if ToBeRemoved(es[n]) { RemovalBegins(emu, es[n - 1], steps[n - 1].now, steps[n - 1].step); }
    }
  }
}
