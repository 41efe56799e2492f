/** Closing for good: a user's close is never lost, and exactly when it leaves a process behind. */
module TerminalOrphans {
  import opened Prelude
  import opened TerminalHub
  import opened TerminalInvariants

  // ---- A user's close ------------------------------------------------------

  /** Gone, or on the way: the closing in progress disposes of it, or somebody waits to do so. */
  predicate ClosingForUser<S>(e: Entry<S>) {
    !e.listed || (InProgress(e.closer) && (e.closer.awaited || e.reason == Some(ByUser))) || e.closer == Closed(true)
  }

  /**
   After a user's close a terminal is closing for good until it is gone, whatever
   else happens, unless the process refuses to close.
   */
  lemma {:induction false} UserCloseSticks<S(!new)>(
    emu: Emulator<S>, es: seq<Entry<S>>, steps: seq<Timed>, i: nat, n: nat)
    requires Life(emu, es, steps) && i < n < |es| && steps[i].step == DoClose(ByUser)
    requires forall m :: i < m < n ==> steps[m].step != DoCloseFailed
    ensures ClosingForUser(es[n])
    decreases n
  {
    if i < n - 1 {
      UserCloseSticks(emu, es, steps, i, n - 1);
      StillClosing(emu, es[n - 1], steps[n - 1].now, steps[n - 1].step);
    } else {
      LifeKeepsServer(emu, es, steps, i);
      ClosingBegins(es[i]);
    }
  }

  lemma ClosingBegins<S>(e: Entry<S>)
    requires StateOk(e)
    ensures ClosingForUser(Close(e, ByUser))
  {
  }

  lemma StillClosing<S>(emu: Emulator<S>, e: Entry<S>, now: int, step: Step)
    requires Enabled(e, step) && ClosingForUser(e) && step != DoCloseFailed
    ensures ClosingForUser(Next(emu, e, now, step))
  {
    match step
    case DoRunTask(ok) => TaskKeepsClosing(emu, e, ok);
    case _ =>
  }

  /** What the closing waits for can be done, step by step, without any user. */
  predicate CanDo<S>(emu: Emulator<S>, e: Entry<S>, now: int, steps: seq<Step>)
    decreases |steps|
  {
    steps == [] || (Enabled(e, steps[0]) && CanDo(emu, Next(emu, e, now, steps[0]), now, steps[1..]))
  }

  function DoAll<S>(emu: Emulator<S>, e: Entry<S>, now: int, steps: seq<Step>): Entry<S>
    requires CanDo(emu, e, now, steps)
    decreases |steps|
  {
    if steps == [] then e else DoAll(emu, Next(emu, e, now, steps[0]), now, steps[1..])
  }

  predicate OfClosing(step: Step) {
    step == DoProcessClosed || step == DoRunTask(true) || step == DoFinishClose || step == DoWaiterResumes
  }

  /** The closing waits for tasks that are there. */
  predicate Bounded<S>(e: Entry<S>) {
    e.closer.Draining? ==> e.closer.left <= |e.queue|
  }

  lemma StepKeepsBounded<S>(emu: Emulator<S>, e: Entry<S>, now: int, step: Step)
    requires Enabled(e, step) && Bounded(e)
    ensures Bounded(Next(emu, e, now, step))
  {
    match step
    case DoRunTask(ok) => TaskTaken(emu, e, ok);
    case _ =>
  }

  lemma TaskTaken<S>(emu: Emulator<S>, e: Entry<S>, ok: bool)
    requires e.queue != []
    ensures RunTask(emu, e, ok).queue == e.queue[1..] && RunTask(emu, e, ok).closer == Drained(e.closer)
  {
    match e.queue[0]
    case WriteTask(_, _) =>
    case ResizeTask(_, _, _) =>
    case AttachTask(_) =>
  }

  lemma {:induction false} AlwaysBounded<S(!new)>(emu: Emulator<S>, es: seq<Entry<S>>, steps: seq<Timed>, n: nat)
    requires Life(emu, es, steps) && n < |es|
    ensures Bounded(es[n])
    decreases n
  {
    if n > 0 {
      AlwaysBounded(emu, es, steps, n - 1);
      StepKeepsBounded(emu, es[n - 1], steps[n - 1].now, steps[n - 1].step);
    }
  }

  /** How many steps the closing has left. */
  function Work<S>(e: Entry<S>): nat {
    if !e.listed then 0
    else match e.closer
      case ProcessClosing(_) => |e.queue| + 3
      case Draining(left, _) => left + 2
      case Closed(_) => 1
      case NotClosing => 0
  }

  /** The closing's next step, and one less after it. */
  lemma NextOfClosing<S>(emu: Emulator<S>, e: Entry<S>, now: int) returns (step: Step)
    requires e.listed && ClosingForUser(e) && Bounded(e)
    ensures OfClosing(step) && Enabled(e, step) && Work(Next(emu, e, now, step)) < Work(e)
  {
    if e.closer.ProcessClosing? {
      step := DoProcessClosed;
    } else if e.closer.Closed? {
      step := DoWaiterResumes;
    } else if e.closer.left == 0 {
      step := DoFinishClose;
    } else {
      step := DoRunTask(true);
      TaskKeepsClosing(emu, e, true);
    }
  }

  lemma {:induction false} CanFinish<S>(emu: Emulator<S>, e: Entry<S>, now: int) returns (more: seq<Step>)
    requires ClosingForUser(e) && Bounded(e)
    ensures CanDo(emu, e, now, more) && !DoAll(emu, e, now, more).listed && forall i :: 0 <= i < |more| ==> OfClosing(more[i])
    decreases Work(e)
  {
    more := [];
    if e.listed {
      var step := NextOfClosing(emu, e, now);
      StillClosing(emu, e, now, step);
      StepKeepsBounded(emu, e, now, step);
      var rest := CanFinish(emu, Next(emu, e, now, step), now);
      more := [step] + rest;
      assert more[1..] == rest;
    }
  }

  /**
   A user's close can always be finished: from every later state, unless the
   process refused to close, the terminal is gone after some steps of the process,
   the queue and the closing alone.
   */
  lemma UserCloseEnds<S(!new)>(
    emu: Emulator<S>, es: seq<Entry<S>>, steps: seq<Timed>, i: nat, n: nat, now: int) returns (more: seq<Step>)
    requires Life(emu, es, steps) && i < n < |es| && steps[i].step == DoClose(ByUser)
    requires forall m :: i < m < n ==> steps[m].step != DoCloseFailed
    ensures CanDo(emu, es[n], now, more) && !DoAll(emu, es[n], now, more).listed
    ensures forall k :: 0 <= k < |more| ==> OfClosing(more[k])
  {
    UserCloseSticks(emu, es, steps, i, n);
    AlwaysBounded(emu, es, steps, n);
    more := CanFinish(emu, es[n], now);
  }

  // ---- A process nobody can reach ------------------------------------------

  /** The process runs, but the terminal is in no list: neither a user nor the sweep finds it. */
  predicate Orphan<S>(e: Entry<S>) {
    e.process.Alive? && !e.listed
  }

  /**
   Before state `n`: a close for good began at step `i` while the terminal was
   starting, the spawn returned at step `j`, the closing ended at step `k`, and
   the process did not end on its own.
   */
  ghost predicate ClosedTooEarly<S>(es: seq<Entry<S>>, steps: seq<Timed>, i: int, j: int, k: int, n: int) {
    && 0 <= i < j < n && i < k < n && n < |es| == |steps| + 1
    && BeginsEarly(es, steps, i)
    && steps[j].step == DoSpawned
    && steps[k].step == DoFinishClose
    && forall m :: j < m < n ==> steps[m].step != DoProcessExit
  }

  /** A closing that waits for no process although there is, or will be, one. */
  predicate Careless<S>(e: Entry<S>) {
    !e.process.Gone? && (!e.listed || e.closer.Draining?)
  }

  /** Only a close of a starting terminal begins such a closing, and only its end unlists the terminal. */
  lemma CarelessSince<S>(emu: Emulator<S>, e: Entry<S>, now: int, step: Step)
    requires Enabled(e, step) && ServerOk(e) && Careless(Next(emu, e, now, step))
    ensures !Careless(e) ==> step.DoClose? && e.listed && e.state == Starting
    ensures e.listed && !Next(emu, e, now, step).listed ==> step == DoFinishClose && Careless(e)
  {
    match step
    case DoRunTask(ok) => TaskKeepsClosing(emu, e, ok);
    case _ =>
  }

  lemma AliveSince<S>(emu: Emulator<S>, e: Entry<S>, now: int, step: Step)
    requires Enabled(e, step) && Next(emu, e, now, step).process.Alive?
    ensures step == DoSpawned || (e.process.Alive? && step != DoProcessExit)
  {
    match step
    case DoRunTask(ok) => TaskKeepsClosing(emu, e, ok);
    case _ =>
  }

  /** Where the process that is alive in state `n` was spawned. */
  lemma {:induction false} SpawnOf<S(!new)>(emu: Emulator<S>, es: seq<Entry<S>>, steps: seq<Timed>, n: nat) returns (j: int)
    requires Life(emu, es, steps) && n < |es| && es[n].process.Alive?
    ensures 0 <= j < n && steps[j].step == DoSpawned
    ensures forall m :: j < m < n ==> steps[m].step != DoProcessExit
    ensures forall m :: j < m <= n ==> es[m].process.Alive?
    decreases n
  {
    AliveSince(emu, es[n - 1], steps[n - 1].now, steps[n - 1].step);
    if steps[n - 1].step == DoSpawned {
      j := n - 1;
    } else {
      j := SpawnOf(emu, es, steps, n - 1);
    }
  }

  /** What made state `n` careless: the state before, or a close of a starting terminal. */
  ghost predicate Caused<S>(es: seq<Entry<S>>, steps: seq<Timed>, n: int)
    requires 0 <= n < |es| == |steps| + 1
  {
    Careless(es[n]) ==>
      && n > 0
      && (Careless(es[n - 1]) || BeginsEarly(es, steps, n - 1))
      && (es[n - 1].listed && !es[n].listed ==> steps[n - 1].step == DoFinishClose && Careless(es[n - 1]))
      && (!es[n - 1].listed ==> Careless(es[n - 1]))
  }

  ghost predicate BeginsEarly<S>(es: seq<Entry<S>>, steps: seq<Timed>, i: int)
    requires |es| == |steps| + 1
  {
    0 <= i < |steps| && steps[i].step.DoClose? && es[i].listed && es[i].state == Starting
  }

  lemma AlwaysCaused<S(!new)>(emu: Emulator<S>, es: seq<Entry<S>>, steps: seq<Timed>, n: nat)
    requires Life(emu, es, steps) && n < |es|
    ensures Caused(es, steps, n)
  {
    if n > 0 && Careless(es[n]) {
      LifeKeepsServer(emu, es, steps, n - 1);
      CarelessSince(emu, es[n - 1], steps[n - 1].now, steps[n - 1].step);
    }
  }

  /** Where the careless closing of state `n` began. */
  lemma {:induction false} CloseOf<S>(es: seq<Entry<S>>, steps: seq<Timed>, n: nat) returns (i: int)
    requires n < |es| == |steps| + 1 && Careless(es[n]) && forall m :: 0 <= m <= n ==> Caused(es, steps, m)
    ensures i < n && BeginsEarly(es, steps, i)
    decreases n
  {
    assert Caused(es, steps, n);
    if Careless(es[n - 1]) {
      i := CloseOf(es, steps, n - 1);
    } else {
      i := n - 1;
    }
  }

  /** Where it began and where it ended. */
  lemma {:induction false} EndOf<S>(es: seq<Entry<S>>, steps: seq<Timed>, n: nat) returns (i: int, k: int)
    requires n < |es| == |steps| + 1 && Careless(es[n]) && !es[n].listed
    requires forall m :: 0 <= m <= n ==> Caused(es, steps, m)
    ensures i < k < n && BeginsEarly(es, steps, i) && steps[k].step == DoFinishClose
    decreases n
  {
    assert Caused(es, steps, n);
    if es[n - 1].listed {
      i := CloseOf(es, steps, n - 1);
      k := n - 1;
    } else {
      i, k := EndOf(es, steps, n - 1);
    }
  }

  lemma OrphanWasEarly<S(!new)>(emu: Emulator<S>, es: seq<Entry<S>>, steps: seq<Timed>, n: nat)
    returns (i: int, j: int, k: int)
    requires Life(emu, es, steps) && n < |es| && Orphan(es[n])
    ensures ClosedTooEarly(es, steps, i, j, k, n)
  {
    j := SpawnOf(emu, es, steps, n);
    forall m | 0 <= m <= n ensures Caused(es, steps, m) { AlwaysCaused(emu, es, steps, m); }
    i, k := EndOf(es, steps, n);
    LifeKeepsServer(emu, es, steps, i);
    assert es[i].process.NotSpawned?;
  }

  // ---- The other way -------------------------------------------------------

  /** While the spawn is still out, or after it succeeded, a careless closing stays one. */
  lemma CarelessStays<S>(emu: Emulator<S>, e: Entry<S>, now: int, step: Step)
    requires Enabled(e, step) && Careless(e)
    requires !e.process.NotSpawned? ==> step != DoProcessExit
    requires e.process.NotSpawned? ==> step != DoSpawnFailed
    requires if e.listed then Disposes(e.reason) else !e.closer.ProcessClosing?
    ensures var f := Next(emu, e, now, step);
      && Careless(f) && (f.listed ==> e.listed && f.reason == e.reason)
      && (f.process.NotSpawned? <==> e.process.NotSpawned? && step != DoSpawned) && (step == DoFinishClose ==> !f.listed)
  {
    match step
    case DoRunTask(ok) => TaskKeepsClosing(emu, e, ok);
    case _ =>
  }

  lemma SpawnedStays<S>(emu: Emulator<S>, e: Entry<S>, now: int, step: Step)
    requires Enabled(e, step) && (!e.process.NotSpawned? || step == DoSpawnFailed)
    ensures !Next(emu, e, now, step).process.NotSpawned?
  {
    match step
    case DoRunTask(ok) => TaskKeepsClosing(emu, e, ok);
    case _ =>
  }

  lemma {:induction false} NotSpawnedBefore<S(!new)>(emu: Emulator<S>, es: seq<Entry<S>>, steps: seq<Timed>, m: nat, j: nat)
    requires Life(emu, es, steps) && m <= j < |steps| && steps[j].step == DoSpawned
    ensures es[m].process.NotSpawned? && (m < j ==> steps[m].step != DoSpawnFailed)
    decreases j - m
  {
    if m < j {
      NotSpawnedBefore(emu, es, steps, m + 1, j);
      if !es[m].process.NotSpawned? || steps[m].step == DoSpawnFailed {
        SpawnedStays(emu, es[m], steps[m].now, steps[m].step);
      }
    }
  }

  /** State `m` of a run that spawns at step `j`: careless and, while listed, closing for good. */
  predicate EarlyAt<S>(e: Entry<S>, j: nat, m: nat) {
    Careless(e) && (e.listed ==> Disposes(e.reason)) && (e.process.NotSpawned? <==> m <= j)
  }

  lemma EarlyBegins<S(!new)>(emu: Emulator<S>, es: seq<Entry<S>>, steps: seq<Timed>, i: nat, j: nat)
    requires Life(emu, es, steps) && BeginsEarly(es, steps, i) && i < j < |steps| && steps[j].step == DoSpawned
    ensures EarlyAt(es[i + 1], j, i + 1)
  {
    LifeKeepsServer(emu, es, steps, i);
    NotSpawnedBefore(emu, es, steps, i, j);
  }

  lemma EarlyGoesOn<S(!new)>(emu: Emulator<S>, es: seq<Entry<S>>, steps: seq<Timed>, j: nat, m: nat)
    requires Life(emu, es, steps) && m < |steps| && j < |steps| && steps[j].step == DoSpawned
    requires EarlyAt(es[m], j, m)
    requires j < m ==> steps[m].step != DoProcessExit
    ensures EarlyAt(es[m + 1], j, m + 1)
    ensures es[m + 1].listed ==> es[m].listed && steps[m].step != DoFinishClose
  {
    LifeKeepsServer(emu, es, steps, m);
    if m < j {
      NotSpawnedBefore(emu, es, steps, m, j);
      NotSpawnedBefore(emu, es, steps, m + 1, j);
    }
    CarelessStays(emu, es[m], steps[m].now, steps[m].step);
  }

  lemma {:induction false} EarlyStays<S(!new)>(
    emu: Emulator<S>, es: seq<Entry<S>>, steps: seq<Timed>, i: nat, j: nat, k: nat, n: nat, m: nat)
    requires Life(emu, es, steps) && ClosedTooEarly(es, steps, i, j, k, n) && i < m <= n
    ensures EarlyAt(es[m], j, m) && (es[m].listed ==> m <= k)
    decreases m
  {
    if m == i + 1 {
      EarlyBegins(emu, es, steps, i, j);
    } else {
      EarlyStays(emu, es, steps, i, j, k, n, m - 1);
      EarlyGoesOn(emu, es, steps, j, m - 1);
    }
  }

  /**
   A process is left behind exactly if the terminal was closed for good while it
   was starting, and the spawn succeeded after that, before or after the closing
   ended.
   */
  lemma OrphanIff<S(!new)>(emu: Emulator<S>, es: seq<Entry<S>>, steps: seq<Timed>, n: nat)
    requires Life(emu, es, steps) && n < |es|
    ensures Orphan(es[n]) <==> exists i, j, k :: ClosedTooEarly(es, steps, i, j, k, n)
  {
    if Orphan(es[n]) {
      var i, j, k := OrphanWasEarly(emu, es, steps, n);
    }
    if i, j, k :| ClosedTooEarly(es, steps, i, j, k, n) {
      EarlyStays(emu, es, steps, i, j, k, n, n);
    }
  }

  /** Nothing but its own end reaches such a process. */
  lemma OrphanStays<S>(emu: Emulator<S>, e: Entry<S>, now: int, step: Step)
    requires Enabled(e, step) && ServerOk(e) && Orphan(e)
    ensures Orphan(Next(emu, e, now, step)) <==> step != DoProcessExit
  {
    match step
    case DoRunTask(ok) => TaskKeepsClosing(emu, e, ok);
    case _ =>
  }

  /** Three steps from a new terminal. */
  lemma ThreeSteps<S(!new)>(emu: Emulator<S>, screen: S, now: int, a: Step, b: Step, c: Step)
    returns (es: seq<Entry<S>>)
    requires var e := Create(screen, emu.cols(screen), emu.rows(screen));
      && Enabled(e, a) && Enabled(Next(emu, e, now, a), b) && Enabled(Next(emu, Next(emu, e, now, a), now, b), c)
    ensures Life(emu, es, [At(now, a), At(now, b), At(now, c)])
    ensures var e := Create(screen, emu.cols(screen), emu.rows(screen));
      es[3] == Next(emu, Next(emu, Next(emu, e, now, a), now, b), now, c)
  {
    var e := Create(screen, emu.cols(screen), emu.rows(screen));
    var f := Next(emu, e, now, a);
    var g := Next(emu, f, now, b);
    es := [e, f, g, Next(emu, g, now, c)];
    assert es[0] == e;
  }

  /** It does happen, in both orders: a user closes the terminal while it is starting. */
  lemma OrphanHappens<S(!new)>(emu: Emulator<S>, screen: S, now: int)
    ensures exists es ::
      Life(emu, es, [At(now, DoClose(ByUser)), At(now, DoFinishClose), At(now, DoSpawned)]) && Orphan(es[3])
    ensures exists es ::
      Life(emu, es, [At(now, DoClose(ByUser)), At(now, DoSpawned), At(now, DoFinishClose)]) && Orphan(es[3])
  {
    var closing := Close(Create(screen, emu.cols(screen), emu.rows(screen)), ByUser);
    var late := ThreeSteps(emu, screen, now, DoClose(ByUser), DoFinishClose, DoSpawned);
    assert Orphan(Spawned(FinishClose(closing), now));
    var meanwhile := ThreeSteps(emu, screen, now, DoClose(ByUser), DoSpawned, DoFinishClose);
    assert Orphan(FinishClose(Spawned(closing, now)));
  }
}
