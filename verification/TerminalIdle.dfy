/** Idle closing: only after twelve hours without a connection, and always within thirteen. */
module TerminalIdle {
  import opened Prelude
  import opened TerminalHub
  import opened TerminalInvariants

  /** From the state after step `m - 1`, at time `t`, to state `n`: running, and never a connection. */
  ghost predicate AloneSince<S>(es: seq<Entry<S>>, steps: seq<Timed>, m: int, n: int, t: int) {
    && 1 <= m <= n < |es| && n <= |steps| && steps[m - 1].now == t
    && forall k :: m <= k <= n ==>
      es[k].listed && es[k].state == Running && es[k].peers == map[] && es[k].unattachedSince == Some(t)
  }

  /** Tasks touch neither the state nor the unattached time. */
  lemma TaskKeepsTime<S>(emu: Emulator<S>, e: Entry<S>, ok: bool)
    requires e.queue != []
    ensures var f := RunTask(emu, e, ok);
      f.listed == e.listed && f.state == e.state && f.unattachedSince == e.unattachedSince && f.process == e.process
  {
    match e.queue[0]
    case WriteTask(_, _) =>
    case ResizeTask(_, _, _) =>
    case AttachTask(_) =>
  }

  lemma CloseKeepsTime<S>(e: Entry<S>, reason: CloseReason)
    ensures var f := Close(e, reason);
      f.listed && f.state == Running ==> f == e || (InProgress(e.closer) && f == Wait(e))
  {
  }

  /** A step that leaves a listed terminal running with an unattached time set it, or it was so before. */
  lemma TimeIsSetOrKept<S>(emu: Emulator<S>, e: Entry<S>, now: int, step: Step)
    requires Enabled(e, step)
    requires var f := Next(emu, e, now, step); f.listed && f.state == Running && f.unattachedSince.Some?
    ensures var f := Next(emu, e, now, step);
      || f.unattachedSince == Some(now)
      || (e.listed && e.state == Running && e.unattachedSince == f.unattachedSince)
  {
    match step
    case DoRunTask(ok) => TaskKeepsTime(emu, e, ok);
    case DoClose(reason) => CloseKeepsTime(e, reason);
    case DoExamine => CloseKeepsTime(e, UnattachedTimeout);
    case DoProcessExit => CloseKeepsTime(e.(process := Gone), ProcessExit);
    case _ =>
  }

  /** The unattached time is the time since which nobody was attached, without interruption. */
  lemma {:induction false} AloneAllTheTime<S(!new)>(emu: Emulator<S>, es: seq<Entry<S>>, steps: seq<Timed>, n: nat) returns (m: int)
    requires Life(emu, es, steps) && n < |es|
    requires es[n].listed && es[n].state == Running && es[n].unattachedSince.Some?
    ensures AloneSince(es, steps, m, n, es[n].unattachedSince.value)
    decreases n
  {
    LifeKeepsServer(emu, es, steps, n);
    TimeIsSetOrKept(emu, es[n - 1], steps[n - 1].now, steps[n - 1].step);
    if es[n].unattachedSince == Some(steps[n - 1].now) {
      m := n;
    } else {
      m := AloneAllTheTime(emu, es, steps, n - 1);
    }
  }

  /**
   The sweep begins to close only a terminal that nobody was attached to in the
   last twelve hours: step `n` of the run is such a sweep, and every state since
   state `m`, at least twelve hours old, had no connection.
   */
  lemma SweepClosesOnlyIdle<S(!new)>(emu: Emulator<S>, es: seq<Entry<S>>, steps: seq<Timed>, n: nat) returns (m: int)
    requires Life(emu, es, steps) && n < |steps| && steps[n].step == DoExamine
    requires es[n].listed && es[n].state == Running && es[n + 1].state != Running
    ensures 1 <= m <= n && steps[n].now - steps[m - 1].now >= 43_200_000
    ensures forall k :: m <= k <= n ==> es[k].peers == map[]
  {
    var e := es[n];
    assert es[n + 1] == Examine(e, steps[n].now);
    assert Idle(e, steps[n].now);
    m := AloneAllTheTime(emu, es, steps, n);
  }

  /** Until state `n` the sweep came to this terminal at least once an hour. */
  ghost predicate SweptHourly(steps: seq<Timed>, n: nat, now: int)
    requires n <= |steps|
  {
    exists j :: 0 <= j < n && steps[j].step == DoExamine && steps[j].now >= now - 3_600_000
  }

  /** Swept hourly, no terminal stays running without a connection for thirteen hours. */
  lemma NoneLingers<S(!new)>(emu: Emulator<S>, es: seq<Entry<S>>, steps: seq<Timed>, n: nat, now: int)
    requires Life(emu, es, steps) && n < |es| && SweptHourly(steps, n, now)
    requires es[n].listed && es[n].state == Running && es[n].unattachedSince.Some? && !InProgress(es[n].closer)
    ensures now - es[n].unattachedSince.value < 46_800_000
  {
    var t := es[n].unattachedSince.value;
    var m := AloneAllTheTime(emu, es, steps, n);
    var j :| 0 <= j < n && steps[j].step == DoExamine && steps[j].now >= now - 3_600_000;
    if now - t >= 46_800_000 {
      assert m <= j;
      LifeKeepsServer(emu, es, steps, j);
      StillNotClosing(emu, es, steps, m, n, j, t);
      assert es[j + 1] == Examine(es[j], steps[j].now);
      assert Idle(es[j], steps[j].now);
      assert false;
    }
  }

  lemma ClosingGoesOn<S>(emu: Emulator<S>, e: Entry<S>, now: int, step: Step)
    requires Enabled(e, step) && StateOk(e) && e.listed && e.state == Running && InProgress(e.closer)
    requires Next(emu, e, now, step).state == Running
    ensures InProgress(Next(emu, e, now, step).closer)
  {
  }

  /** A terminal that runs on was not being closed before. */
  lemma {:induction false} StillNotClosing<S(!new)>(
    emu: Emulator<S>, es: seq<Entry<S>>, steps: seq<Timed>, m: int, n: int, j: int, t: int)
    requires Life(emu, es, steps) && AloneSince(es, steps, m, n, t) && m <= j <= n
    requires !InProgress(es[n].closer)
    ensures !InProgress(es[j].closer)
    decreases n - j
  {
    if j < n {
      StillNotClosing(emu, es, steps, m, n, j + 1, t);
      LifeKeepsServer(emu, es, steps, j);
      if InProgress(es[j].closer) { ClosingGoesOn(emu, es[j], steps[j].now, steps[j].step); }
    }
  }

  // ---- A process that did not close ----------------------------------------

  /** A failed idle close waits for the sweep, or is taken up by somebody's close before. */
  lemma StillToRetry<S>(emu: Emulator<S>, e: Entry<S>, now: int, step: Step)
    requires Enabled(e, step) && StateOk(e) && e.listed && Retry(e)
    ensures var f := Next(emu, e, now, step); f.closer.ProcessClosing? || (f.listed && Retry(f))
    ensures step == DoExamine ==> Next(emu, e, now, step).closer.ProcessClosing?
  {
    match step
    case DoRunTask(ok) => TaskKeepsClosing(emu, e, ok);
    case _ =>
  }

  lemma {:induction false} RetriedBy<S(!new)>(emu: Emulator<S>, es: seq<Entry<S>>, steps: seq<Timed>, i: nat, j: nat)
    requires Life(emu, es, steps) && i <= j < |steps| && steps[j].step == DoExamine
    requires es[i].listed && Retry(es[i])
    ensures exists m :: i < m <= j + 1 && es[m].closer.ProcessClosing?
    decreases j - i
  {
    LifeKeepsServer(emu, es, steps, i);
    StillToRetry(emu, es[i], steps[i].now, steps[i].step);
    if es[i + 1].closer.ProcessClosing? {
      assert i < i + 1 <= j + 1;
    } else {
      RetriedBy(emu, es, steps, i + 1, j);
    }
  }

  /** Swept hourly, an idle close that failed, its process refusing, is tried again within the hour. */
  lemma FailedCloseRetried<S(!new)>(emu: Emulator<S>, es: seq<Entry<S>>, steps: seq<Timed>, i: nat, n: nat, now: int)
    requires Life(emu, es, steps) && 1 <= i <= n < |es| && es[i].listed && Retry(es[i])
    requires SweptHourly(steps, n, now) && steps[i - 1].now < now - 3_600_000
    ensures exists m :: i < m <= n && es[m].closer.ProcessClosing?
  {
    var j :| 0 <= j < n && steps[j].step == DoExamine && steps[j].now >= now - 3_600_000;
    assert j >= i;
    RetriedBy(emu, es, steps, i, j);
  }
}
