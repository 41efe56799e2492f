/**
 Creating terminals against deleting sessions and projects: the per-project
 lock, and the table of terminals that both sides see.
 */
module TerminalLifecycle {
  import opened Prelude

  const MAX_PER_SESSION := 16

  type ProjectId = string
  type SessionId = string
  type TerminalId = string

  datatype State = Starting | Running | Closing | Exited

  predicate Active(s: State) {
    s != Exited
  }

  datatype Terminal = Terminal(project: ProjectId, session: SessionId, state: State)

  /** Deleting one session, or with `None` the whole project. */
  datatype Job = CreateJob(session: SessionId) | DeleteJob(only: Option<SessionId>)

  /** Where the action of a lock holder stands. Everything from `Begun` to the last phase runs under the lock. */
  datatype Phase =
    | Waiting
    | Begun
    | Checked
    | Inserted(terminal: TerminalId)
    | Deletable
    | RowsDeleted
    | Done

  /** A call of `withProject`; `previous` is the promise it waits for. */
  datatype Ticket = Ticket(project: ProjectId, previous: Option<nat>, job: Job, phase: Phase)

  /** `home` gives the project of each session that ever existed; `sessions` those that do. */
  datatype World = World(
    home: map<SessionId, ProjectId>,
    sessions: set<SessionId>,
    entries: map<TerminalId, Terminal>,
    resources: map<TerminalId, Terminal>,
    locks: map<ProjectId, nat>,
    tickets: seq<Ticket>)

  predicate Holds(t: Ticket) {
    t.phase != Waiting && t.phase != Done
  }

  // ---- The lock ------------------------------------------------------------

  function Arrive(w: World, project: ProjectId, job: Job): World {
    w.(tickets := w.tickets + [Ticket(project, if project in w.locks then Some(w.locks[project]) else None, job, Waiting)],
       locks := w.locks[project := |w.tickets|])
  }

  function Move(w: World, i: nat, phase: Phase): World
    requires i < |w.tickets|
  {
    w.(tickets := w.tickets[i := w.tickets[i].(phase := phase)])
  }

  predicate MayBegin(w: World, i: nat) {
    && i < |w.tickets| && w.tickets[i].phase == Waiting
    && (w.tickets[i].previous.Some? ==>
          w.tickets[i].previous.value < |w.tickets| && w.tickets[w.tickets[i].previous.value].phase == Done)
  }

  /** After its action a call removes its promise, if no later call replaced it. */
  function Cleanup(w: World, i: nat): World
    requires i < |w.tickets|
  {
    var p := w.tickets[i].project;
    if p in w.locks && w.locks[p] == i then w.(locks := w.locks - {p}) else w
  }

  // ---- Terminals -----------------------------------------------------------

  function OfSession(entries: map<TerminalId, Terminal>, s: SessionId): set<TerminalId> {
    set t | t in entries && entries[t].session == s
  }

  predicate InScope(t: Terminal, project: ProjectId, only: Option<SessionId>) {
    t.project == project && (only.Some? ==> t.session == only.value)
  }

  function SetState(w: World, t: TerminalId, state: State): World {
    w.(entries := if t in w.entries then w.entries[t := w.entries[t].(state := state)] else w.entries,
       resources := if t in w.resources then w.resources[t := w.resources[t].(state := state)] else w.resources)
  }

  function Dispose(w: World, ts: set<TerminalId>): World {
    w.(entries := w.entries - ts, resources := w.resources - ts)
  }

  // ---- Creating ------------------------------------------------------------

  /** The session is read again under the lock, and the limit is checked. */
  function CheckCreate(w: World, i: nat): World
    requires i < |w.tickets| && w.tickets[i].job.CreateJob?
  {
    var s := w.tickets[i].job.session;
    if s !in w.sessions || |OfSession(w.entries, s)| >= MAX_PER_SESSION then Move(w, i, Done) else Move(w, i, Checked)
  }

  function InsertTerminal(w: World, i: nat, t: TerminalId): World
    requires i < |w.tickets| && w.tickets[i].job.CreateJob?
  {
    var terminal := Terminal(w.tickets[i].project, w.tickets[i].job.session, Starting);
    Move(w.(entries := w.entries[t := terminal], resources := w.resources[t := terminal]), i, Inserted(t))
  }

  function SpawnReturns(w: World, i: nat, ok: bool): World
    requires i < |w.tickets| && w.tickets[i].phase.Inserted?
  {
    var t := w.tickets[i].phase.terminal;
    Move(if ok then SetState(w, t, Running) else Dispose(w, {t}), i, Done)
  }

  // ---- Deleting ------------------------------------------------------------

  function AssertDeletable(w: World, i: nat): World
    requires i < |w.tickets| && w.tickets[i].job.DeleteJob?
  {
    var ticket := w.tickets[i];
    if exists t :: t in w.resources && InScope(w.resources[t], ticket.project, ticket.job.only) && Active(w.resources[t].state)
    then Move(w, i, Done)
    else Move(w, i, Deletable)
  }

  function DeleteRows(w: World, i: nat): World
    requires i < |w.tickets| && w.tickets[i].job.DeleteJob?
  {
    var ticket := w.tickets[i];
    Move(w.(sessions := set s | s in w.sessions && !(s in w.home && w.home[s] == ticket.project
                                                      && (ticket.job.only.Some? ==> s == ticket.job.only.value))),
         i, RowsDeleted)
  }

  function Discard(w: World, i: nat): World
    requires i < |w.tickets| && w.tickets[i].job.DeleteJob?
  {
    var ticket := w.tickets[i];
    Move(Dispose(w, set t | t in w.resources && InScope(w.resources[t], ticket.project, ticket.job.only)), i, Done)
  }

  // ---- Runs ----------------------------------------------------------------

  datatype Step =
    | DoNewSession(s: SessionId, p: ProjectId)
    | DoArrive(p: ProjectId, job: Job)
    | DoBegin(i: nat)
    | DoGiveUp(i: nat)
    | DoCheckCreate(i: nat)
    | DoInsert(i: nat, t: TerminalId)
    | DoSpawned(i: nat, ok: bool)
    | DoAssertDeletable(i: nat)
    | DoDeleteRows(i: nat)
    | DoDiscard(i: nat)
    | DoCleanup(i: nat)
    | DoSetState(t: TerminalId, state: State)
    | DoDispose(t: TerminalId)

  predicate InPhase(w: World, i: nat, phase: Phase) {
    i < |w.tickets| && w.tickets[i].phase == phase
  }

  /** Terminal ids are random. */
  predicate NewTerminal(w: World, t: TerminalId) {
    t !in w.entries && t !in w.resources && forall k :: 0 <= k < |w.tickets| ==> w.tickets[k].phase != Inserted(t)
  }

  /**
   A call names a session of its project. An action may give up at any point
   before it changed anything. Outside the lock a terminal only moves on: one that
   has exited does not come back.
   */
  predicate Enabled(w: World, step: Step) {
    match step
    case DoNewSession(s, _) => s !in w.home
    case DoArrive(p, job) =>
      && (job.CreateJob? ==> job.session in w.home && w.home[job.session] == p)
      && (job.DeleteJob? && job.only.Some? ==> job.only.value in w.home && w.home[job.only.value] == p)
    case DoBegin(i) => MayBegin(w, i)
    case DoGiveUp(i) => InPhase(w, i, Begun) || InPhase(w, i, Checked) || InPhase(w, i, Deletable)
    case DoCheckCreate(i) => InPhase(w, i, Begun) && w.tickets[i].job.CreateJob?
    case DoInsert(i, t) => InPhase(w, i, Checked) && w.tickets[i].job.CreateJob? && NewTerminal(w, t)
    case DoSpawned(i, _) => i < |w.tickets| && w.tickets[i].phase.Inserted?
    case DoAssertDeletable(i) => InPhase(w, i, Begun) && w.tickets[i].job.DeleteJob?
    case DoDeleteRows(i) => InPhase(w, i, Deletable) && w.tickets[i].job.DeleteJob?
    case DoDiscard(i) => InPhase(w, i, RowsDeleted) && w.tickets[i].job.DeleteJob?
    case DoCleanup(i) => InPhase(w, i, Done)
    case DoSetState(t, state) => t in w.entries && Active(w.entries[t].state) && state != Starting && state != Running
    case DoDispose(_) => true
  }

  function Next(w: World, step: Step): World
    requires Enabled(w, step)
  {
    match step
    case DoNewSession(s, p) => w.(home := w.home[s := p], sessions := w.sessions + {s})
    case DoArrive(p, job) => Arrive(w, p, job)
    case DoBegin(i) => Move(w, i, Begun)
    case DoGiveUp(i) => Move(w, i, Done)
    case DoCheckCreate(i) => CheckCreate(w, i)
    case DoInsert(i, t) => InsertTerminal(w, i, t)
    case DoSpawned(i, ok) => SpawnReturns(w, i, ok)
    case DoAssertDeletable(i) => AssertDeletable(w, i)
    case DoDeleteRows(i) => DeleteRows(w, i)
    case DoDiscard(i) => Discard(w, i)
    case DoCleanup(i) => Cleanup(w, i)
    case DoSetState(t, state) => SetState(w, t, state)
    case DoDispose(t) => Dispose(w, {t})
  }

  function Initial(): World {
    World(map[], {}, map[], map[], map[], [])
  }

  ghost predicate Run(ws: seq<World>, steps: seq<Step>) {
    && |ws| == |steps| + 1 && ws[0] == Initial()
    && forall i :: 0 <= i < |steps| ==> Enabled(ws[i], steps[i]) && ws[i + 1] == Next(ws[i], steps[i])
  }

  // ---- The lock is fair and exclusive --------------------------------------

  /** Of two calls for a project, the later one has not begun unless the earlier one is done. */
  ghost predicate Serial(tickets: seq<Ticket>) {
    forall i, j :: 0 <= i < j < |tickets| && tickets[i].project == tickets[j].project && tickets[j].phase != Waiting ==>
      tickets[i].phase == Done
  }

  /** Every call of the project before `n`, other than `k`, is done once `k` is. */
  ghost predicate BehindIs(tickets: seq<Ticket>, n: int, p: ProjectId, k: Option<nat>)
    requires 0 <= n <= |tickets|
  {
    && (k.Some? ==> k.value < n && tickets[k.value].project == p)
    && forall i :: (if k.Some? then k.value + 1 else 0) <= i < n && tickets[i].project == p ==> tickets[i].phase == Done
  }

  ghost predicate LocksOk(w: World) {
    && (forall j :: 0 <= j < |w.tickets| ==> BehindIs(w.tickets, j, w.tickets[j].project, w.tickets[j].previous))
    && (forall p :: BehindIs(w.tickets, |w.tickets|, p, if p in w.locks then Some(w.locks[p]) else None))
  }

  lemma ArriveKeepsLocks(w: World, p: ProjectId, job: Job)
    requires LocksOk(w) && Serial(w.tickets)
    ensures LocksOk(Arrive(w, p, job)) && Serial(Arrive(w, p, job).tickets)
  {
    var v := Arrive(w, p, job);
    var n := |w.tickets|;
    forall j | 0 <= j < |v.tickets| ensures BehindIs(v.tickets, j, v.tickets[j].project, v.tickets[j].previous) {
      if j < n {
        assert BehindIs(w.tickets, j, w.tickets[j].project, w.tickets[j].previous);
      } else {
        assert BehindIs(w.tickets, n, p, v.tickets[j].previous);
      }
    }
    forall q ensures BehindIs(v.tickets, n + 1, q, if q in v.locks then Some(v.locks[q]) else None) {
      assert BehindIs(w.tickets, n, q, if q in w.locks then Some(w.locks[q]) else None);
    }
  }

  /** A call moves on: it begins, or goes from one phase under the lock to another, or is done. */
  lemma MoveKeepsLocks(w: World, i: nat, phase: Phase)
    requires LocksOk(w) && Serial(w.tickets) && i < |w.tickets| && phase != Waiting
    requires Holds(w.tickets[i]) || MayBegin(w, i)
    ensures LocksOk(Move(w, i, phase)) && Serial(Move(w, i, phase).tickets)
  {
    var v := Move(w, i, phase);
    MoveKeepsBehind(w, i, phase);
    MoveKeepsSerial(w, i, phase);
  }

  lemma MoveKeepsBehind(w: World, i: nat, phase: Phase)
    requires LocksOk(w) && i < |w.tickets| && w.tickets[i].phase != Done
    ensures LocksOk(Move(w, i, phase))
  {
    var v := Move(w, i, phase);
    forall j | 0 <= j < |v.tickets| ensures BehindIs(v.tickets, j, v.tickets[j].project, v.tickets[j].previous) {
      assert BehindIs(w.tickets, j, w.tickets[j].project, w.tickets[j].previous);
    }
    forall q ensures BehindIs(v.tickets, |v.tickets|, q, if q in v.locks then Some(v.locks[q]) else None) {
      assert BehindIs(w.tickets, |w.tickets|, q, if q in w.locks then Some(w.locks[q]) else None);
    }
  }

  lemma MoveKeepsSerial(w: World, i: nat, phase: Phase)
    requires LocksOk(w) && Serial(w.tickets) && i < |w.tickets|
    requires Holds(w.tickets[i]) || MayBegin(w, i)
    ensures Serial(Move(w, i, phase).tickets)
  {
    var v := Move(w, i, phase);
    if MayBegin(w, i) {
      assert BehindIs(w.tickets, i, w.tickets[i].project, w.tickets[i].previous);
    }
    forall a, b | 0 <= a < b < |v.tickets| && v.tickets[a].project == v.tickets[b].project && v.tickets[b].phase != Waiting
      ensures v.tickets[a].phase == Done
    {
      if b == i && MayBegin(w, i) && w.tickets[i].previous.Some? {
        var k := w.tickets[i].previous.value;
        if a < k { assert w.tickets[a].phase == Done; }
      }
    }
  }

  lemma CleanupKeepsLocks(w: World, i: nat)
    requires LocksOk(w) && Serial(w.tickets) && InPhase(w, i, Done)
    ensures LocksOk(Cleanup(w, i)) && Serial(Cleanup(w, i).tickets)
  {
    var v := Cleanup(w, i);
    forall q ensures BehindIs(v.tickets, |v.tickets|, q, if q in v.locks then Some(v.locks[q]) else None) {
      assert BehindIs(w.tickets, |w.tickets|, q, if q in w.locks then Some(w.locks[q]) else None);
    }
  }

  lemma StepKeepsLocks(w: World, step: Step)
    requires LocksOk(w) && Serial(w.tickets) && Enabled(w, step)
    ensures LocksOk(Next(w, step)) && Serial(Next(w, step).tickets)
  {
    var v := Next(w, step);
    match step
    case DoArrive(p, job) => ArriveKeepsLocks(w, p, job);
    case DoCleanup(i) => CleanupKeepsLocks(w, i);
    case DoBegin(i) => MoveKeepsLocks(w, i, Begun);
    case DoNewSession(_, _) => SameLocks(w, v);
    case DoSetState(_, _) => SameLocks(w, v);
    case DoDispose(_) => SameLocks(w, v);
    case _ => ActionKeepsLocks(w, step);
  }

  predicate IsAction(step: Step) {
    || step.DoGiveUp? || step.DoCheckCreate? || step.DoInsert? || step.DoSpawned? || step.DoAssertDeletable?
    || step.DoDeleteRows? || step.DoDiscard?
  }

  /** The steps of an action move its own call, and touch neither the other calls nor the locks. */
  lemma ActionMoves(w: World, step: Step)
    requires Enabled(w, step) && IsAction(step)
    ensures step.i < |w.tickets| && Holds(w.tickets[step.i])
    ensures var v := Next(w, step); var phase := v.tickets[step.i].phase;
      |v.tickets| == |w.tickets| && phase != Waiting
      && v.tickets == Move(w, step.i, phase).tickets && v.locks == w.locks
  {
  }

  lemma ActionKeepsLocks(w: World, step: Step)
    requires LocksOk(w) && Serial(w.tickets) && Enabled(w, step) && IsAction(step)
    ensures LocksOk(Next(w, step)) && Serial(Next(w, step).tickets)
  {
    ActionMoves(w, step);
    var phase := Next(w, step).tickets[step.i].phase;
    MoveKeepsLocks(w, step.i, phase);
    SameLocks(Move(w, step.i, phase), Next(w, step));
  }

  lemma SameLocks(w: World, v: World)
    requires v.tickets == w.tickets && v.locks == w.locks
    requires LocksOk(w) && Serial(w.tickets)
    ensures LocksOk(v) && Serial(v.tickets)
  {
    forall j | 0 <= j < |v.tickets| ensures BehindIs(v.tickets, j, v.tickets[j].project, v.tickets[j].previous) {
      assert BehindIs(w.tickets, j, w.tickets[j].project, w.tickets[j].previous);
    }
    forall q ensures BehindIs(v.tickets, |v.tickets|, q, if q in v.locks then Some(v.locks[q]) else None) {
      assert BehindIs(w.tickets, |w.tickets|, q, if q in w.locks then Some(w.locks[q]) else None);
    }
  }

  /** At most one action per project runs, and they run in arrival order. */
  lemma {:induction false} AlwaysSerial(ws: seq<World>, steps: seq<Step>, n: nat)
    requires Run(ws, steps) && n < |ws|
    ensures LocksOk(ws[n]) && Serial(ws[n].tickets)
    decreases n
  {
    if n > 0 {
      AlwaysSerial(ws, steps, n - 1);
      StepKeepsLocks(ws[n - 1], steps[n - 1]);
    }
  }
}
