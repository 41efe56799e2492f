/** Creating against deleting: no active terminal outlives its session, and a session has at most sixteen. */
module CreateDelete {
  import opened Prelude
  import opened TerminalLifecycle

  /** The call's session belongs to its project, and its phase fits its job. */
  predicate JobOk(w: World, t: Ticket) {
    match t.job
    case CreateJob(s) => s in w.home && w.home[s] == t.project && t.phase != Deletable && t.phase != RowsDeleted
    case DeleteJob(only) =>
      && (only.Some? ==> only.value in w.home && w.home[only.value] == t.project)
      && t.phase != Checked && !t.phase.Inserted?
  }

  ghost predicate NoneActive(entries: map<TerminalId, Terminal>, p: ProjectId, only: Option<SessionId>) {
    forall t :: t in entries && InScope(entries[t], p, only) ==> !Active(entries[t].state)
  }

  /** What the holder of a lock may rely on between the steps of its action. */
  ghost predicate HolderOk(w: World, t: Ticket) {
    match t.phase
    case Checked => t.job.CreateJob? && t.job.session in w.sessions && |OfSession(w.entries, t.job.session)| < MAX_PER_SESSION
    case Inserted(id) =>
      && t.job.CreateJob? && t.job.session in w.sessions
      && (id in w.entries ==> w.entries[id].session == t.job.session && w.entries[id].project == t.project)
    case Deletable => t.job.DeleteJob? && NoneActive(w.entries, t.project, t.job.only)
    case RowsDeleted => t.job.DeleteJob? && NoneActive(w.entries, t.project, t.job.only)
    case _ => true
  }

  ghost predicate TicketsOk(w: World) {
    forall i :: 0 <= i < |w.tickets| ==> JobOk(w, w.tickets[i]) && HolderOk(w, w.tickets[i])
  }

  predicate EntryOk(w: World, t: Terminal) {
    && t.session in w.home && w.home[t.session] == t.project
    && (Active(t.state) ==> t.session in w.sessions)
  }

  /**
   Both tables agree, every active terminal belongs to a session that exists, and
   no session has more than sixteen.
   */
  ghost predicate Safe(w: World) {
    && w.resources == w.entries
    && (forall s :: s in w.sessions ==> s in w.home)
    && (forall t :: t in w.entries ==> EntryOk(w, w.entries[t]))
    && (forall s :: |OfSession(w.entries, s)| <= MAX_PER_SESSION)
  }

  // ---- Counting ------------------------------------------------------------

  lemma {:induction false} FewerOf<T>(a: set<T>, b: set<T>)
    requires a <= b
    ensures |a| <= |b|
  {
    assert b == a + (b - a);
  }

  /** Terminals may go or change state; none joins a session. */
  ghost predicate Shrinks(before: map<TerminalId, Terminal>, now: map<TerminalId, Terminal>) {
    forall t :: t in now ==>
      && t in before && now[t].session == before[t].session && now[t].project == before[t].project
      && (Active(now[t].state) ==> Active(before[t].state))
  }

  lemma ShrinksCount(before: map<TerminalId, Terminal>, now: map<TerminalId, Terminal>, s: SessionId)
    requires Shrinks(before, now)
    ensures |OfSession(now, s)| <= |OfSession(before, s)|
  {
    FewerOf(OfSession(now, s), OfSession(before, s));
  }

  /** Nothing but the tables changes, and they only shrink. */
  ghost predicate OnlyShrinks(w: World, v: World) {
    && v.home == w.home && v.sessions == w.sessions && v.tickets == w.tickets && v.resources == v.entries
    && Shrinks(w.entries, v.entries)
  }

  lemma ShrinkKeepsHolder(w: World, v: World, t: Ticket)
    requires OnlyShrinks(w, v) && HolderOk(w, t)
    ensures HolderOk(v, t)
  {
    if t.phase == Checked { ShrinksCount(w.entries, v.entries, t.job.session); }
  }

  lemma ShrinkKeeps(w: World, v: World)
    requires OnlyShrinks(w, v) && Safe(w) && TicketsOk(w)
    ensures Safe(v) && TicketsOk(v)
  {
    forall s ensures |OfSession(v.entries, s)| <= MAX_PER_SESSION {
      ShrinksCount(w.entries, v.entries, s);
    }
    forall i | 0 <= i < |v.tickets| ensures JobOk(v, v.tickets[i]) && HolderOk(v, v.tickets[i]) {
      ShrinkKeepsHolder(w, v, w.tickets[i]);
    }
  }

  // ---- One call moves on ---------------------------------------------------

  lemma MoveKeeps(w: World, i: nat, phase: Phase)
    requires Safe(w) && TicketsOk(w) && i < |w.tickets|
    requires var t := w.tickets[i].(phase := phase); JobOk(w, t) && HolderOk(w, t)
    ensures Safe(Move(w, i, phase)) && TicketsOk(Move(w, i, phase))
  {
    var v := Move(w, i, phase);
    forall k | 0 <= k < |v.tickets| ensures JobOk(v, v.tickets[k]) && HolderOk(v, v.tickets[k]) {
      if k != i { assert v.tickets[k] == w.tickets[k]; }
    }
  }

  /** Another call that has begun and is not done is of another project. */
  lemma OtherProject(tickets: seq<Ticket>, i: nat, k: nat)
    requires Serial(tickets) && i < |tickets| && k < |tickets| && i != k
    requires Holds(tickets[i]) && Holds(tickets[k])
    ensures tickets[i].project != tickets[k].project
  {
    if i < k { assert tickets[k].phase != Waiting; } else { assert tickets[i].phase != Waiting; }
  }

  // ---- Creating ------------------------------------------------------------

  lemma InsertCount(entries: map<TerminalId, Terminal>, t: TerminalId, terminal: Terminal, s: SessionId)
    requires t !in entries
    ensures |OfSession(entries[t := terminal], s)| == |OfSession(entries, s)| + if terminal.session == s then 1 else 0
  {
    var more := OfSession(entries[t := terminal], s);
    if terminal.session == s {
      assert more == OfSession(entries, s) + {t};
    } else {
      assert more == OfSession(entries, s);
    }
  }

  lemma InsertKeepsSafe(w: World, i: nat, t: TerminalId)
    requires Safe(w) && TicketsOk(w) && Enabled(w, DoInsert(i, t))
    ensures Safe(InsertTerminal(w, i, t))
  {
    var ticket := w.tickets[i];
    var terminal := Terminal(ticket.project, ticket.job.session, Starting);
    assert JobOk(w, ticket) && HolderOk(w, ticket);
    var v := InsertTerminal(w, i, t);
    forall s ensures |OfSession(v.entries, s)| <= MAX_PER_SESSION {
      InsertCount(w.entries, t, terminal, s);
    }
  }

  lemma InsertKeepsTickets(w: World, i: nat, t: TerminalId)
    requires Safe(w) && TicketsOk(w) && Serial(w.tickets) && Enabled(w, DoInsert(i, t))
    ensures TicketsOk(InsertTerminal(w, i, t))
  {
    var ticket := w.tickets[i];
    var terminal := Terminal(ticket.project, ticket.job.session, Starting);
    assert JobOk(w, ticket) && HolderOk(w, ticket);
    var v := InsertTerminal(w, i, t);
    forall k | 0 <= k < |v.tickets| ensures JobOk(v, v.tickets[k]) && HolderOk(v, v.tickets[k]) {
      assert JobOk(w, w.tickets[k]) && HolderOk(w, w.tickets[k]);
      if k != i && Holds(w.tickets[k]) {
        OtherProject(w.tickets, i, k);
        OtherHolderAfterInsert(w, v, w.tickets[k], t, terminal);
      }
    }
  }

  lemma OtherHolderAfterInsert(w: World, v: World, other: Ticket, t: TerminalId, terminal: Terminal)
    requires t !in w.entries && v.entries == w.entries[t := terminal] && v.sessions == w.sessions && v.home == w.home
    requires JobOk(w, other) && HolderOk(w, other) && terminal.project != other.project && other.phase != Inserted(t)
    requires terminal.session in w.home && w.home[terminal.session] == terminal.project
    ensures HolderOk(v, other)
  {
    if other.job.CreateJob? {
      InsertCount(w.entries, t, terminal, other.job.session);
    }
  }

  lemma SpawnedKeeps(w: World, i: nat)
    requires Safe(w) && TicketsOk(w) && Serial(w.tickets) && i < |w.tickets| && w.tickets[i].phase.Inserted?
    ensures Safe(SpawnReturns(w, i, true)) && TicketsOk(SpawnReturns(w, i, true))
  {
    var ticket := w.tickets[i];
    var id := ticket.phase.terminal;
    assert JobOk(w, ticket) && HolderOk(w, ticket);
    var v := SpawnReturns(w, i, true);
    forall s ensures OfSession(v.entries, s) == OfSession(w.entries, s) { }
    forall k | 0 <= k < |v.tickets| ensures JobOk(v, v.tickets[k]) && HolderOk(v, v.tickets[k]) {
      assert JobOk(w, w.tickets[k]) && HolderOk(w, w.tickets[k]);
      if k != i && Holds(w.tickets[k]) {
        OtherProject(w.tickets, i, k);
      }
    }
  }

  // ---- Deleting ------------------------------------------------------------

  lemma DeleteRowsKeeps(w: World, i: nat)
    requires Safe(w) && TicketsOk(w) && Serial(w.tickets) && Enabled(w, DoDeleteRows(i))
    ensures Safe(DeleteRows(w, i)) && TicketsOk(DeleteRows(w, i))
  {
    var ticket := w.tickets[i];
    assert JobOk(w, ticket) && HolderOk(w, ticket);
    var v := DeleteRows(w, i);
    forall t | t in v.entries ensures EntryOk(v, v.entries[t]) {
      assert EntryOk(w, w.entries[t]);
      if Active(w.entries[t].state) { assert !InScope(w.entries[t], ticket.project, ticket.job.only); }
    }
    forall k | 0 <= k < |v.tickets| ensures JobOk(v, v.tickets[k]) && HolderOk(v, v.tickets[k]) {
      assert JobOk(w, w.tickets[k]) && HolderOk(w, w.tickets[k]);
      if k != i && Holds(w.tickets[k]) {
        OtherProject(w.tickets, i, k);
      }
    }
  }

  // ---- Every step ----------------------------------------------------------

  lemma SimpleStepKeeps(w: World, step: Step)
    requires Safe(w) && TicketsOk(w) && Enabled(w, step)
    requires step.DoNewSession? || step.DoArrive? || step.DoCleanup?
    ensures Safe(Next(w, step)) && TicketsOk(Next(w, step))
  {
    var v := Next(w, step);
    forall k | 0 <= k < |v.tickets| ensures JobOk(v, v.tickets[k]) && HolderOk(v, v.tickets[k]) {
      if k < |w.tickets| { assert v.tickets[k] == w.tickets[k]; }
    }
  }

  lemma ActionStepKeeps(w: World, step: Step)
    requires Safe(w) && TicketsOk(w) && Enabled(w, step)
    requires step.DoBegin? || step.DoGiveUp? || step.DoCheckCreate? || step.DoAssertDeletable?
    ensures Safe(Next(w, step)) && TicketsOk(Next(w, step))
  {
    var i := step.i;
    var t := w.tickets[i];
    assert JobOk(w, t);
    var v := Next(w, step);
    assert v == Move(w, i, v.tickets[i].phase);
    MoveKeeps(w, i, v.tickets[i].phase);
  }

  lemma StepKeepsSafe(w: World, step: Step)
    requires Safe(w) && TicketsOk(w) && Serial(w.tickets) && Enabled(w, step)
    ensures Safe(Next(w, step)) && TicketsOk(Next(w, step))
  {
    match step
    case DoInsert(i, t) =>
      InsertKeepsSafe(w, i, t);
      InsertKeepsTickets(w, i, t);
    case DoSpawned(i, ok) =>
      if ok {
        SpawnedKeeps(w, i);
      } else {
        ShrinkKeeps(w, Dispose(w, {w.tickets[i].phase.terminal}));
        MoveKeeps(Dispose(w, {w.tickets[i].phase.terminal}), i, Done);
      }
    case DoDeleteRows(i) => DeleteRowsKeeps(w, i);
    case DoDiscard(i) =>
      var ts := set t | t in w.resources && InScope(w.resources[t], w.tickets[i].project, w.tickets[i].job.only);
      ShrinkKeeps(w, Dispose(w, ts));
      MoveKeeps(Dispose(w, ts), i, Done);
    case DoSetState(t, state) => ShrinkKeeps(w, SetState(w, t, state));
    case DoDispose(t) => ShrinkKeeps(w, Dispose(w, {t}));
    case DoNewSession(_, _) => SimpleStepKeeps(w, step);
    case DoArrive(_, _) => SimpleStepKeeps(w, step);
    case DoCleanup(_) => SimpleStepKeeps(w, step);
    case _ => ActionStepKeeps(w, step);
  }

  /** In every interleaving of creations, deletions, exits and closings. */
  lemma {:induction false} CreateVersusDelete(ws: seq<World>, steps: seq<Step>, n: nat)
    requires Run(ws, steps) && n < |ws|
    ensures Safe(ws[n]) && TicketsOk(ws[n])
    decreases n
  {
    if n == 0 {
      assert OfSession(ws[0].entries, "") == {};
      forall s ensures OfSession(ws[0].entries, s) == {} { }
    } else {
      CreateVersusDelete(ws, steps, n - 1);
      AlwaysSerial(ws, steps, n - 1);
      StepKeepsSafe(ws[n - 1], steps[n - 1]);
    }
  }
}
