/** What creating and deleting achieve: which sessions and terminals exist, told from the steps of a run. */
module DeleteEffect {
  import opened Prelude
  import opened TerminalLifecycle
  import opened CreateDelete

  // ---- Sessions ------------------------------------------------------------

  /** The call's deletion is about this session. */
  predicate Covers(w: World, i: nat, s: SessionId) {
    && i < |w.tickets| && w.tickets[i].job.DeleteJob? && s in w.home && w.home[s] == w.tickets[i].project
    && (w.tickets[i].job.only == None || w.tickets[i].job.only == Some(s))
  }

  /** A step that deletes the rows of this session. */
  predicate Deletes(w: World, step: Step, s: SessionId) {
    step.DoDeleteRows? && Covers(w, step.i, s)
  }

  /** It was made at step `k`, and nothing deleted it since. */
  ghost predicate MadeAndKept(ws: seq<World>, steps: seq<Step>, k: int, n: int, s: SessionId) {
    && 0 <= k < n <= |steps| && |ws| == |steps| + 1 && steps[k].DoNewSession? && steps[k].s == s
    && forall j :: k < j < n ==> !Deletes(ws[j], steps[j], s)
  }

  /** What one step does to the sessions. */
  lemma SessionsMove(w: World, step: Step, s: SessionId)
    requires Enabled(w, step)
    ensures s in Next(w, step).sessions <==>
      (step.DoNewSession? && step.s == s) || (s in w.sessions && !Deletes(w, step, s))
    ensures s in Next(w, step).home <==> s in w.home || (step.DoNewSession? && step.s == s)
    ensures s in w.home ==> Next(w, step).home[s] == w.home[s]
  {
  }

  /**
   A session exists exactly if it was made and no deletion in whose scope it is
   has deleted its row since: a deletion takes all sessions of its scope and no
   other, and none of them ever comes back.
   */
  lemma {:induction false} SessionExistsIff(ws: seq<World>, steps: seq<Step>, n: nat, s: SessionId)
    requires Run(ws, steps) && n < |ws|
    ensures s in ws[n].sessions <==> exists k :: MadeAndKept(ws, steps, k, n, s)
    decreases n
  {
    if n > 0 {
      SessionExistsIff(ws, steps, n - 1, s);
      SessionsMove(ws[n - 1], steps[n - 1], s);
      MadeMoves(ws, steps, n - 1, n, s);
    }
  }

  lemma MadeMoves(ws: seq<World>, steps: seq<Step>, n: nat, m: nat, s: SessionId)
    requires n < |steps| && m == n + 1 && |ws| == |steps| + 1
    ensures (exists k :: MadeAndKept(ws, steps, k, m, s)) <==>
      (steps[n].DoNewSession? && steps[n].s == s) || ((exists k :: MadeAndKept(ws, steps, k, n, s)) && !Deletes(ws[n], steps[n], s))
  {
    if k :| MadeAndKept(ws, steps, k, m, s) {
      assert k < n ==> MadeAndKept(ws, steps, k, n, s) && !Deletes(ws[n], steps[n], s);
    }
    if steps[n].DoNewSession? && steps[n].s == s {
      assert MadeAndKept(ws, steps, n, m, s);
    } else if !Deletes(ws[n], steps[n], s) {
      if k :| MadeAndKept(ws, steps, k, n, s) { assert MadeAndKept(ws, steps, k, m, s); }
    }
  }

  /** From the step on that deletes its row, a session is gone for good. */
  lemma DeletedForGood(ws: seq<World>, steps: seq<Step>, k: nat, n: nat, s: SessionId)
    requires Run(ws, steps) && k < n < |ws| && Deletes(ws[k], steps[k], s)
    ensures s !in ws[n].sessions
  {
    SessionExistsIff(ws, steps, n, s);
    if m :| MadeAndKept(ws, steps, m, n, s) {
      if m >= k { MadeAfter(ws, steps, k, m, s); }
    }
  }

  /** A session that is known is not made again. */
  lemma MadeAfter(ws: seq<World>, steps: seq<Step>, k: nat, m: nat, s: SessionId)
    requires Run(ws, steps) && k <= m < |steps| && s in ws[k].home
    ensures s in ws[m].home && !(steps[m].DoNewSession? && steps[m].s == s)
  {
    SameHome(ws, steps, k, m, s);
    assert Enabled(ws[m], steps[m]);
  }

  // ---- Terminals -----------------------------------------------------------

  /** A terminal in the scope of the call's deletion. */
  predicate InCallScope(w: World, i: nat, t: Terminal) {
    && i < |w.tickets| && w.tickets[i].job.DeleteJob? && t.project == w.tickets[i].project
    && (w.tickets[i].job.only == None || w.tickets[i].job.only == Some(t.session))
  }

  /** The step removes the terminal: it was closed for good, its spawn failed, or its session was deleted. */
  predicate Removes(w: World, step: Step, id: TerminalId) {
    match step
    case DoDispose(t) => t == id
    case DoSpawned(i, ok) => !ok && i < |w.tickets| && w.tickets[i].phase == Inserted(id)
    case DoDiscard(i) => id in w.entries && InCallScope(w, i, w.entries[id])
    case _ => false
  }

  /** The step puts the terminal in both tables. */
  predicate Adds(step: Step, id: TerminalId) {
    step.DoInsert? && step.t == id
  }

  ghost predicate AddedAndKept(ws: seq<World>, steps: seq<Step>, k: int, n: int, id: TerminalId) {
    && 0 <= k < n <= |steps| && |ws| == |steps| + 1 && Adds(steps[k], id)
    && forall j :: k < j < n ==> !Removes(ws[j], steps[j], id)
  }

  /** What one step does to a terminal. */
  lemma TerminalsMove(w: World, step: Step, id: TerminalId)
    requires Enabled(w, step) && w.resources == w.entries
    ensures id in Next(w, step).entries <==> Adds(step, id) || (id in w.entries && !Removes(w, step, id))
    ensures Adds(step, id) ==>
      step.i < |w.tickets| && Next(w, step).entries[id] == Terminal(w.tickets[step.i].project, w.tickets[step.i].job.session, Starting)
    ensures id in w.entries && id in Next(w, step).entries && !Adds(step, id) ==>
      Next(w, step).entries[id] == w.entries[id].(state := StateAfter(w, step, id))
  {
    match step
    case DoSpawned(i, ok) => SpawnMoves(w, i, ok, id);
    case DoDiscard(i) => DiscardMoves(w, i, id);
    case DoDispose(_) =>
    case DoSetState(_, _) =>
    case DoInsert(_, _) =>
    case _ => OthersKeepTerminals(w, step);
  }

  lemma SpawnMoves(w: World, i: nat, ok: bool, id: TerminalId)
    requires i < |w.tickets| && w.tickets[i].phase.Inserted?
    ensures var next := SpawnReturns(w, i, ok).entries;
      && (id in next <==> id in w.entries && (ok || w.tickets[i].phase != Inserted(id)))
      && (id in next ==> next[id] == w.entries[id].(state := StateAfter(w, DoSpawned(i, ok), id)))
  {
  }

  lemma DiscardMoves(w: World, i: nat, id: TerminalId)
    requires i < |w.tickets| && w.tickets[i].job.DeleteJob? && w.resources == w.entries
    ensures var next := Discard(w, i).entries;
      && (id in next <==> id in w.entries && !InCallScope(w, i, w.entries[id])) && (id in next ==> next[id] == w.entries[id])
  {
  }

  lemma OthersKeepTerminals(w: World, step: Step)
    requires Enabled(w, step)
    requires !step.DoSpawned? && !step.DoDiscard? && !step.DoDispose? && !step.DoSetState? && !step.DoInsert?
    ensures Next(w, step).entries == w.entries
  {
  }

  function StateAfter(w: World, step: Step, id: TerminalId): State
    requires id in w.entries
  {
    match step
    case DoSpawned(i, ok) => if ok && i < |w.tickets| && w.tickets[i].phase == Inserted(id) then Running else w.entries[id].state
    case DoSetState(t, state) => if t == id then state else w.entries[id].state
    case _ => w.entries[id].state
  }

  /**
   A terminal is in the tables exactly if a creation put it there and nothing
   removed it since, and both tables have it.
   */
  lemma {:induction false} TerminalExistsIff(ws: seq<World>, steps: seq<Step>, n: nat, id: TerminalId)
    requires Run(ws, steps) && n < |ws|
    ensures id in ws[n].entries <==> exists k :: AddedAndKept(ws, steps, k, n, id)
    ensures ws[n].resources == ws[n].entries
    decreases n
  {
    CreateVersusDelete(ws, steps, n);
    if n > 0 {
      TerminalExistsIff(ws, steps, n - 1, id);
      TerminalsMove(ws[n - 1], steps[n - 1], id);
      AddedMoves(ws, steps, n - 1, n, id);
    }
  }

  lemma AddedMoves(ws: seq<World>, steps: seq<Step>, n: nat, m: nat, id: TerminalId)
    requires n < |steps| && m == n + 1 && |ws| == |steps| + 1
    ensures (exists k :: AddedAndKept(ws, steps, k, m, id)) <==>
      Adds(steps[n], id) || ((exists k :: AddedAndKept(ws, steps, k, n, id)) && !Removes(ws[n], steps[n], id))
  {
    if k :| AddedAndKept(ws, steps, k, m, id) {
      assert k < n ==> AddedAndKept(ws, steps, k, n, id) && !Removes(ws[n], steps[n], id);
    }
    if Adds(steps[n], id) {
      assert AddedAndKept(ws, steps, n, m, id);
    } else if !Removes(ws[n], steps[n], id) {
      if k :| AddedAndKept(ws, steps, k, n, id) { assert AddedAndKept(ws, steps, k, m, id); }
    }
  }

  /** When a deletion has discarded, neither table holds a terminal in its scope, and the others are as before. */
  lemma DiscardedAll(ws: seq<World>, steps: seq<Step>, n: nat, id: TerminalId)
    requires Run(ws, steps) && n < |steps| && steps[n].DoDiscard?
    ensures ws[n + 1].resources == ws[n + 1].entries
    ensures id in ws[n + 1].entries <==> id in ws[n].entries && !InCallScope(ws[n], steps[n].i, ws[n].entries[id])
    ensures id in ws[n + 1].entries ==> ws[n + 1].entries[id] == ws[n].entries[id]
  {
    CreateVersusDelete(ws, steps, n);
    CreateVersusDelete(ws, steps, n + 1);
    TerminalsMove(ws[n], steps[n], id);
  }

  /** No terminal of a deleted session comes into being any more, and once the deletion has discarded, none is left. */
  lemma {:induction false} NoneOfDeleted(ws: seq<World>, steps: seq<Step>, k: nat, d: nat, n: nat, s: SessionId)
    requires Run(ws, steps) && k < d < n < |ws| && Deletes(ws[k], steps[k], s)
    requires steps[d].DoDiscard? && steps[d].i == steps[k].i
    ensures forall id :: id in ws[n].entries || id in ws[n].resources ==>
      id in ws[n].entries && id in ws[n].resources && ws[n].entries[id].session != s
    decreases n
  {
    CreateVersusDelete(ws, steps, n);
    DeletedForGood(ws, steps, k, n - 1, s);
    forall id | id in ws[n].entries ensures ws[n].entries[id].session != s {
      CreateVersusDelete(ws, steps, n - 1);
      TerminalsMove(ws[n - 1], steps[n - 1], id);
      if Adds(steps[n - 1], id) {
        assert HolderOk(ws[n - 1], ws[n - 1].tickets[steps[n - 1].i]);
      } else if d == n - 1 {
        ScopeStays(ws, steps, k, d, id, s);
      } else {
        NoneOfDeleted(ws, steps, k, d, n - 1, s);
      }
    }
  }

  /** A terminal of the deleted session is still in the scope when the deletion discards. */
  lemma ScopeStays(ws: seq<World>, steps: seq<Step>, k: nat, d: nat, id: TerminalId, s: SessionId)
    requires Run(ws, steps) && k < d < |ws| && Deletes(ws[k], steps[k], s) && id in ws[d].entries
    ensures ws[d].entries[id].session == s ==> InCallScope(ws[d], steps[k].i, ws[d].entries[id])
  {
    CreateVersusDelete(ws, steps, d);
    SameCall(ws, steps, k, d, steps[k].i);
    SameHome(ws, steps, k, d, s);
    assert EntryOk(ws[d], ws[d].entries[id]);
  }

  /** A call keeps its project and its job. */
  lemma {:induction false} SameCall(ws: seq<World>, steps: seq<Step>, k: nat, n: nat, i: nat)
    requires Run(ws, steps) && k <= n < |ws| && i < |ws[k].tickets|
    ensures i < |ws[n].tickets|
    ensures ws[n].tickets[i].project == ws[k].tickets[i].project && ws[n].tickets[i].job == ws[k].tickets[i].job
    decreases n
  {
    if k < n {
      SameCall(ws, steps, k, n - 1, i);
      CallStays(ws[n - 1], steps[n - 1], i);
    }
  }

  lemma CallStays(w: World, step: Step, i: nat)
    requires Enabled(w, step) && i < |w.tickets|
    ensures var v := Next(w, step);
      i < |v.tickets| && v.tickets[i].project == w.tickets[i].project && v.tickets[i].job == w.tickets[i].job
  {
    if IsAction(step) { ActionMoves(w, step); }
  }

  lemma {:induction false} SameHome(ws: seq<World>, steps: seq<Step>, k: nat, n: nat, s: SessionId)
    requires Run(ws, steps) && k <= n < |ws| && s in ws[k].home
    ensures s in ws[n].home && ws[n].home[s] == ws[k].home[s]
    decreases n
  {
    if k < n {
      SameHome(ws, steps, k, n - 1, s);
      SessionsMove(ws[n - 1], steps[n - 1], s);
    }
  }

  // ---- Decisions -----------------------------------------------------------

  /**
   Under the lock a creation goes on exactly if its session still exists and has
   fewer than sixteen terminals, and a deletion exactly if no terminal in its
   scope is starting, running or closing.
   */
  lemma Decides(ws: seq<World>, steps: seq<Step>, n: nat)
    requires Run(ws, steps) && n < |steps|
    ensures steps[n].DoCheckCreate? ==> var w, i := ws[n], steps[n].i;
      i < |ws[n + 1].tickets| && ws[n + 1].tickets[i].phase ==
      if w.tickets[i].job.session in w.sessions && |set t | t in w.entries && w.entries[t].session == w.tickets[i].job.session| < 16
      then Checked else Done
    ensures steps[n].DoAssertDeletable? ==> var w, i := ws[n], steps[n].i;
      i < |ws[n + 1].tickets| && ws[n + 1].tickets[i].phase ==
      if exists t :: t in w.entries && InCallScope(w, i, w.entries[t]) && w.entries[t].state != Exited then Done else Deletable
  {
    CreateVersusDelete(ws, steps, n);
    assert Enabled(ws[n], steps[n]);
    if steps[n].DoCheckCreate? {
      var s := ws[n].tickets[steps[n].i].job.session;
      assert OfSession(ws[n].entries, s) == set t | t in ws[n].entries && ws[n].entries[t].session == s;
    }
  }

  /** How the calls go on otherwise. */
  lemma Proceeds(ws: seq<World>, steps: seq<Step>, n: nat, i: nat)
    requires Run(ws, steps) && n < |steps| && i < |ws[n].tickets|
    ensures i < |ws[n + 1].tickets|
    ensures var phase := ws[n + 1].tickets[i].phase;
      match steps[n]
      case DoBegin(j) => j == i ==> phase == Begun
      case DoInsert(j, t) => j == i ==> phase == Inserted(t)
      case DoDeleteRows(j) => j == i ==> phase == RowsDeleted
      case DoGiveUp(j) => j == i ==> phase == Done
      case DoSpawned(j, _) => j == i ==> phase == Done
      case DoDiscard(j) => j == i ==> phase == Done
      case DoCheckCreate(j) => true
      case DoAssertDeletable(j) => true
      case _ => phase == ws[n].tickets[i].phase
    ensures IsAction(steps[n]) && steps[n].i != i ==> ws[n + 1].tickets[i] == ws[n].tickets[i]
  {
    if IsAction(steps[n]) { ActionMoves(ws[n], steps[n]); }
  }

  // ---- Who is waited for ---------------------------------------------------

  /** The call that the next one for the project will wait for. */
  function Waited(w: World, p: ProjectId): Option<nat> {
    if p in w.locks then Some(w.locks[p]) else None
  }

  /** The call that arrived at step `k` is the last for its project, and its promise was not removed. */
  ghost predicate LastCall(ws: seq<World>, steps: seq<Step>, k: int, n: int, p: ProjectId) {
    && 0 <= k < n <= |steps| && |ws| == |steps| + 1 && steps[k].DoArrive? && steps[k].p == p
    && forall j :: k < j < n ==> !(steps[j].DoArrive? && steps[j].p == p) && steps[j] != DoCleanup(|ws[k].tickets|)
  }

  lemma WaitedMoves(w: World, step: Step, p: ProjectId)
    requires Enabled(w, step) && LocksOk(w)
    ensures Waited(Next(w, step), p) ==
      if step.DoArrive? && step.p == p then Some(|w.tickets|)
      else if step.DoCleanup? && Waited(w, p) == Some(step.i) then None
      else Waited(w, p)
  {
    assert BehindIs(w.tickets, |w.tickets|, p, Waited(w, p));
    if IsAction(step) { ActionMoves(w, step); }
  }

  /** What one step does to it. */
  ghost predicate WaitedAt(ws: seq<World>, steps: seq<Step>, m: int, p: ProjectId)
    requires |ws| == |steps| + 1 && 0 <= m < |steps|
  {
    Waited(ws[m + 1], p) ==
      if steps[m].DoArrive? && steps[m].p == p then Some(|ws[m].tickets|)
      else if steps[m].DoCleanup? && Waited(ws[m], p) == Some(steps[m].i) then None
      else Waited(ws[m], p)
  }

  lemma {:induction false} WaitedFrom(ws: seq<World>, steps: seq<Step>, n: nat, p: ProjectId)
    requires |ws| == |steps| + 1 && n < |ws| && Waited(ws[0], p) == None
    requires forall m :: 0 <= m < n ==> WaitedAt(ws, steps, m, p)
    ensures Waited(ws[n], p).Some? <==> exists k :: LastCall(ws, steps, k, n, p)
    ensures forall k :: LastCall(ws, steps, k, n, p) ==> Waited(ws[n], p) == Some(|ws[k].tickets|)
    decreases n
  {
    if n > 0 {
      var m := n - 1;
      WaitedFrom(ws, steps, m, p);
      assert WaitedAt(ws, steps, m, p);
      forall k | LastCall(ws, steps, k, n, p) ensures Waited(ws[n], p) == Some(|ws[k].tickets|) {
        assert k < m ==> LastCall(ws, steps, k, m, p);
      }
      if Waited(ws[n], p).Some? {
        if steps[m].DoArrive? && steps[m].p == p {
          assert LastCall(ws, steps, m, n, p);
        } else {
          var k :| LastCall(ws, steps, k, m, p);
          assert LastCall(ws, steps, k, n, p);
        }
      }
    }
  }

  /**
   The table of promises holds exactly those that somebody may still have to wait
   for: a project has one exactly if its last call has not cleaned up after itself.
   */
  lemma LocksAreTold(ws: seq<World>, steps: seq<Step>, n: nat, p: ProjectId)
    requires Run(ws, steps) && n < |ws|
    ensures Waited(ws[n], p).Some? <==> exists k :: LastCall(ws, steps, k, n, p)
    ensures forall k :: LastCall(ws, steps, k, n, p) ==> Waited(ws[n], p) == Some(|ws[k].tickets|)
  {
    forall m | 0 <= m < n ensures WaitedAt(ws, steps, m, p) {
      AlwaysSerial(ws, steps, m);
      WaitedMoves(ws[m], steps[m], p);
    }
    WaitedFrom(ws, steps, n, p);
  }
}
