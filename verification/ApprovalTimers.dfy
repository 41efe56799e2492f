/** The time budget of automatic approval, over pauses, resumes and restarts. */
module ApprovalTimers {
  import opened Prelude
  import opened ApprovalQueue

  /** The countdown is visible and running. */
  predicate Counting(w: World, key: Key) {
    IsPending(w, key) && w.rows[key].pausedAt.None?
  }

  /** How long the approval was published and not paused, up to state `n`. */
  function Spent(ws: seq<World>, key: Key, n: nat): int
    requires n < |ws|
  {
    if n == 0 then 0
    else Spent(ws, key, n - 1) + if Counting(ws[n - 1], key) then ws[n].clock - ws[n - 1].clock else 0
  }

  /** What the countdown of a published approval shows. */
  function Remaining(row: Row, now: int): int {
    if row.pausedAt.Some? then (if row.pausedRemaining.Some? then row.pausedRemaining.value else 0)
    else if row.autoApproveAt.Some? then Max(0, row.autoApproveAt.value - now)
    else 0
  }

  /** Before publication there is no time spent and no timer. */
  predicate Untouched(w: World, key: Key, spent: int) {
    spent == 0 && key !in w.timers && key !in w.firing
  }

  predicate TimerOk(w: World, key: Key, spent: int) {
    && spent >= 0
    && (key !in w.rows || IsQueued(w, key) ==> Untouched(w, key, spent))
    && (key in w.timers ==> Counting(w, key) && w.rows[key].autoApproveAt == Some(w.timers[key]))
    && (IsPending(w, key) ==>
          var row := w.rows[key];
          && (row.autoApproveAt.Some? <==> row.budget.Some? && row.pausedAt.None?)
          && (row.pausedAt.Some? ==> row.budget.Some? && row.pausedRemaining.Some?)
          && (row.budget.Some? ==> Remaining(row, w.clock) == Max(0, row.budget.value - spent)))
    && (key in w.firing && IsPending(w, key) && w.rows[key].budget.Some? ==> spent >= w.rows[key].budget.value)
  }

  /** The budget is the turn's setting, and only turns that approve automatically have timers. */
  predicate ConfigOk(w: World, key: Key) {
    && (IsPending(w, key) ==> key.0 in w.turns && w.rows[key].budget == BudgetOf(w.turns[key.0]))
    && (key in w.firing || key in w.timers ==> key.0 in w.turns && w.turns[key.0].autoApprove)
  }

  function BudgetOf(turn: Turn): Option<int> {
    if turn.autoApprove && turn.timeoutSeconds > 0 then Some(turn.timeoutSeconds * 1000) else None
  }

  // ---- One step ------------------------------------------------------------

  lemma PublishKeepsTimer(w: World, turn: TurnId, key: Key, spent: int)
    requires TimerOk(w, key, spent) && ConfigOk(w, key)
    ensures TimerOk(TryPublishNext(w, turn), key, spent) && ConfigOk(TryPublishNext(w, turn), key)
  {
    var first := FirstQueued(w, w.order, turn);
    if !HasPending(w, turn) && first.Some? {
      PublishOne(w, first.value, key, spent);
    }
  }

  lemma PublishOne(w: World, first: Key, key: Key, spent: int)
    requires IsQueued(w, first) && TimerOk(w, key, spent) && ConfigOk(w, key)
    ensures TimerOk(Publish(w, first), key, spent) && ConfigOk(Publish(w, first), key)
  {
  }

  lemma RequestKeepsTimer(w: World, added: Key, key: Key, spent: int)
    requires added !in w.rows && TimerOk(w, key, spent) && ConfigOk(w, key)
    ensures TimerOk(EnqueueRequest(w, added), key, spent) && ConfigOk(EnqueueRequest(w, added), key)
  {
    PublishKeepsTimer(Requeue(w, added), added.0, key, spent);
  }

  lemma ResolveKeepsTimer(w: World, resolved: Key, ok: bool, key: Key, spent: int)
    requires TimerOk(w, key, spent) && ConfigOk(w, key)
    ensures TimerOk(Resolve(w, resolved, ok), key, spent) && ConfigOk(Resolve(w, resolved, ok), key)
  {
    PublishKeepsTimer(Settle(w, resolved, ok), resolved.0, key, spent);
  }

  lemma PauseKeepsTimer(w: World, paused: Key, key: Key, spent: int)
    requires TimerOk(w, key, spent)
    ensures TimerOk(Pause(w, paused), key, spent) && TimerOk(Resume(w, paused), key, spent)
  {
  }

  lemma TimersKeepTimer(w: World, step: Step, key: Key, spent: int)
    requires Enabled(w, step) && (step.DoExpire? || step.DoFire? || step.DoRestart?)
    requires TimerOk(w, key, spent) && ConfigOk(w, key)
    ensures TimerOk(Next(w, step), key, spent) && ConfigOk(Next(w, step), key)
  {
  }

  lemma TickKeepsTimer(w: World, now: int, key: Key, spent: int)
    requires w.clock <= now && TimerOk(w, key, spent)
    ensures TimerOk(w.(clock := now), key, spent + if Counting(w, key) then now - w.clock else 0)
  {
  }

  lemma StepKeepsTimer(w: World, step: Step, key: Key, spent: int)
    requires Enabled(w, step) && (step.DoRequest? ==> step.key !in w.rows)
    requires TimerOk(w, key, spent) && ConfigOk(w, key)
    ensures TimerOk(Next(w, step), key, spent + if Counting(w, key) then Next(w, step).clock - w.clock else 0)
    ensures ConfigOk(Next(w, step), key)
  {
    match step
    case DoTick(now) => TickKeepsTimer(w, now, key, spent);
    case DoRequest(added) => RequestKeepsTimer(w, added, key, spent);
    case DoResolve(resolved, ok) => ResolveKeepsTimer(w, resolved, ok, key, spent);
    case DoPause(paused) => PauseKeepsTimer(w, paused, key, spent);
    case DoResume(resumed) => PauseKeepsTimer(w, resumed, key, spent);
    case DoStartTurn(_, _) =>
    case DoEndTurn(_) =>
    case _ => TimersKeepTimer(w, step, key, spent);
  }

  // ---- Whole runs ----------------------------------------------------------

  lemma {:induction false} AlwaysInBudget(ws: seq<World>, steps: seq<Step>, n: nat, key: Key)
    requires Run(ws, steps) && n < |ws| && FreshRequests(ws, steps)
    ensures TimerOk(ws[n], key, Spent(ws, key, n)) && ConfigOk(ws[n], key)
    decreases n
  {
    if n > 0 {
      AlwaysInBudget(ws, steps, n - 1, key);
      StepKeepsTimer(ws[n - 1], steps[n - 1], key, Spent(ws, key, n - 1));
      assert ws[n] == Next(ws[n - 1], steps[n - 1]);
    }
  }

  /**
   Conservation: at every moment the time spent and the time the countdown
   shows add up to the configured time, until that is used up, whatever
   pauses, resumes and restarts came before.
   */
  lemma SpentAndRemaining(ws: seq<World>, steps: seq<Step>, n: nat, key: Key)
    requires Run(ws, steps) && n < |ws| && FreshRequests(ws, steps)
    requires IsPending(ws[n], key) && ws[n].rows[key].budget.Some?
    ensures var budget := ws[n].rows[key].budget.value;
      && key.0 in ws[n].turns && budget == ws[n].turns[key.0].timeoutSeconds * 1000
      && Remaining(ws[n].rows[key], ws[n].clock) == Max(0, budget - Spent(ws, key, n))
  {
    AlwaysInBudget(ws, steps, n, key);
  }

  /**
   An automatic approval is forwarded only in a turn that approves
   automatically, and only once the approval was published, and not paused, for
   at least the configured time.
   */
  lemma AcceptsOnlyOnTime(ws: seq<World>, steps: seq<Step>, n: nat, key: Key)
    requires Run(ws, steps) && n < |steps| && FreshRequests(ws, steps)
    requires steps[n] == DoFire(key) && ws[n + 1].accepted != ws[n].accepted
    ensures key.0 in ws[n].turns && ws[n].turns[key.0].autoApprove
    ensures Spent(ws, key, n) >= ws[n].turns[key.0].timeoutSeconds * 1000
  {
    AlwaysInBudget(ws, steps, n, key);
    assert ws[n + 1] == Fire(ws[n], key);
  }

  // ---- No countdown without a timer ----------------------------------------

  predicate Armed(w: World, key: Key) {
    key in w.timers || key in w.firing
  }

  /** A running countdown has its timer, or its approval was forwarded already. */
  predicate CoveredOk(w: World, key: Key) {
    key in w.rows && Recoverable(w.rows[key]) ==> Armed(w, key) || key in w.accepted
  }

  lemma PublishCovers(w: World, turn: TurnId, key: Key)
    requires CoveredOk(w, key)
    ensures CoveredOk(TryPublishNext(w, turn), key)
  {
  }

  lemma StepKeepsCovered(w: World, step: Step, key: Key)
    requires Enabled(w, step) && CoveredOk(w, key)
    ensures CoveredOk(Next(w, step), key)
  {
    match step
    case DoRequest(other) => PublishCovers(Requeue(w, other), other.0, key);
    case DoResolve(other, ok) => PublishCovers(Settle(w, other, ok), other.0, key);
    case _ =>
  }

  /** Also after a restart, and with ids used again. */
  lemma {:induction false} AlwaysCovered(ws: seq<World>, steps: seq<Step>, n: nat, key: Key)
    requires Run(ws, steps) && n < |ws|
    ensures CoveredOk(ws[n], key)
    decreases n
  {
    if n > 0 {
      AlwaysCovered(ws, steps, n - 1, key);
      StepKeepsCovered(ws[n - 1], steps[n - 1], key);
    }
  }
}
