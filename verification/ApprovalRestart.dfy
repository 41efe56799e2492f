/** What a restart does to an approval that is published: it keeps its timer, or is never approved automatically. */
module ApprovalRestart {
  import opened Prelude
  import opened ApprovalQueue
  import opened ApprovalTimers

  // ---- Continuations -------------------------------------------------------

  /** The steps can be taken one after another; request ids are new. */
  predicate CanDo(w: World, steps: seq<Step>)
    decreases |steps|
  {
    steps == [] || (CanStep(w, steps[0]) && CanDo(Next(w, steps[0]), steps[1..]))
  }

  predicate CanStep(w: World, step: Step) {
    Enabled(w, step) && (step.DoRequest? ==> step.key !in w.rows)
  }

  function DoAll(w: World, steps: seq<Step>): World
    requires CanDo(w, steps)
    decreases |steps|
  {
    if steps == [] then w else DoAll(Next(w, steps[0]), steps[1..])
  }

  /** Some continuation forwards an automatic approval. */
  ghost predicate CanForward(w: World, key: Key) {
    exists more :: CanDo(w, more) && key in DoAll(w, more).accepted
  }

  lemma ForwardLater(w: World, step: Step, key: Key)
    requires CanStep(w, step) && CanForward(Next(w, step), key)
    ensures CanForward(w, key)
  {
    var more :| CanDo(Next(w, step), more) && key in DoAll(Next(w, step), more).accepted;
    assert ([step] + more)[1..] == more;
    assert CanDo(w, [step] + more) && key in DoAll(w, [step] + more).accepted;
  }

  // ---- Without a timer -----------------------------------------------------

  /** No countdown, no timer, no attempt under way, and no decision forwarded. */
  predicate Lost(w: World, key: Key) {
    && key in w.rows && w.rows[key].status != Queued
    && w.rows[key].autoApproveAt.None? && w.rows[key].pausedAt.None?
    && key !in w.timers && key !in w.firing && key !in w.accepted
  }

  lemma PublishKeepsLost(w: World, turn: TurnId, key: Key)
    requires Lost(w, key)
    ensures Lost(TryPublishNext(w, turn), key)
  {
  }

  lemma StepKeepsLost(w: World, step: Step, key: Key)
    requires CanStep(w, step) && Lost(w, key)
    ensures Lost(Next(w, step), key)
  {
    match step
    case DoRequest(other) => PublishKeepsLost(Requeue(w, other), other.0, key);
    case DoResolve(other, ok) => if other.0 in w.turns { PublishKeepsLost(Settle(w, other, ok), other.0, key); }
    case _ =>
  }

  lemma {:induction false} LostForGood(w: World, more: seq<Step>, key: Key)
    requires Lost(w, key) && CanDo(w, more)
    ensures Lost(DoAll(w, more), key)
    decreases |more|
  {
    if more != [] {
      StepKeepsLost(w, more[0], key);
      LostForGood(Next(w, more[0]), more[1..], key);
    }
  }

  // ---- With a timer --------------------------------------------------------

  lemma FiringForwards(w: World, key: Key)
    requires Counting(w, key) && key in w.firing
    ensures CanForward(w, key)
  {
    var done := Fire(w, key);
    assert CanDo(done, []) && DoAll(done, []) == done && done.accepted[|w.accepted|] == key;
    ForwardLater(w, DoFire(key), key);
  }

  lemma DueForwards(w: World, key: Key)
    requires Counting(w, key) && key in w.timers && w.timers[key] <= w.clock
    ensures CanForward(w, key)
  {
    FiringForwards(Expire(w, key), key);
    ForwardLater(w, DoExpire(key), key);
  }

  lemma TimerForwards(w: World, key: Key)
    requires Counting(w, key) && key in w.timers
    ensures CanForward(w, key)
  {
    if w.timers[key] <= w.clock {
      DueForwards(w, key);
    } else {
      DueForwards(w.(clock := w.timers[key]), key);
      ForwardLater(w, DoTick(w.timers[key]), key);
    }
  }

  lemma PausedForwards(w: World, key: Key)
    requires CanResume(w, key)
    ensures CanForward(w, key)
  {
    TimerForwards(Resume(w, key), key);
    ForwardLater(w, DoResume(key), key);
  }

  // ---- The restart ---------------------------------------------------------

  lemma RestartDecides(w: World, key: Key, spent: int)
    requires IsPending(w, key) && key !in w.accepted && TimerOk(w, key, spent) && ConfigOk(w, key)
    ensures if w.rows[key].budget.None? then Lost(Restart(w), key) else CanForward(Restart(w), key)
  {
    var v := Restart(w);
    if w.rows[key].budget.None? {
    } else if w.rows[key].pausedAt.Some? {
      PausedForwards(v, key);
    } else if w.rows[key].autoApproveAt.value > w.clock {
      TimerForwards(v, key);
    } else {
      FiringForwards(v, key);
    }
  }

  /**
   Restart safety, exactly: after a restart a published approval that nobody has
   decided yet, paused or not, can still be approved automatically if and only if
   its turn approves automatically with a timeout other than zero. With zero no
   continuation ever forwards it.
   */
  lemma RestartKeepsIff(ws: seq<World>, steps: seq<Step>, n: nat, key: Key)
    requires Run(ws, steps) && n < |steps| && FreshRequests(ws, steps)
    requires steps[n] == DoRestart && IsPending(ws[n], key) && key !in ws[n].accepted
    ensures key.0 in ws[n].turns
    ensures CanForward(ws[n + 1], key) <==> ws[n].turns[key.0].autoApprove && ws[n].turns[key.0].timeoutSeconds > 0
  {
    AlwaysInBudget(ws, steps, n, key);
    RestartDecides(ws[n], key, Spent(ws, key, n));
    var w := ws[n + 1];
    assert w == Restart(ws[n]);
    if ws[n].rows[key].budget.None? {
      forall more | CanDo(w, more) ensures key !in DoAll(w, more).accepted {
        LostForGood(w, more, key);
      }
    }
  }

  /** The case happens: a request that would be approved at once is not any more, after a restart in between. */
  lemma ZeroTimeoutLost(turn: TurnId, request: string)
    ensures var steps := [DoStartTurn(turn, Turn(false, true, 0)), DoRequest((turn, request)), DoRestart];
      exists ws: seq<World> ::
        Run(ws, steps) && CanForward(ws[2], (turn, request)) && !CanForward(ws[3], (turn, request))
  {
    var key := (turn, request);
    var steps := [DoStartTurn(turn, Turn(false, true, 0)), DoRequest(key), DoRestart];
    var started := Next(Initial(0), steps[0]);
    var queued := Requeue(started, key);
    assert queued.order == [key] && FirstQueued(queued, [key], turn) == Some(key);
    var published := EnqueueRequest(started, key);
    assert published == Publish(queued, key);
    var ws := [Initial(0), started, published, Restart(published)];
    assert Run(ws, steps) && FreshRequests(ws, steps);
    FiringForwards(published, key);
    RestartKeepsIff(ws, steps, 2, key);
  }
}
