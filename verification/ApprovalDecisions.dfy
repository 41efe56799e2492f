/** What became of an approval, told from the steps of the run: who decided it, and what a pause keeps. */
module ApprovalDecisions {
  import opened Prelude
  import opened ApprovalQueue
  import opened ApprovalTimers

  // ---- Decisions -----------------------------------------------------------

  predicate GoesOn(w: World, turn: TurnId) {
    turn in w.turns && !w.turns[turn].done
  }

  /** A decision on a published approval, while its turn goes on. */
  predicate Decides(w: World, step: Step, key: Key, ok: bool) {
    step == DoResolve(key, ok) && IsPending(w, key) && GoesOn(w, key.0)
  }

  /**
   A request in a turn that has ended: of those that wait, the oldest is turned
   down, unless one is published. The requested one waits too.
   */
  ghost predicate Drops(w: World, step: Step, key: Key) {
    && step.DoRequest? && step.key.0 == key.0 && key.0 in w.turns && w.turns[key.0].done
    && (forall k: Key :: k.0 == key.0 && k != step.key ==> !IsPending(w, k))
    && (key == step.key || IsQueued(w, key))
    && NoneAhead(w, step.key, key)
  }

  /** None of its turn waits ahead of the approval. */
  ghost predicate NoneAhead(w: World, added: Key, key: Key) {
    forall k :: Before(w, k, key) && k.0 == key.0 ==> k != added && !IsQueued(w, k)
  }

  /** Requested earlier; what is not known yet comes last. */
  ghost predicate Before(w: World, k: Key, key: Key) {
    if key in w.order then exists i, j :: 0 <= i < j < |w.order| && w.order[i] == k && w.order[j] == key
    else k in w.order
  }

  ghost predicate TurnsDown(w: World, step: Step, key: Key) {
    Decides(w, step, key, false) || Drops(w, step, key)
  }

  /** The step decides the approval, this way. */
  ghost predicate Gives(w: World, step: Step, key: Key, status: Status) {
    (status == Approved && Decides(w, step, key, true)) || (status == Rejected && TurnsDown(w, step, key))
  }

  /** Since the decision the approval was not requested again. */
  ghost predicate GivenSince(ws: seq<World>, steps: seq<Step>, i: int, n: int, key: Key, status: Status) {
    && 0 <= i < n <= |steps| && |ws| == |steps| + 1 && Gives(ws[i], steps[i], key, status)
    && forall j :: i < j < n ==> steps[j] != DoRequest(key)
  }

  predicate Has(w: World, key: Key, status: Status) {
    key in w.rows && w.rows[key].status == status
  }

  /** What one step does to an approval that is decided this way after it. */
  ghost predicate DecidedAt(ws: seq<World>, steps: seq<Step>, m: int, key: Key, status: Status)
    requires |ws| == |steps| + 1 && 0 <= m < |steps|
  {
    Has(ws[m + 1], key, status) <==>
      Gives(ws[m], steps[m], key, status) || (Has(ws[m], key, status) && steps[m] != DoRequest(key))
  }

  lemma {:induction false} FirstIff(w: World, order: seq<Key>, turn: TurnId, j: nat)
    requires j < |order| && forall a, b :: 0 <= a < b < |order| ==> order[a] != order[b]
    ensures FirstQueued(w, order, turn) == Some(order[j]) <==>
      order[j].0 == turn && IsQueued(w, order[j]) && forall i :: 0 <= i < j && order[i].0 == turn ==> !IsQueued(w, order[i])
    decreases |order|
  {
    if FirstQueued(w, order, turn) == Some(order[j]) {
      FirstIsFirst(w, order, turn, j);
    } else if j > 0 {
      FirstIff(w, order[1..], turn, j - 1);
      forall i | 0 <= i < j - 1 ensures order[1..][i] == order[i + 1] {
      }
    }
  }

  /** Publishing in the turn turns down this one. */
  predicate PublishDrops(w: World, turn: TurnId, key: Key) {
    !HasPending(w, turn) && FirstQueued(w, w.order, turn) == Some(key) && turn in w.turns && w.turns[turn].done
  }

  /** Nobody but the oldest waiting one is decided by publishing, and that only in a turn that ended. */
  lemma PublishDecides(w: World, turn: TurnId, key: Key, status: Status)
    requires status == Approved || status == Rejected
    ensures Has(TryPublishNext(w, turn), key, status) <==>
      Has(w, key, status)
      || (status == Rejected && PublishDrops(w, turn, key))
  {
  }

  lemma ResolveDecides(w: World, step: Step, key: Key, status: Status)
    requires step.DoResolve? && (status == Approved || status == Rejected)
    ensures Has(Next(w, step), key, status) <==> Gives(w, step, key, status) || Has(w, key, status)
  {
    if GoesOn(w, step.key.0) {
      PublishDecides(Settle(w, step.key, step.ok), step.key.0, key, status);
    }
  }

  lemma RequestDecides(w: World, step: Step, key: Key, status: Status)
    requires Enabled(w, step) && step.DoRequest? && OrderOk(w) && (status == Approved || status == Rejected)
    ensures Has(Next(w, step), key, status) <==>
      Gives(w, step, key, status) || (Has(w, key, status) && step != DoRequest(key))
  {
    var v := Requeue(w, step.key);
    PublishDecides(v, step.key.0, key, status);
    RequeueOrder(w, step.key);
    assert Has(v, key, status) <==> Has(w, key, status) && step != DoRequest(key);
    DropsIff(w, step, key);
  }

  lemma DropsIff(w: World, step: Step, key: Key)
    requires Enabled(w, step) && step.DoRequest? && OrderOk(w) && OrderOk(Requeue(w, step.key))
    ensures Drops(w, step, key) <==> PublishDrops(Requeue(w, step.key), step.key.0, key)
  {
    var v := Requeue(w, step.key);
    if key.0 == step.key.0 && (key == step.key || IsQueued(w, key)) {
      assert key in v.order;
      var j :| 0 <= j < |v.order| && v.order[j] == key;
      FirstIff(v, v.order, key.0, j);
      NonePending(w, step.key, key.0);
      AheadIff(w, step.key, key, j);
    }
  }

  lemma AheadIff(w: World, added: Key, key: Key, j: nat)
    requires OrderOk(w) && OrderOk(Requeue(w, added)) && j < |Requeue(w, added).order|
    requires Requeue(w, added).order[j] == key
    ensures var v := Requeue(w, added);
      NoneAhead(w, added, key) <==> forall i :: 0 <= i < j && v.order[i].0 == key.0 ==> !IsQueued(v, v.order[i])
  {
    var v := Requeue(w, added);
    forall i | 0 <= i < |v.order| ensures i < j <==> Before(w, v.order[i], key) {
      BeforeIff(w, added, key, i, j);
    }
    if NoneAhead(w, added, key) {
      forall i | 0 <= i < j && v.order[i].0 == key.0 ensures !IsQueued(v, v.order[i]) {
        assert Before(w, v.order[i], key);
      }
    } else {
      var k :| Before(w, k, key) && k.0 == key.0 && !(k != added && !IsQueued(w, k));
      assert k in v.order && IsQueued(v, k);
      var i :| 0 <= i < |v.order| && v.order[i] == k;
    }
  }

  lemma NonePending(w: World, added: Key, turn: TurnId)
    requires OrderOk(w)
    ensures HasPending(Requeue(w, added), turn) <==> exists k: Key :: k.0 == turn && k != added && IsPending(w, k)
  {
    var v := Requeue(w, added);
    if k: Key :| k.0 == turn && k != added && IsPending(w, k) {
      assert k in v.order && IsPending(v, k);
    }
  }

  lemma BeforeIff(w: World, added: Key, key: Key, i: nat, j: nat)
    requires OrderOk(w) && OrderOk(Requeue(w, added)) && i < |Requeue(w, added).order|
    requires j < |Requeue(w, added).order| && Requeue(w, added).order[j] == key
    ensures i < j <==> Before(w, Requeue(w, added).order[i], key)
  {
  }

  lemma StepDecides(w: World, step: Step, key: Key, status: Status)
    requires Enabled(w, step) && OrderOk(w) && (status == Approved || status == Rejected)
    ensures Has(Next(w, step), key, status) <==>
      Gives(w, step, key, status) || (Has(w, key, status) && step != DoRequest(key))
  {
    match step
    case DoResolve(_, _) => ResolveDecides(w, step, key, status);
    case DoRequest(_) => RequestDecides(w, step, key, status);
    case _ => OthersDecideNothing(w, step, key, status);
  }

  lemma OthersDecideNothing(w: World, step: Step, key: Key, status: Status)
    requires Enabled(w, step) && !step.DoResolve? && !step.DoRequest? && (status == Approved || status == Rejected)
    ensures Has(Next(w, step), key, status) <==> Has(w, key, status)
  {
  }

  lemma GivenMoves(ws: seq<World>, steps: seq<Step>, n: nat, m: nat, key: Key, status: Status)
    requires n < |steps| && m == n + 1 && |ws| == |steps| + 1
    ensures (exists i :: GivenSince(ws, steps, i, m, key, status)) <==>
      Gives(ws[n], steps[n], key, status)
      || ((exists i :: GivenSince(ws, steps, i, n, key, status)) && steps[n] != DoRequest(key))
  {
    if i :| GivenSince(ws, steps, i, m, key, status) {
      assert i < n ==> GivenSince(ws, steps, i, n, key, status) && steps[n] != DoRequest(key);
    }
    if Gives(ws[n], steps[n], key, status) {
      assert GivenSince(ws, steps, n, m, key, status);
    } else if steps[n] != DoRequest(key) {
      if i :| GivenSince(ws, steps, i, n, key, status) { assert GivenSince(ws, steps, i, m, key, status); }
    }
  }

  lemma {:induction false} DecidedFrom(ws: seq<World>, steps: seq<Step>, n: nat, key: Key, status: Status)
    requires |ws| == |steps| + 1 && n < |ws| && key !in ws[0].rows
    requires forall m :: 0 <= m < n ==> DecidedAt(ws, steps, m, key, status)
    ensures Has(ws[n], key, status) <==> exists i :: GivenSince(ws, steps, i, n, key, status)
    decreases n
  {
    if n > 0 {
      DecidedFrom(ws, steps, n - 1, key, status);
      assert DecidedAt(ws, steps, n - 1, key, status);
      GivenMoves(ws, steps, n - 1, n, key, status);
    }
  }

  /**
   Decisions are what was decided: an approval is approved exactly if, since it was
   last requested, an acceptance arrived while it was published in a turn that
   went on; and rejected exactly if a refusal did, or its turn had ended when its
   place in the queue came.
   */
  lemma DecidedIff(ws: seq<World>, steps: seq<Step>, n: nat, key: Key, status: Status)
    requires Run(ws, steps) && n < |ws| && (status == Approved || status == Rejected)
    ensures Has(ws[n], key, status) <==> exists i :: GivenSince(ws, steps, i, n, key, status)
  {
    forall m | 0 <= m < n ensures DecidedAt(ws, steps, m, key, status) {
      AlwaysSerial(ws, steps, m);
      StepDecides(ws[m], steps[m], key, status);
    }
    DecidedFrom(ws, steps, n, key, status);
  }

  // ---- Pauses --------------------------------------------------------------

  /** The step can end the pause of an approval. */
  predicate EndsPause(step: Step, key: Key) {
    step == DoResume(key) || step == DoRequest(key) || (step.DoResolve? && step.key == key)
  }

  /** Published, and paused at this time with this much of the countdown left. */
  predicate PausedWith(w: World, key: Key, at: int, left: int) {
    IsPending(w, key) && w.rows[key].pausedAt == Some(at) && w.rows[key].pausedRemaining == Some(left)
  }

  ghost predicate PausedAfter(ws: seq<World>, steps: seq<Step>, m: int, key: Key, at: int, left: int)
    requires |ws| == |steps| + 1 && 0 <= m < |steps|
  {
    PausedWith(ws[m], key, at, left) && !EndsPause(steps[m], key) ==>
      PausedWith(ws[m + 1], key, at, left) && (steps[m] == DoFire(key) ==> ws[m + 1].accepted == ws[m].accepted)
  }

  lemma PublishKeepsPause(w: World, turn: TurnId, key: Key, at: int, left: int)
    requires PausedWith(w, key, at, left)
    ensures PausedWith(TryPublishNext(w, turn), key, at, left)
  {
  }

  lemma StepKeepsPause(w: World, step: Step, key: Key, at: int, left: int)
    requires Enabled(w, step) && PausedWith(w, key, at, left) && !EndsPause(step, key)
    ensures PausedWith(Next(w, step), key, at, left) && (step == DoFire(key) ==> Next(w, step).accepted == w.accepted)
  {
    match step
    case DoRequest(other) => PublishKeepsPause(Requeue(w, other), other.0, key, at, left);
    case DoResolve(other, ok) => PublishKeepsPause(Settle(w, other, ok), other.0, key, at, left);
    case _ =>
  }

  lemma {:induction false} PausedFrom(ws: seq<World>, steps: seq<Step>, i: nat, n: nat, key: Key, at: int, left: int)
    requires |ws| == |steps| + 1 && i <= n < |ws| && PausedWith(ws[i], key, at, left)
    requires forall m :: i <= m < n ==> PausedAfter(ws, steps, m, key, at, left) && !EndsPause(steps[m], key)
    ensures PausedWith(ws[n], key, at, left)
    decreases n
  {
    if i < n {
      PausedFrom(ws, steps, i, n - 1, key, at, left);
      assert PausedAfter(ws, steps, n - 1, key, at, left);
    }
  }

  /**
   A pause holds: from the step that pauses a countdown until it is resumed,
   decided or requested again, the approval stays published and shows the time
   that was left, over restarts too, and no attempt under way goes through.
   */
  lemma PauseHolds(ws: seq<World>, steps: seq<Step>, i: nat, n: nat, key: Key)
    requires Run(ws, steps) && i < n < |ws| && steps[i] == DoPause(key)
    requires IsPending(ws[i], key) && ws[i].rows[key].pausedAt.None? && ws[i].rows[key].autoApproveAt.Some?
    requires forall m :: i < m < n ==> !EndsPause(steps[m], key)
    ensures IsPending(ws[n], key) && ws[n].rows[key].pausedAt == Some(ws[i].clock)
    ensures Remaining(ws[n].rows[key], ws[n].clock) == Remaining(ws[i].rows[key], ws[i].clock)
    ensures n < |steps| && steps[n] == DoFire(key) ==> ws[n + 1].accepted == ws[n].accepted
  {
    var at, left := ws[i].clock, Remaining(ws[i].rows[key], ws[i].clock);
    assert PausedWith(ws[i + 1], key, at, left) by { assert ws[i + 1] == Next(ws[i], steps[i]); }
    forall m | i < m < |steps| ensures PausedAfter(ws, steps, m, key, at, left) {
      if PausedWith(ws[m], key, at, left) && !EndsPause(steps[m], key) {
        StepKeepsPause(ws[m], steps[m], key, at, left);
      }
    }
    PausedFrom(ws, steps, i + 1, n, key, at, left);
  }

  /** Nothing is forwarded for an approval that is decided. */
  lemma DecidedForwardsNothing(ws: seq<World>, steps: seq<Step>, i: nat, n: nat, key: Key, status: Status)
    requires Run(ws, steps) && n < |steps| && GivenSince(ws, steps, i, n, key, status) && steps[n] == DoFire(key)
    ensures ws[n + 1].accepted == ws[n].accepted
  {
    DecidedIff(ws, steps, n, key, status);
  }
}
