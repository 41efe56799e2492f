/**
 Tool approvals: one published at a time per turn, with a timer that approves
 on its own, can be paused, and survives a restart.
 */
module ApprovalQueue {
  import opened Prelude

  type TurnId = string
  type Key = (string, string)

  datatype Status = Queued | Pending | Approved | Rejected

  /** `budget` is the waiting time, in ms, that was configured when the approval was published. */
  datatype Row = Row(
    status: Status, budget: Option<int>, autoApproveAt: Option<int>, pausedAt: Option<int>, pausedRemaining: Option<int>)

  const NEW_ROW := Row(Queued, None, None, None, None)

  datatype Turn = Turn(done: bool, autoApprove: bool, timeoutSeconds: nat)

  /**
   `order` lists the rows by creation time. `timers` holds due times; `firing`
   the attempts that left the timer and have not looked at the row yet;
   `accepted` the decisions forwarded to the runner.
   */
  datatype World = World(
    clock: int,
    order: seq<Key>,
    rows: map<Key, Row>,
    turns: map<TurnId, Turn>,
    timers: map<Key, int>,
    firing: set<Key>,
    accepted: seq<Key>)

  predicate IsPending(w: World, key: Key) {
    key in w.rows && w.rows[key].status == Pending
  }

  predicate IsQueued(w: World, key: Key) {
    key in w.rows && w.rows[key].status == Queued
  }

  predicate HasPending(w: World, turn: TurnId) {
    exists k :: k in w.order && k.0 == turn && IsPending(w, k)
  }

  /** The oldest queued approval of the turn. */
  function FirstQueued(w: World, order: seq<Key>, turn: TurnId): (k: Option<Key>)
    ensures k.Some? ==> k.value in order && k.value.0 == turn && IsQueued(w, k.value)
    ensures k.None? ==> forall q :: q in order && q.0 == turn ==> !IsQueued(w, q)
    decreases |order|
  {
    if order == [] then None
    else if order[0].0 == turn && IsQueued(w, order[0]) then Some(order[0])
    else FirstQueued(w, order[1..], turn)
  }

  function Publish(w: World, key: Key): World
    requires key in w.rows
  {
    if key.0 !in w.turns then w
    else
      var turn := w.turns[key.0];
      if turn.done then w.(rows := w.rows[key := w.rows[key].(status := Rejected)])
      else
        var timed := turn.autoApprove && turn.timeoutSeconds > 0;
        var at := if timed then Some(w.clock + turn.timeoutSeconds * 1000) else None;
        var budget := if timed then Some(turn.timeoutSeconds * 1000) else None;
        w.(rows := w.rows[key := Row(Pending, budget, at, None, None)],
           timers := if timed then w.timers[key := at.value] else w.timers,
           firing := if turn.autoApprove && !timed then w.firing + {key} else w.firing)
  }

  function TryPublishNext(w: World, turn: TurnId): World {
    if HasPending(w, turn) then w
    else
      match FirstQueued(w, w.order, turn)
      case None => w
      case Some(key) => Publish(w, key)
  }

  function Requeue(w: World, key: Key): World {
    w.(order := if key in w.rows then w.order else w.order + [key], rows := w.rows[key := NEW_ROW])
  }

  /** A new request, or one with a known id, which starts over. */
  function EnqueueRequest(w: World, key: Key): World {
    TryPublishNext(Requeue(w, key), key.0)
  }

  predicate CanPause(w: World, key: Key) {
    IsPending(w, key) && w.rows[key].pausedAt.None? && w.rows[key].autoApproveAt.Some?
  }

  /** Otherwise the caller is told that there is nothing to pause. */
  function Pause(w: World, key: Key): World {
    if !CanPause(w, key) then w
    else
      var row := w.rows[key];
      w.(rows := w.rows[key := row.(autoApproveAt := None, pausedAt := Some(w.clock),
                                    pausedRemaining := Some(Max(0, row.autoApproveAt.value - w.clock)))],
         timers := w.timers - {key})
  }

  predicate CanResume(w: World, key: Key) {
    IsPending(w, key) && w.rows[key].pausedAt.Some?
  }

  function Resume(w: World, key: Key): World {
    if !CanResume(w, key) then w
    else
      var row := w.rows[key];
      var remaining := if row.pausedRemaining.Some? then row.pausedRemaining.value else 0;
      w.(rows := w.rows[key := row.(autoApproveAt := Some(w.clock + remaining), pausedAt := None, pausedRemaining := None)],
         timers := w.timers[key := w.clock + Max(0, remaining)])
  }

  /** The runner reports a decision, whoever made it. */
  function Resolve(w: World, key: Key, accepted: bool): World {
    if key.0 !in w.turns || w.turns[key.0].done then w
    else TryPublishNext(Settle(w, key, accepted), key.0)
  }

  function Settle(w: World, key: Key, accepted: bool): World {
    w.(rows := if IsPending(w, key) then w.rows[key := w.rows[key].(status := if accepted then Approved else Rejected)]
               else w.rows,
       timers := w.timers - {key})
  }

  /** The timer's callback begins. */
  function Expire(w: World, key: Key): World {
    w.(timers := w.timers - {key}, firing := w.firing + {key})
  }

  /** It has read the row. */
  function Fire(w: World, key: Key): World {
    w.(firing := w.firing - {key},
       accepted := if IsPending(w, key) && w.rows[key].pausedAt.None? then w.accepted + [key] else w.accepted)
  }

  predicate Recoverable(row: Row) {
    row.status == Pending && row.autoApproveAt.Some? && row.pausedAt.None?
  }

  /** Process memory is gone; timers come back from the rows. */
  function Restart(w: World): World {
    w.(timers := map k | k in w.rows && Recoverable(w.rows[k]) && w.rows[k].autoApproveAt.value > w.clock
                   :: w.rows[k].autoApproveAt.value,
       firing := set k | k in w.rows && Recoverable(w.rows[k]) && w.rows[k].autoApproveAt.value <= w.clock)
  }

  // ---- Runs ----------------------------------------------------------------

  datatype Step =
    | DoTick(now: int)
    | DoStartTurn(turn: TurnId, config: Turn)
    | DoEndTurn(turn: TurnId)
    | DoRequest(key: Key)
    | DoPause(key: Key)
    | DoResume(key: Key)
    | DoResolve(key: Key, ok: bool)
    | DoExpire(key: Key)
    | DoFire(key: Key)
    | DoRestart

  /** A timer never runs out before its due time. */
  predicate Enabled(w: World, step: Step) {
    match step
    case DoTick(now) => w.clock <= now
    case DoStartTurn(turn, config) => turn !in w.turns && !config.done
    case DoEndTurn(turn) => turn in w.turns
    case DoRequest(key) => key.0 in w.turns
    case DoExpire(key) => key in w.timers && w.timers[key] <= w.clock
    case DoFire(key) => key in w.firing
    case _ => true
  }

  function Next(w: World, step: Step): World
    requires Enabled(w, step)
  {
    match step
    case DoTick(now) => w.(clock := now)
    case DoStartTurn(turn, config) => w.(turns := w.turns[turn := config])
    case DoEndTurn(turn) => w.(turns := w.turns[turn := w.turns[turn].(done := true)])
    case DoRequest(key) => EnqueueRequest(w, key)
    case DoPause(key) => Pause(w, key)
    case DoResume(key) => Resume(w, key)
    case DoResolve(key, ok) => Resolve(w, key, ok)
    case DoExpire(key) => Expire(w, key)
    case DoFire(key) => Fire(w, key)
    case DoRestart => Restart(w)
  }

  function Initial(clock: int): World {
    World(clock, [], map[], map[], map[], {}, [])
  }

  ghost predicate Run(ws: seq<World>, steps: seq<Step>) {
    && |ws| == |steps| + 1
    && ws[0] == Initial(ws[0].clock)
    && forall i :: 0 <= i < |steps| ==> Enabled(ws[i], steps[i]) && ws[i + 1] == Next(ws[i], steps[i])
  }

  // ---- Serial publishing ---------------------------------------------------

  ghost predicate OrderOk(w: World) {
    && (forall k :: k in w.order <==> k in w.rows)
    && (forall i, j :: 0 <= i < j < |w.order| ==> w.order[i] != w.order[j])
    && (forall k :: k in w.rows ==> k.0 in w.turns)
  }

  /** At most one approval of a turn is published. */
  ghost predicate OnePending(w: World) {
    forall k, q :: IsPending(w, k) && IsPending(w, q) && k.0 == q.0 ==> k == q
  }

  /** While a turn goes on, a queued approval waits only for a published one. */
  ghost predicate NoStall(w: World) {
    forall k :: IsQueued(w, k) && k.0 in w.turns && !w.turns[k.0].done ==> exists q: Key :: q.0 == k.0 && IsPending(w, q)
  }

  /** Behind a queued approval, in creation order, all are queued. */
  ghost predicate InOrder(w: World) {
    forall i, j :: 0 <= i < j < |w.order| && w.order[i].0 == w.order[j].0 && IsQueued(w, w.order[i]) ==> IsQueued(w, w.order[j])
  }

  lemma {:induction false} FirstIsFirst(w: World, order: seq<Key>, turn: TurnId, j: nat)
    requires j < |order| && FirstQueued(w, order, turn) == Some(order[j])
    requires forall a, b :: 0 <= a < b < |order| ==> order[a] != order[b]
    ensures forall i :: 0 <= i < j && order[i].0 == turn ==> !IsQueued(w, order[i])
    decreases |order|
  {
    if j > 0 {
      FirstIsFirst(w, order[1..], turn, j - 1);
      forall i | 0 <= i < j && order[i].0 == turn ensures !IsQueued(w, order[i]) {
        if i > 0 { assert order[i] == order[1..][i - 1]; }
      }
    }
  }

  /** No other turn than `turn` is stalled. */
  ghost predicate NoStallBut(w: World, turn: TurnId) {
    forall k :: IsQueued(w, k) && k.0 != turn && k.0 in w.turns && !w.turns[k.0].done ==>
      exists q: Key :: q.0 == k.0 && IsPending(w, q)
  }

  /** Publishing moves one queued approval on, or nothing. */
  ghost predicate Moved(w: World, v: World, key: Key) {
    && v.order == w.order && v.turns == w.turns && key in w.rows && v.rows.Keys == w.rows.Keys
    && IsQueued(w, key) && !IsQueued(v, key)
    && (forall k :: k != key && k in w.rows ==> v.rows[k] == w.rows[k])
    && key.0 in w.turns && (w.turns[key.0].done || IsPending(v, key))
  }

  lemma PublishMoves(w: World, turn: TurnId)
    ensures var v := TryPublishNext(w, turn); var first := FirstQueued(w, w.order, turn);
      if HasPending(w, turn) || first.None? || turn !in w.turns then v == w
      else Moved(w, v, first.value) && first.value.0 == turn
  {
  }

  lemma PublishKeepsOne(w: World, turn: TurnId)
    requires OrderOk(w) && OnePending(w)
    ensures OrderOk(TryPublishNext(w, turn)) && OnePending(TryPublishNext(w, turn))
  {
    PublishMoves(w, turn);
    var v := TryPublishNext(w, turn);
    forall k, q | IsPending(v, k) && IsPending(v, q) && k.0 == q.0 ensures k == q {
      if !HasPending(w, turn) {
        assert IsPending(w, k) && k.0 == turn ==> k in w.order;
        assert IsPending(w, q) && q.0 == turn ==> q in w.order;
      }
    }
  }

  lemma MovedKeepsNoStall(w: World, v: World, key: Key)
    requires Moved(w, v, key) && NoStallBut(w, key.0)
    ensures NoStall(v)
  {
    forall k | IsQueued(v, k) && k.0 in v.turns && !v.turns[k.0].done
      ensures exists q: Key :: q.0 == k.0 && IsPending(v, q)
    {
      if k.0 != key.0 {
        assert IsQueued(w, k);
        var q: Key :| q.0 == k.0 && IsPending(w, q);
        assert IsPending(v, q);
      } else {
        assert IsPending(v, key);
      }
    }
  }

  lemma PublishEndsStall(w: World, turn: TurnId)
    requires NoStallBut(w, turn) && forall k :: k in w.rows ==> k in w.order
    ensures NoStall(TryPublishNext(w, turn))
  {
    PublishMoves(w, turn);
    var first := FirstQueued(w, w.order, turn);
    if HasPending(w, turn) || first.None? || turn !in w.turns {
      forall k | IsQueued(w, k) && k.0 in w.turns && !w.turns[k.0].done
        ensures exists q: Key :: q.0 == k.0 && IsPending(w, q)
      {
        if k.0 == turn {
          var q :| q in w.order && q.0 == turn && IsPending(w, q);
        }
      }
    } else {
      MovedKeepsNoStall(w, TryPublishNext(w, turn), first.value);
    }
  }

  lemma PublishNextKeeps(w: World, turn: TurnId)
    requires OrderOk(w) && OnePending(w) && NoStallBut(w, turn)
    ensures var v := TryPublishNext(w, turn); OrderOk(v) && OnePending(v) && NoStall(v)
  {
    PublishKeepsOne(w, turn);
    PublishEndsStall(w, turn);
  }

  lemma PublishNextKeepsOrder(w: World, turn: TurnId)
    requires OrderOk(w) && InOrder(w)
    ensures InOrder(TryPublishNext(w, turn))
  {
    var first := FirstQueued(w, w.order, turn);
    PublishMoves(w, turn);
    if !HasPending(w, turn) && first.Some? && turn in w.turns {
      var n :| 0 <= n < |w.order| && w.order[n] == first.value;
      FirstIsFirst(w, w.order, turn, n);
      MovedKeepsOrder(w, TryPublishNext(w, turn), n);
    }
  }

  /** The oldest queued one of its turn moves on. */
  lemma MovedKeepsOrder(w: World, v: World, n: nat)
    requires InOrder(w) && n < |w.order| && Moved(w, v, w.order[n])
    requires forall i :: 0 <= i < n && w.order[i].0 == w.order[n].0 ==> !IsQueued(w, w.order[i])
    requires forall i, j :: 0 <= i < j < |w.order| ==> w.order[i] != w.order[j]
    ensures InOrder(v)
  {
    forall i, j | 0 <= i < j < |v.order| && v.order[i].0 == v.order[j].0 && IsQueued(v, v.order[i])
      ensures IsQueued(v, v.order[j])
    {
      assert IsQueued(w, w.order[i]) && IsQueued(w, w.order[j]);
    }
  }

  /** The statuses are as before, apart from turns that ended. */
  ghost predicate SameStatuses(w: World, v: World) {
    && v.order == w.order && v.rows.Keys == w.rows.Keys
    && (forall k :: k in w.rows ==> v.rows[k].status == w.rows[k].status)
    && (forall t :: t in w.turns ==> t in v.turns && (w.turns[t].done ==> v.turns[t].done))
  }

  lemma CarriesOver(w: World, v: World)
    requires OrderOk(w) && SameStatuses(w, v)
    ensures OrderOk(v)
    ensures OnePending(w) ==> OnePending(v)
    ensures InOrder(w) ==> InOrder(v)
    ensures NoStall(w) ==> NoStall(v)
  {
    forall k | NoStall(w) && IsQueued(v, k) && k.0 in v.turns && !v.turns[k.0].done
      ensures exists q: Key :: q.0 == k.0 && IsPending(v, q)
    {
      assert IsQueued(w, k) && k.0 in w.turns;
      var q: Key :| q.0 == k.0 && IsPending(w, q);
      assert IsPending(v, q);
    }
  }

  /** Between two states only the row `key` changed, and it is not published any more. */
  ghost predicate Withdrawn(w: World, v: World, key: Key) {
    && v.turns == w.turns && key.0 in w.turns && !IsPending(v, key)
    && (forall k :: k != key ==> (k in v.rows <==> k in w.rows))
    && (forall k :: k != key && k in w.rows ==> v.rows[k] == w.rows[k])
  }

  lemma WithdrawnStillOne(w: World, v: World, key: Key)
    requires Withdrawn(w, v, key) && OnePending(w) && NoStall(w)
    ensures OnePending(v) && NoStallBut(v, key.0)
  {
    forall k, q | IsPending(v, k) && IsPending(v, q) && k.0 == q.0 ensures k == q {
      assert IsPending(w, k) && IsPending(w, q);
    }
    forall k | IsQueued(v, k) && k.0 != key.0 && k.0 in v.turns && !v.turns[k.0].done
      ensures exists q: Key :: q.0 == k.0 && IsPending(v, q)
    {
      assert IsQueued(w, k);
      var q: Key :| q.0 == k.0 && IsPending(w, q);
      assert IsPending(v, q);
    }
  }

  lemma RequeueOrder(w: World, key: Key)
    requires OrderOk(w) && key.0 in w.turns
    ensures OrderOk(Requeue(w, key))
    ensures key !in w.rows && InOrder(w) ==> InOrder(Requeue(w, key))
  {
    var v := Requeue(w, key);
    assert v.order == w.order || v.order == w.order + [key];
    forall i, j | key !in w.rows && InOrder(w)
        && 0 <= i < j < |v.order| && v.order[i].0 == v.order[j].0 && IsQueued(v, v.order[i])
      ensures IsQueued(v, v.order[j])
    {
      if j < |w.order| { assert IsQueued(w, w.order[i]) && w.order[j] in w.rows; }
    }
  }

  lemma RequestKeeps(w: World, key: Key)
    requires key.0 in w.turns && OrderOk(w) && OnePending(w) && NoStall(w)
    ensures var v := EnqueueRequest(w, key); OrderOk(v) && OnePending(v) && NoStall(v)
  {
    var v := Requeue(w, key);
    RequeueOrder(w, key);
    WithdrawnStillOne(w, v, key);
    PublishNextKeeps(v, key.0);
  }

  lemma RequestKeepsOrder(w: World, key: Key)
    requires key.0 in w.turns && OrderOk(w) && InOrder(w) && key !in w.rows
    ensures InOrder(EnqueueRequest(w, key))
  {
    RequeueOrder(w, key);
    PublishNextKeepsOrder(Requeue(w, key), key.0);
  }

  lemma SettleOrder(w: World, key: Key, ok: bool)
    requires OrderOk(w)
    ensures OrderOk(Settle(w, key, ok))
    ensures InOrder(w) ==> InOrder(Settle(w, key, ok))
  {
    var v := Settle(w, key, ok);
    assert v.rows.Keys == w.rows.Keys;
    assert forall k :: IsQueued(v, k) <==> IsQueued(w, k);
  }

  lemma ResolveKeeps(w: World, key: Key, ok: bool)
    requires OrderOk(w) && OnePending(w) && NoStall(w)
    ensures var v := Resolve(w, key, ok); OrderOk(v) && OnePending(v) && NoStall(v)
  {
    if key.0 in w.turns && !w.turns[key.0].done {
      SettleOrder(w, key, ok);
      WithdrawnStillOne(w, Settle(w, key, ok), key);
      PublishNextKeeps(Settle(w, key, ok), key.0);
    }
  }

  lemma ResolveKeepsOrder(w: World, key: Key, ok: bool)
    requires OrderOk(w) && InOrder(w)
    ensures InOrder(Resolve(w, key, ok))
  {
    SettleOrder(w, key, ok);
    PublishNextKeepsOrder(Settle(w, key, ok), key.0);
  }

  lemma StepKeepsSerial(w: World, step: Step)
    requires Enabled(w, step) && OrderOk(w) && OnePending(w) && NoStall(w)
    ensures var v := Next(w, step); OrderOk(v) && OnePending(v) && NoStall(v)
    ensures InOrder(w) && (step.DoRequest? ==> step.key !in w.rows) ==> InOrder(Next(w, step))
  {
    match step
    case DoRequest(key) =>
      RequestKeeps(w, key);
      if InOrder(w) && key !in w.rows { RequestKeepsOrder(w, key); }
    case DoResolve(key, ok) =>
      ResolveKeeps(w, key, ok);
      if InOrder(w) { ResolveKeepsOrder(w, key, ok); }
    case _ => CarriesOver(w, Next(w, step));
  }

  /** Approvals are serial, and the queue never stalls while its turn goes on. */
  lemma {:induction false} AlwaysSerial(ws: seq<World>, steps: seq<Step>, n: nat)
    requires Run(ws, steps) && n < |ws|
    ensures OrderOk(ws[n]) && OnePending(ws[n]) && NoStall(ws[n])
    decreases n
  {
    if n > 0 {
      AlwaysSerial(ws, steps, n - 1);
      StepKeepsSerial(ws[n - 1], steps[n - 1]);
    }
  }

  /** No request id is used twice. */
  ghost predicate FreshRequests(ws: seq<World>, steps: seq<Step>) {
    forall i :: 0 <= i < |steps| && i < |ws| && steps[i].DoRequest? ==> steps[i].key !in ws[i].rows
  }

  /** With fresh ids, requests are published in creation order. */
  lemma {:induction false} AlwaysInOrder(ws: seq<World>, steps: seq<Step>, n: nat)
    requires Run(ws, steps) && n < |ws| && FreshRequests(ws, steps)
    ensures InOrder(ws[n])
    decreases n
  {
    if n > 0 {
      AlwaysInOrder(ws, steps, n - 1);
      AlwaysSerial(ws, steps, n - 1);
      StepKeepsSerial(ws[n - 1], steps[n - 1]);
    }
  }

  predicate Undecided(w: World, key: Key) {
    IsPending(w, key) || IsQueued(w, key)
  }

  /**
   Whose turn it is: while a turn goes on, the approval that is published is
   exactly the oldest of the turn that nobody has decided yet. So a request is
   published at once if none is waiting, and each decision publishes the next.
   */
  lemma PublishedIffOldest(ws: seq<World>, steps: seq<Step>, n: nat, j: nat)
    requires Run(ws, steps) && n < |ws| && FreshRequests(ws, steps)
    requires j < |ws[n].order| && Undecided(ws[n], ws[n].order[j])
    requires ws[n].order[j].0 in ws[n].turns && !ws[n].turns[ws[n].order[j].0].done
    ensures IsPending(ws[n], ws[n].order[j]) <==>
      forall i :: 0 <= i < j && ws[n].order[i].0 == ws[n].order[j].0 ==> !Undecided(ws[n], ws[n].order[i])
  {
    AlwaysSerial(ws, steps, n);
    AlwaysInOrder(ws, steps, n);
    var w, key := ws[n], ws[n].order[j];
    if IsQueued(w, key) {
      var q: Key :| q.0 == key.0 && IsPending(w, q);
      var i :| 0 <= i < |w.order| && w.order[i] == q;
      assert i < j && Undecided(w, w.order[i]);
    } else {
      forall i | 0 <= i < j && w.order[i].0 == key.0 ensures !Undecided(w, w.order[i]) {
        assert w.order[i] != key;
      }
    }
  }
}
