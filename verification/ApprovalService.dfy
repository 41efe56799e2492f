/** The approval queue as the service runs it: rows and timers changed in place. */
module ApprovalService {
  import opened Prelude
  import opened ApprovalQueue

  /** The rows `seen` are recovered: a timer for each with time left, an attempt for each overdue one. */
  ghost predicate RecoveredFrom(w: World, seen: set<Key>, timers: map<Key, int>, firing: set<Key>) {
    && (forall k :: k in timers <==> k in seen && k in w.rows && Recoverable(w.rows[k]) && w.rows[k].autoApproveAt.value > w.clock)
    && (forall k :: k in timers ==> k in w.rows && Recoverable(w.rows[k]) && timers[k] == w.rows[k].autoApproveAt.value)
    && (forall k :: k in firing <==> k in seen && k in w.rows && Recoverable(w.rows[k]) && w.rows[k].autoApproveAt.value <= w.clock)
  }

  class ApprovalQueueService {
    var clock: int
    var order: seq<Key>
    var rows: map<Key, Row>
    var turns: map<TurnId, Turn>
    var timers: map<Key, int>
    var firing: set<Key>
    var accepted: seq<Key>

    constructor (clock: int)
      ensures Contents() == Initial(clock)
    {
      this.clock, order, rows, turns := clock, [], map[], map[];
      timers, firing, accepted := map[], {}, [];
    }

    function Contents(): World
      reads this
    {
      World(clock, order, rows, turns, timers, firing, accepted)
    }

    method EnqueueApprovalRequest(key: Key)
      modifies this
      ensures Contents() == EnqueueRequest(old(Contents()), key)
    {
      if key !in rows { order := order + [key]; }
      rows := rows[key := NEW_ROW];
      PublishNext(key.0);
    }

    method PublishNext(turn: TurnId)
      modifies this
      ensures Contents() == TryPublishNext(old(Contents()), turn)
    {
      var pending := exists k :: k in order && k.0 == turn && IsPending(Contents(), k);
      if pending { return; }
      var next := OldestQueued(turn);
      if next.None? { return; }
      PublishRow(next.value);
    }

    method OldestQueued(turn: TurnId) returns (next: Option<Key>)
      ensures next == FirstQueued(Contents(), order, turn)
    {
      var i := 0;
      while i < |order|
        invariant 0 <= i <= |order|
        invariant FirstQueued(Contents(), order, turn) == FirstQueued(Contents(), order[i..], turn)
      {
        if order[i].0 == turn && IsQueued(Contents(), order[i]) { return Some(order[i]); }
        assert order[i..][1..] == order[i + 1..];
        i := i + 1;
      }
      next := None;
    }

    method PublishRow(key: Key)
      requires key in rows
      modifies this
      ensures Contents() == Publish(old(Contents()), key)
    {
      if key.0 !in turns { return; }
      var turn := turns[key.0];
      if turn.done {
        rows := rows[key := rows[key].(status := Rejected)];
        return;
      }
      if turn.autoApprove && turn.timeoutSeconds > 0 {
        var at := clock + turn.timeoutSeconds * 1000;
        rows := rows[key := Row(Pending, Some(turn.timeoutSeconds * 1000), Some(at), None, None)];
        ArmTimer(key, at - clock);
      } else {
        rows := rows[key := Row(Pending, None, None, None, None)];
        if turn.autoApprove { firing := firing + {key}; }
      }
    }

    method ArmTimer(key: Key, remaining: int)
      modifies this`timers
      ensures timers == old(timers)[key := clock + Max(0, remaining)]
    {
      CancelLocalTimer(key);
      timers := timers[key := clock + Max(0, remaining)];
    }

    method CancelLocalTimer(key: Key)
      modifies this`timers
      ensures timers == old(timers) - {key}
    {
      if key in timers { timers := timers - {key}; }
    }

    /** `false` is the not-found error. */
    method PauseTimer(key: Key) returns (ok: bool)
      modifies this
      ensures Contents() == Pause(old(Contents()), key)
      ensures ok <==> CanPause(old(Contents()), key)
    {
      if !IsPending(Contents(), key) || rows[key].pausedAt.Some? || rows[key].autoApproveAt.None? { return false; }
      var remaining := Max(0, rows[key].autoApproveAt.value - clock);
      CancelLocalTimer(key);
      rows := rows[key := rows[key].(autoApproveAt := None, pausedAt := Some(clock), pausedRemaining := Some(remaining))];
      ok := true;
    }

    method ResumeTimer(key: Key) returns (ok: bool)
      modifies this
      ensures Contents() == Resume(old(Contents()), key)
      ensures ok <==> CanResume(old(Contents()), key)
    {
      if !IsPending(Contents(), key) || rows[key].pausedAt.None? { return false; }
      var remaining := if rows[key].pausedRemaining.Some? then rows[key].pausedRemaining.value else 0;
      rows := rows[key := rows[key].(autoApproveAt := Some(clock + remaining), pausedAt := None, pausedRemaining := None)];
      ArmTimer(key, remaining);
      ok := true;
    }

    /** The ingested decision of the runner. */
    method ApprovalResolved(key: Key, approved: bool)
      modifies this
      ensures Contents() == Resolve(old(Contents()), key, approved)
    {
      if key.0 !in turns || turns[key.0].done { return; }
      if IsPending(Contents(), key) {
        rows := rows[key := rows[key].(status := if approved then Approved else Rejected)];
      }
      CancelLocalTimer(key);
      PublishNext(key.0);
    }

    method FireAutoApprove(key: Key)
      requires key in firing
      modifies this
      ensures Contents() == Fire(old(Contents()), key)
    {
      firing := firing - {key};
      if key !in rows || rows[key].status != Pending || rows[key].pausedAt.Some? { return; }
      accepted := accepted + [key];
    }

    /** On start-up: the memory of the last process is gone. */
    method RecoverTimers()
      modifies this
      ensures Contents() == Restart(old(Contents()))
    {
      timers, firing := map[], {};
      var todo := rows.Keys;
      while todo != {}
        invariant todo <= rows.Keys
        invariant Contents() == old(Contents()).(timers := timers, firing := firing)
        invariant RecoveredFrom(old(Contents()), rows.Keys - todo, timers, firing)
        decreases |todo|
      {
        var key :| key in todo;
        todo := todo - {key};
        if Recoverable(rows[key]) {
          var remaining := rows[key].autoApproveAt.value - clock;
          if remaining <= 0 { firing := firing + {key}; } else { ArmTimer(key, remaining); }
        }
      }
      assert timers == Restart(old(Contents())).timers;
      assert firing == Restart(old(Contents())).firing;
    }
  }
}
