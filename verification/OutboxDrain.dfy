/** One run of the dispatch loop: it ends with nothing left to claim, and handles no message twice. */
module OutboxDrain {
  import opened Prelude
  import opened Dispatcher

  const BATCH := 20
  const LEASE_SECONDS := 30

  /** The claimable messages of one sort, oldest first. */
  function Select(order: seq<MessageId>, rows: map<MessageId, Message>, now: int, isEvent: bool): (ids: seq<MessageId>)
    ensures forall id :: id in ids <==> id in order && id in rows && rows[id].isEvent == isEvent && Claimable(rows[id], now)
  {
    if order == [] then []
    else
      var rest := Select(order[..|order| - 1], rows, now, isEvent);
      var id := order[|order| - 1];
      if id in rows && rows[id].isEvent == isEvent && Claimable(rows[id], now) then rest + [id] else rest
  }

  function Take(ids: seq<MessageId>, n: nat): seq<MessageId> {
    if |ids| <= n then ids else ids[..n]
  }

  /** Messages that are not events go first; events fill what is left of the batch. */
  function Pull(order: seq<MessageId>, rows: map<MessageId, Message>, now: int, limit: nat): seq<MessageId> {
    var primary := Take(Select(order, rows, now, false), limit);
    if |primary| >= limit then primary
    else primary + Take(Select(order, rows, now, true), limit - |primary|)
  }

  ghost predicate Distinct(ids: seq<MessageId>) {
    forall i, j :: 0 <= i < j < |ids| ==> ids[i] != ids[j]
  }

  lemma {:induction false} SelectDistinct(order: seq<MessageId>, rows: map<MessageId, Message>, now: int, isEvent: bool)
    requires Distinct(order)
    ensures Distinct(Select(order, rows, now, isEvent))
  {
    if order != [] {
      var front := order[..|order| - 1];
      SelectDistinct(front, rows, now, isEvent);
      var rest := Select(front, rows, now, isEvent);
      forall i | 0 <= i < |rest| ensures rest[i] != order[|order| - 1] {
        assert rest[i] in front;
      }
    }
  }

  predicate IsClaimable(rows: map<MessageId, Message>, id: MessageId, now: int) {
    id in rows && Claimable(rows[id], now)
  }

  /** Of two claimable messages, the one that is no event comes first, and of two of a sort the older one. */
  predicate Precedes(order: seq<MessageId>, rows: map<MessageId, Message>, now: int, i: nat, j: nat) {
    && i < |order| && j < |order| && IsClaimable(rows, order[i], now) && IsClaimable(rows, order[j], now)
    && (if rows[order[i]].isEvent == rows[order[j]].isEvent then i < j else rows[order[j]].isEvent)
  }

  /** Whatever precedes a message of the batch is in it too, and before it; only a full batch leaves something out. */
  ghost predicate FirstOnes(order: seq<MessageId>, rows: map<MessageId, Message>, now: int, limit: nat, batch: seq<MessageId>) {
    && |batch| <= limit
    && (forall j :: 0 <= j < |order| && IsClaimable(rows, order[j], now) && |batch| < limit ==> order[j] in batch)
    && (forall i: nat, j: nat :: Precedes(order, rows, now, i, j) && order[j] in batch ==> InOrder(batch, order[i], order[j]))
  }

  ghost predicate InOrder(batch: seq<MessageId>, a: MessageId, b: MessageId) {
    exists x, y :: 0 <= x < y < |batch| && batch[x] == a && batch[y] == b
  }

  lemma {:induction false} SelectKeepsOrder(
    order: seq<MessageId>, rows: map<MessageId, Message>, now: int, isEvent: bool, i: nat, j: nat)
    requires i < j < |order| && IsClaimable(rows, order[i], now) && IsClaimable(rows, order[j], now)
    requires rows[order[i]].isEvent == rows[order[j]].isEvent == isEvent
    ensures InOrder(Select(order, rows, now, isEvent), order[i], order[j])
    decreases |order|
  {
    var n := |order| - 1;
    var front := order[..n];
    var rest := Select(front, rows, now, isEvent);
    if j < n {
      SelectKeepsOrder(front, rows, now, isEvent, i, j);
      var x, y :| 0 <= x < y < |rest| && rest[x] == order[i] && rest[y] == order[j];
      assert Select(order, rows, now, isEvent)[x] == order[i] && Select(order, rows, now, isEvent)[y] == order[j];
    } else {
      assert order[i] == front[i] && order[i] in rest;
      var x :| 0 <= x < |rest| && rest[x] == order[i];
      assert (rest + [order[j]])[x] == order[i] && (rest + [order[j]])[|rest|] == order[j];
    }
  }

  /** A beginning of a list without repetition has what comes before each of its members. */
  lemma TakeKeepsOrder(ids: seq<MessageId>, n: nat, a: MessageId, b: MessageId)
    requires Distinct(ids) && InOrder(ids, a, b) && b in Take(ids, n)
    ensures InOrder(Take(ids, n), a, b)
  {
    var x, y :| 0 <= x < y < |ids| && ids[x] == a && ids[y] == b;
    var some := Take(ids, n);
    var z :| 0 <= z < |some| && some[z] == b;
    assert ids[z] == b;
    assert some[x] == a && some[y] == b;
  }

  lemma OrderInFront(first: seq<MessageId>, rest: seq<MessageId>, a: MessageId, b: MessageId)
    requires InOrder(first, a, b) || InOrder(rest, a, b) || (a in first && b in rest)
    ensures InOrder(first + rest, a, b)
  {
    var all := first + rest;
    if x, y :| 0 <= x < y < |first| && first[x] == a && first[y] == b {
      assert all[x] == a && all[y] == b;
    } else if x, y :| 0 <= x < y < |rest| && rest[x] == a && rest[y] == b {
      assert all[|first| + x] == a && all[|first| + y] == b;
    } else {
      var x :| 0 <= x < |first| && first[x] == a;
      var y :| 0 <= y < |rest| && rest[y] == b;
      assert all[x] == a && all[|first| + y] == b;
    }
  }

  lemma TakeIn(ids: seq<MessageId>, n: nat)
    ensures forall id :: id in Take(ids, n) ==> id in ids
    ensures |ids| <= n ==> Take(ids, n) == ids
  {
  }

  /** A batch is the first of what may be claimed. */
  lemma PullsFirst(order: seq<MessageId>, rows: map<MessageId, Message>, now: int, limit: nat)
    requires Distinct(order)
    ensures FirstOnes(order, rows, now, limit, Pull(order, rows, now, limit))
  {
    var first, events := Select(order, rows, now, false), Select(order, rows, now, true);
    var primary, rest := Take(first, limit), if |Take(first, limit)| >= limit then [] else Take(events, limit - |Take(first, limit)|);
    assert Pull(order, rows, now, limit) == primary + rest;
    forall i: nat, j: nat | Precedes(order, rows, now, i, j) && order[j] in primary + rest
      ensures InOrder(primary + rest, order[i], order[j])
    {
      PrecedesInPull(order, rows, now, limit, i, j, primary, rest);
    }
  }

  lemma PrecedesInPull(order: seq<MessageId>, rows: map<MessageId, Message>, now: int, limit: nat, i: nat, j: nat,
                       primary: seq<MessageId>, rest: seq<MessageId>)
    requires Distinct(order) && Precedes(order, rows, now, i, j)
    requires primary == Take(Select(order, rows, now, false), limit)
    requires rest == if |primary| >= limit then [] else Take(Select(order, rows, now, true), limit - |primary|)
    requires order[j] in primary + rest
    ensures InOrder(primary + rest, order[i], order[j])
  {
    var first, events := Select(order, rows, now, false), Select(order, rows, now, true);
    SelectDistinct(order, rows, now, false);
    SelectDistinct(order, rows, now, true);
    TakeIn(first, limit);
    if |primary| < limit { TakeIn(events, limit - |primary|); }
    if rows[order[i]].isEvent != rows[order[j]].isEvent {
      assert order[i] in first && order[j] in rest && primary == first;
    } else if rows[order[j]].isEvent {
      SelectKeepsOrder(order, rows, now, true, i, j);
      assert order[j] in rest;
      TakeKeepsOrder(events, limit - |primary|, order[i], order[j]);
    } else {
      SelectKeepsOrder(order, rows, now, false, i, j);
      assert order[j] in primary;
      TakeKeepsOrder(first, limit, order[i], order[j]);
    }
    OrderInFront(primary, rest, order[i], order[j]);
  }

  /** A batch is claimable, without repetition, the first in order, and empty only if nothing is claimable. */
  lemma PullOk(order: seq<MessageId>, rows: map<MessageId, Message>, now: int, limit: nat)
    requires Distinct(order) && limit > 0
    ensures var batch := Pull(order, rows, now, limit);
      && Distinct(batch)
      && (forall id :: id in batch ==> id in order && id in rows && Claimable(rows[id], now))
      && FirstOnes(order, rows, now, limit, batch)
      && (batch == [] ==> forall id :: id in order && id in rows ==> !Claimable(rows[id], now))
  {
    PullsFirst(order, rows, now, limit);
    SelectDistinct(order, rows, now, false);
    SelectDistinct(order, rows, now, true);
    var first, events := Select(order, rows, now, false), Select(order, rows, now, true);
    var primary := Take(first, limit);
    forall i | 0 <= i < |primary| ensures primary[i] in first { assert primary[i] == first[i]; }
    if |primary| < limit {
      var rest := Take(events, limit - |primary|);
      forall i | 0 <= i < |rest| ensures rest[i] in events && rest[i] !in first { assert rest[i] == events[i]; }
    }
  }

  predicate Open(m: Message) {
    m.status == Queued || m.status == Sending
  }

  function OpenIds(rows: map<MessageId, Message>): set<MessageId> {
    set id | id in rows && Open(rows[id])
  }

  /** `rows` after the messages `handled` were sent, or not, as `sends` says; nobody holds a claim on them any more. */
  ghost predicate HandledOf(
    before: map<MessageId, Message>, rows: map<MessageId, Message>, handled: seq<MessageId>, sends: MessageId -> bool)
  {
    && rows.Keys == before.Keys
    && (forall id :: id in before && id !in handled ==> rows[id] == before[id])
    && (forall id :: id in before && id in handled ==>
          && Open(before[id])
          && rows[id] == Message(before[id].isEvent, if sends(id) then Sent else Failed, None, None))
  }

  class OutboxDispatcher {
    const order: seq<MessageId>
    var rows: map<MessageId, Message>

    constructor (order: seq<MessageId>, rows: map<MessageId, Message>)
      ensures this.order == order && this.rows == rows
    {
      this.order, this.rows := order, rows;
    }

    /** Claim, send, report. A message without recipients counts as sent. */
    method DispatchOne(id: MessageId, gateway: string, now: int, sent: bool) returns (ok: bool)
      modifies this`rows
      ensures ok <==> id in old(rows) && Claimable(old(rows)[id], now)
      ensures !ok ==> rows == old(rows)
      ensures ok ==> id in rows && HandledOf(old(rows), rows, [id], _ => sent)
    {
      var claim := ClaimOutbound(rows, id, gateway, now, LEASE_SECONDS);
      if !claim.Claimed? { return false; }
      rows := claim.rows;
      rows := Report(rows, id, sent);
      ok := true;
    }

    /** One batch: every message of it is claimed and reported. */
    method DispatchBatch(batch: seq<MessageId>, gateway: string, now: int, sends: MessageId -> bool)
      requires Distinct(batch) && forall id :: id in batch ==> id in rows && Claimable(rows[id], now)
      modifies this`rows
      ensures HandledOf(old(rows), rows, batch, sends)
    {
      for i := 0 to |batch|
        invariant HandledOf(old(rows), rows, batch[..i], sends)
      {
        assert batch[i] in batch && batch[i] !in batch[..i];
        var ok := DispatchOne(batch[i], gateway, now, sends(batch[i]));
        assert batch[..i + 1] == batch[..i] + [batch[i]];
      }
      assert batch[..|batch|] == batch;
    }

    /**
     The loop, with results stored and no message arriving: it ends, with nothing
     left that may be claimed; what it handled it handled once, and the rest is
     as before. `clock(k)` is the time of the `k`-th round.
     */
    method DispatchLoop(gateway: string, clock: nat -> int, sends: MessageId -> bool)
      returns (handled: seq<MessageId>, ghost rounds: nat)
      requires Distinct(order) && forall id :: id in rows ==> id in order
      modifies this`rows
      ensures HandledOf(old(rows), rows, handled, sends) && Distinct(handled)
      ensures forall id :: id in rows ==> !Claimable(rows[id], clock(rounds))
    {
      handled, rounds := [], 0;
      var k: nat := 0;
      while true
        invariant rounds == k
        invariant HandledOf(old(rows), rows, handled, sends) && Distinct(handled)
        invariant forall id :: id in handled ==> id in rows
        decreases |OpenIds(rows)|
      {
        PullOk(order, rows, clock(k), BATCH);
        var batch := Pull(order, rows, clock(k), BATCH);
        if |batch| == 0 { return; }
        ghost var before := rows;
        assert batch[0] in batch;
        DispatchBatch(batch, gateway, clock(k), sends);
        Longer(old(rows), before, rows, handled, batch, sends);
        FewerOpen(before, rows, batch, sends);
        handled := handled + batch;
        k, rounds := k + 1, rounds + 1;
      }
    }
  }

  lemma FewerOpen(
    before: map<MessageId, Message>, rows: map<MessageId, Message>, batch: seq<MessageId>, sends: MessageId -> bool)
    requires HandledOf(before, rows, batch, sends) && batch != [] && batch[0] in before
    ensures |OpenIds(rows)| < |OpenIds(before)|
  {
    assert OpenIds(rows) <= OpenIds(before) - {batch[0]} by {
      assert batch[0] in batch;
    }
    Subset(OpenIds(rows), OpenIds(before) - {batch[0]});
  }

  lemma {:induction false} Subset(a: set<MessageId>, b: set<MessageId>)
    requires a <= b
    ensures |a| <= |b|
  {
    assert b == a + (b - a);
  }

  lemma Longer(first: map<MessageId, Message>, before: map<MessageId, Message>, rows: map<MessageId, Message>,
               handled: seq<MessageId>, batch: seq<MessageId>, sends: MessageId -> bool)
    requires HandledOf(first, before, handled, sends) && HandledOf(before, rows, batch, sends) && Distinct(handled) && Distinct(batch)
    requires (forall id :: id in handled ==> id in before) && (forall id :: id in batch ==> id in before)
    ensures HandledOf(first, rows, handled + batch, sends) && Distinct(handled + batch)
  {
    var all := handled + batch;
    assert forall id :: id in all <==> id in handled || id in batch;
    forall i, j | 0 <= i < j < |all| ensures all[i] != all[j] {
      if i < |handled| <= j {
        assert handled[i] in handled && batch[j - |handled|] in batch;
      }
    }
  }
}
