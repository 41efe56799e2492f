/** The outbox dispatcher: its wake flag, and the claims that keep two gateways from sending the same message. */
module Dispatcher {
  import opened Prelude

  // ---- The wake flag -------------------------------------------------------

  /** `pulls` counts the pulls begun; `wakes` notes, for each wake-up, how many pulls had begun before it. */
  datatype Gate = Gate(dispatching: bool, requested: bool, pulls: nat, wakes: seq<nat>)

  /** `dispatchLoop` from the top: its first pull begins at once. */
  function StartLoop(g: Gate): Gate {
    if g.dispatching then g else g.(dispatching := true, pulls := g.pulls + 1)
  }

  function RequestDispatch(g: Gate): Gate {
    if g.dispatching then g.(requested := true) else StartLoop(g)
  }

  function Wake(g: Gate): Gate {
    RequestDispatch(g.(wakes := g.wakes + [g.pulls]))
  }

  /** The loop goes round. */
  function NextPull(g: Gate): Gate {
    g.(pulls := g.pulls + 1)
  }

  /** The loop ends, after an empty pull or an error. */
  function EndLoop(g: Gate): Gate {
    var idle := g.(dispatching := false);
    if idle.requested then RequestDispatch(idle.(requested := false)) else idle
  }

  datatype GateStep = DoWake | DoNextPull | DoEndLoop

  predicate GateEnabled(g: Gate, step: GateStep) {
    step.DoWake? || g.dispatching
  }

  function GateNext(g: Gate, step: GateStep): Gate
    requires GateEnabled(g, step)
  {
    match step
    case DoWake => Wake(g)
    case DoNextPull => NextPull(g)
    case DoEndLoop => EndLoop(g)
  }

  ghost predicate GateRun(gs: seq<Gate>, steps: seq<GateStep>) {
    && |gs| == |steps| + 1 && gs[0] == Gate(false, false, 0, [])
    && forall i :: 0 <= i < |steps| ==> GateEnabled(gs[i], steps[i]) && gs[i + 1] == GateNext(gs[i], steps[i])
  }

  /** A pull began after the wake-up. */
  predicate Served(g: Gate, i: nat)
    requires i < |g.wakes|
  {
    g.wakes[i] < g.pulls
  }

  /** A wake-up that no pull followed yet is remembered by a loop under way. */
  ghost predicate NoneLost(g: Gate) {
    && (forall i :: 0 <= i < |g.wakes| ==> g.wakes[i] <= g.pulls)
    && (forall i :: 0 <= i < |g.wakes| && !Served(g, i) ==> g.dispatching && g.requested)
    && (g.requested ==> g.dispatching)
  }

  /**
   No wake-up is lost: at every moment, a wake-up without a pull after it is
   held by a running loop's flag; so whenever nothing is dispatching, every
   wake-up so far was followed by a pull.
   */
  lemma {:induction false} NoWakeIsLost(gs: seq<Gate>, steps: seq<GateStep>, n: nat)
    requires GateRun(gs, steps) && n < |gs|
    ensures NoneLost(gs[n])
    ensures !gs[n].dispatching ==> !gs[n].requested && forall i :: 0 <= i < |gs[n].wakes| ==> Served(gs[n], i)
    decreases n
  {
    if n > 0 {
      NoWakeIsLost(gs, steps, n - 1);
      var g, h := gs[n - 1], gs[n];
      forall i | 0 <= i < |h.wakes| ensures h.wakes[i] <= h.pulls && (Served(h, i) || (h.dispatching && h.requested)) {
        if i < |g.wakes| {
          assert h.wakes[i] == g.wakes[i];
          assert Served(g, i) || g.requested;
        }
      }
    }
  }

  // ---- Claims --------------------------------------------------------------

  datatype Status = Queued | Sending | Sent | Failed

  datatype Message = Message(isEvent: bool, status: Status, claimedBy: Option<string>, leaseExpires: Option<int>)

  type MessageId = string

  predicate LeaseExpired(m: Message, now: int) {
    m.leaseExpires.Some? && m.leaseExpires.value <= now
  }

  predicate Claimable(m: Message, now: int) {
    m.status == Queued || (m.status == Sending && LeaseExpired(m, now))
  }

  datatype Claim = Claimed(rows: map<MessageId, Message>) | NotFound | NotClaimable

  function ClaimOutbound(rows: map<MessageId, Message>, id: MessageId, gateway: string, now: int, leaseSeconds: nat): Claim {
    if id !in rows then NotFound
    else if !Claimable(rows[id], now) then NotClaimable
    else Claimed(rows[id := rows[id].(status := Sending, claimedBy := Some(gateway),
                                      leaseExpires := Some(now + leaseSeconds * 1000))])
  }

  /** The dispatcher reports `sent` or `failed`, whoever holds the claim by then. */
  function Report(rows: map<MessageId, Message>, id: MessageId, sent: bool): map<MessageId, Message> {
    if id in rows then rows[id := rows[id].(status := if sent then Sent else Failed, claimedBy := None, leaseExpires := None)]
    else rows
  }

  datatype Step =
    | DoEnqueue(id: MessageId, isEvent: bool)
    | DoClaim(id: MessageId, gateway: string, leaseSeconds: nat)
    | DoReport(id: MessageId, sent: bool)

  datatype Timed = At(now: int, step: Step)

  predicate Enabled(rows: map<MessageId, Message>, step: Step) {
    step.DoEnqueue? ==> step.id !in rows
  }

  function Next(rows: map<MessageId, Message>, now: int, step: Step): map<MessageId, Message> {
    match step
    case DoEnqueue(id, isEvent) => rows[id := Message(isEvent, Queued, None, None)]
    case DoClaim(id, gateway, leaseSeconds) =>
      var claim := ClaimOutbound(rows, id, gateway, now, leaseSeconds);
      if claim.Claimed? then claim.rows else rows
    case DoReport(id, sent) => Report(rows, id, sent)
  }

  ghost predicate Run(states: seq<map<MessageId, Message>>, steps: seq<Timed>) {
    && |states| == |steps| + 1 && states[0] == map[]
    && (forall i :: 0 <= i < |steps| ==>
          Enabled(states[i], steps[i].step) && states[i + 1] == Next(states[i], steps[i].now, steps[i].step))
  }

  /** Step `i` claims the message. */
  ghost predicate Claims(states: seq<map<MessageId, Message>>, steps: seq<Timed>, i: int, id: MessageId)
    requires 0 <= i < |steps| && i < |states|
  {
    && steps[i].step.DoClaim? && steps[i].step.id == id
    && ClaimOutbound(states[i], id, steps[i].step.gateway, steps[i].now, steps[i].step.leaseSeconds).Claimed?
  }

  ghost predicate Reported(steps: seq<Timed>, i: int, j: int, id: MessageId)
    requires 0 <= i <= j <= |steps|
  {
    exists k :: i < k < j && steps[k].step.DoReport? && steps[k].step.id == id
  }

  /** Step `k` is the last before state `j` that reported a result for the message. */
  ghost predicate LastReport(steps: seq<Timed>, k: int, j: int, id: MessageId) {
    && 0 <= k < j <= |steps| && steps[k].step.DoReport? && steps[k].step.id == id
    && forall m :: k < m < j && steps[m].step.DoReport? ==> steps[m].step.id != id
  }

  /** Between two claims in a row, the message is being sent under the first one's lease, or was reported. */
  lemma {:induction false} HeldBetween(states: seq<map<MessageId, Message>>, steps: seq<Timed>, i: nat, j: nat, id: MessageId)
    requires Run(states, steps) && i < j < |states| && Claims(states, steps, i, id)
    requires forall k :: i < k < j ==> !Claims(states, steps, k, id)
    ensures id in states[j]
    ensures Reported(steps, i, j, id) ==> exists k ::
      i < k < j && LastReport(steps, k, j, id) && states[j][id].status == if steps[k].step.sent then Sent else Failed
    ensures !Reported(steps, i, j, id) ==>
      states[j][id].status == Sending && states[j][id].claimedBy == Some(steps[i].step.gateway)
    ensures !Reported(steps, i, j, id) ==> states[j][id].leaseExpires == Some(steps[i].now + steps[i].step.leaseSeconds * 1000)
    decreases j
  {
    if j == i + 1 {
      assert states[j] == Next(states[i], steps[i].now, steps[i].step);
    } else {
      HeldBetween(states, steps, i, j - 1, id);
      assert states[j] == Next(states[j - 1], steps[j - 1].now, steps[j - 1].step);
      assert !Claims(states, steps, j - 1, id);
    }
  }

  /**
   A message is claimed again only after the earlier lease ran out and nobody
   reported a result in between.
   */
  lemma ClaimedAgain(states: seq<map<MessageId, Message>>, steps: seq<Timed>, i: nat, j: nat, id: MessageId)
    requires Run(states, steps) && i < j < |steps|
    requires Claims(states, steps, i, id) && Claims(states, steps, j, id)
    requires forall k :: i < k < j ==> !Claims(states, steps, k, id)
    ensures steps[j].now >= steps[i].now + steps[i].step.leaseSeconds * 1000
    ensures forall k :: i < k < j && steps[k].step.DoReport? ==> steps[k].step.id != id
  {
    HeldBetween(states, steps, i, j, id);
    assert Claimable(states[j][id], steps[j].now);
    assert !Reported(steps, i, j, id);
  }

  /** The report finds the message. */
  ghost predicate Reports(states: seq<map<MessageId, Message>>, steps: seq<Timed>, k: int, id: MessageId)
    requires 0 <= k < |steps| && k < |states|
  {
    steps[k].step.DoReport? && steps[k].step.id == id && id in states[k]
  }

  /** Until it is claimed, a message waits unless a result was reported for it. */
  lemma {:induction false} Unclaimed(states: seq<map<MessageId, Message>>, steps: seq<Timed>, j: nat, id: MessageId)
    requires Run(states, steps) && j < |states| && id in states[j]
    requires forall k :: 0 <= k < j ==> !Claims(states, steps, k, id)
    ensures states[j][id].status != Sending
    ensures states[j][id].status == Queued <==> forall k :: 0 <= k < j ==> !Reports(states, steps, k, id)
    decreases j
  {
    if j > 0 {
      assert states[j] == Next(states[j - 1], steps[j - 1].now, steps[j - 1].step);
      assert !Claims(states, steps, j - 1, id);
      assert Reports(states, steps, j - 1, id) ==> states[j][id].status != Queued;
      if id in states[j - 1] {
        Unclaimed(states, steps, j - 1, id);
      } else {
        NotThereYet(states, steps, j - 1, id);
      }
    }
  }

  lemma {:induction false} NotThereYet(states: seq<map<MessageId, Message>>, steps: seq<Timed>, j: nat, id: MessageId)
    requires Run(states, steps) && j < |states| && id !in states[j]
    ensures forall k :: 0 <= k < j ==> !Reports(states, steps, k, id)
    decreases j
  {
    if j > 0 {
      assert states[j] == Next(states[j - 1], steps[j - 1].now, steps[j - 1].step);
      NotThereYet(states, steps, j - 1, id);
    }
  }

  /** Step `i` is the last before `j` that claimed the message. */
  ghost predicate LastClaim(states: seq<map<MessageId, Message>>, steps: seq<Timed>, i: int, j: int, id: MessageId)
    requires 0 <= j < |steps| && |states| == |steps| + 1
  {
    0 <= i < j && Claims(states, steps, i, id) && forall k :: i < k < j ==> !Claims(states, steps, k, id)
  }

  /** The message was never claimed or reported, or its last lease ran out without a report. */
  ghost predicate IsFree(states: seq<map<MessageId, Message>>, steps: seq<Timed>, j: int, id: MessageId)
    requires 0 <= j < |steps| && |states| == |steps| + 1
  {
    || (forall k :: 0 <= k < j ==> !Claims(states, steps, k, id) && !Reports(states, steps, k, id))
    || (exists i :: LastClaim(states, steps, i, j, id) && !Reported(steps, i, j, id)
                    && steps[j].now >= steps[i].now + steps[i].step.leaseSeconds * 1000)
  }

  /** A claim succeeds exactly if the message is free: none is kept from being sent for longer than a lease. */
  lemma ClaimSucceedsIff(states: seq<map<MessageId, Message>>, steps: seq<Timed>, j: nat, id: MessageId)
    requires Run(states, steps) && j < |steps| && id in states[j] && steps[j].step.DoClaim? && steps[j].step.id == id
    ensures Claims(states, steps, j, id) <==> IsFree(states, steps, j, id)
  {
    if forall k :: 0 <= k < j ==> !Claims(states, steps, k, id) {
      Unclaimed(states, steps, j, id);
    } else {
      var i := TheLastClaim(states, steps, j, id);
      HeldBetween(states, steps, i, j, id);
      forall k | LastClaim(states, steps, k, j, id) ensures k == i { }
    }
  }

  lemma {:induction false} TheLastClaim(states: seq<map<MessageId, Message>>, steps: seq<Timed>, j: nat, id: MessageId)
    returns (i: nat)
    requires j < |steps| && |states| == |steps| + 1 && exists k :: 0 <= k < j && Claims(states, steps, k, id)
    ensures LastClaim(states, steps, i, j, id)
    decreases j
  {
    if Claims(states, steps, j - 1, id) {
      i := j - 1;
    } else {
      i := TheLastClaim(states, steps, j - 1, id);
    }
  }
}
