/**
 The provider-switch lease: one row that turn creations and switch requests of
 any number of processes check and change, each in a transaction.
 */
module ProviderSwitch {
  import opened Prelude

  const PROVIDER_SWITCH_LEASE_MS: int := 2 * 60 * 1000

  type Owner = string
  type TurnId = string

  datatype Control = Control(inProgress: bool, owner: Option<Owner>, expires: Option<int>)

  const FREE := Control(false, None, None)

  /** A switch request's heartbeat; `renewal` is the time stamped into a renewal whose outcome is still open. */
  datatype Heartbeat = Heartbeat(stopped: bool, lost: bool, renewal: Option<int>)

  /** `late` holds stamps of renewals that were reported as failed but may still reach the database. */
  datatype World = World(
    clock: int,
    row: Control,
    active: set<TurnId>,
    beats: map<Owner, Heartbeat>,
    late: map<Owner, int>)

  predicate LeaseActive(row: Control, now: int) {
    row.inProgress && row.expires.Some? && row.expires.value > now
  }

  // ---- Transactions --------------------------------------------------------

  datatype Outcome<T> = Committed(value: T) | Conflict

  /** The check inside a turn's creation: an expired lease is cleared on the way. */
  function AllowTurn(row: Control, now: int): Outcome<Control> {
    if LeaseActive(row, now) then Conflict
    else if row.inProgress then Committed(FREE)
    else Committed(row)
  }

  /** `now` was read before the transaction. A conflict rolls everything back. */
  function CreateTurn(w: World, turn: TurnId, now: int, sessionBusy: bool): World {
    match AllowTurn(w.row, now)
    case Conflict => w
    case Committed(row) => if sessionBusy then w else w.(row := row, active := w.active + {turn})
  }

  function Acquire(w: World, owner: Owner, now: int): World {
    if LeaseActive(w.row, now) || w.active != {} then w
    else w.(row := Control(true, Some(owner), Some(now + PROVIDER_SWITCH_LEASE_MS)),
            beats := w.beats[owner := Heartbeat(false, false, None)])
  }

  function Release(w: World, owner: Owner): World {
    if w.row.owner == Some(owner) then w.(row := FREE) else w
  }

  predicate RenewMatches(row: Control, owner: Owner) {
    row.inProgress && row.owner == Some(owner)
  }

  function RenewRow(row: Control, owner: Owner, stamp: int): Control {
    if RenewMatches(row, owner) then row.(expires := Some(stamp + PROVIDER_SWITCH_LEASE_MS)) else row
  }

  // ---- The heartbeat -------------------------------------------------------

  function BeginRenew(w: World, owner: Owner): World
    requires owner in w.beats
  {
    var b := w.beats[owner];
    if b.stopped || b.lost || b.renewal.Some? then w
    else w.(beats := w.beats[owner := b.(renewal := Some(w.clock))])
  }

  /** The update ran: it matched one row, or the lease is lost. */
  function CommitRenew(w: World, owner: Owner): World
    requires owner in w.beats && w.beats[owner].renewal.Some?
  {
    var b := w.beats[owner];
    w.(row := RenewRow(w.row, owner, b.renewal.value),
       beats := w.beats[owner := b.(renewal := None, lost := b.lost || !RenewMatches(w.row, owner))])
  }

  /** The update was reported as failed: the lease counts as lost, though the update may still happen. */
  function FailRenew(w: World, owner: Owner): World
    requires owner in w.beats && w.beats[owner].renewal.Some?
  {
    var b := w.beats[owner];
    w.(beats := w.beats[owner := b.(renewal := None, lost := true)], late := w.late[owner := b.renewal.value])
  }

  function LateRenew(w: World, owner: Owner): World
    requires owner in w.late
  {
    w.(row := RenewRow(w.row, owner, w.late[owner]), late := w.late - {owner})
  }

  // ---- Runs ----------------------------------------------------------------

  datatype Step =
    | DoTick(now: int)
    | DoCreateTurn(turn: TurnId, now: int, sessionBusy: bool)
    | DoFinishTurn(turn: TurnId)
    | DoAcquire(owner: Owner, now: int)
    | DoBeginRenew(owner: Owner)
    | DoCommitRenew(owner: Owner)
    | DoFailRenew(owner: Owner)
    | DoLateRenew(owner: Owner)
    | DoStop(owner: Owner)
    | DoRelease(owner: Owner)

  /** Time stamps are never ahead of the clock; owners are new random ids. */
  predicate Enabled(w: World, step: Step) {
    match step
    case DoTick(now) => w.clock <= now
    case DoCreateTurn(_, now, _) => now <= w.clock
    case DoAcquire(owner, now) => now <= w.clock && owner !in w.beats && owner !in w.late
    case DoBeginRenew(owner) => owner in w.beats
    case DoCommitRenew(owner) => owner in w.beats && w.beats[owner].renewal.Some?
    case DoFailRenew(owner) => owner in w.beats && w.beats[owner].renewal.Some?
    case DoLateRenew(owner) => owner in w.late
    case DoStop(owner) => owner in w.beats
    case DoFinishTurn(_) => true
    case DoRelease(_) => true
  }

  function Next(w: World, step: Step): World
    requires Enabled(w, step)
  {
    match step
    case DoTick(now) => w.(clock := now)
    case DoCreateTurn(turn, now, busy) => CreateTurn(w, turn, now, busy)
    case DoFinishTurn(turn) => w.(active := w.active - {turn})
    case DoAcquire(owner, now) => Acquire(w, owner, now)
    case DoBeginRenew(owner) => BeginRenew(w, owner)
    case DoCommitRenew(owner) => CommitRenew(w, owner)
    case DoFailRenew(owner) => FailRenew(w, owner)
    case DoLateRenew(owner) => LateRenew(w, owner)
    case DoStop(owner) => w.(beats := w.beats[owner := w.beats[owner].(stopped := true)])
    case DoRelease(owner) => Release(w, owner)
  }

  function Initial(clock: int): World {
    World(clock, FREE, {}, map[], map[])
  }

  ghost predicate Run(ws: seq<World>, steps: seq<Step>) {
    && |ws| == |steps| + 1
    && ws[0] == Initial(ws[0].clock)
    && forall i :: 0 <= i < |steps| ==> Enabled(ws[i], steps[i]) && ws[i + 1] == Next(ws[i], steps[i])
  }

  // ---- Invariants ----------------------------------------------------------

  /** A row in progress means that no turn is active, and that one acquired owner holds it. */
  predicate RowOk(w: World) {
    && (w.row.inProgress <==> w.row.owner.Some?) && (w.row.inProgress <==> w.row.expires.Some?)
    && (w.row.inProgress ==> w.active == {} && w.row.owner.value in w.beats)
  }

  lemma {:induction false} RowAlwaysOk(ws: seq<World>, steps: seq<Step>, n: nat)
    requires Run(ws, steps) && n < |ws|
    ensures RowOk(ws[n])
    decreases n
  {
    if n > 0 {
      RowAlwaysOk(ws, steps, n - 1);
      assert ws[n] == Next(ws[n - 1], steps[n - 1]);
    }
  }

  /** An owner without the row can never renew again, so at most one owner's renewals can succeed. */
  lemma {:induction false} LostForGood(ws: seq<World>, steps: seq<Step>, i: nat, j: nat, owner: Owner)
    requires Run(ws, steps) && i <= j < |ws|
    requires owner in ws[i].beats && ws[i].row.owner != Some(owner)
    ensures owner in ws[j].beats && ws[j].row.owner != Some(owner)
    ensures !RenewMatches(ws[j].row, owner)
    decreases j - i
  {
    if i < j {
      assert ws[i + 1] == Next(ws[i], steps[i]);
      LostForGood(ws, steps, i + 1, j, owner);
    }
  }

  /** What holds for `owner` from a renewal stamped `s` on: the row, an expiry of at least `s` + 120000, no turn. */
  predicate Protected(w: World, owner: Owner, s: int) {
    && w.row == Control(true, Some(owner), w.row.expires)
    && w.row.expires.Some? && w.row.expires.value >= s + 120_000
    && w.active == {}
    && (owner in w.late ==> w.late[owner] >= s)
    && owner in w.beats && (w.beats[owner].renewal.Some? ==> w.beats[owner].renewal.value >= s)
    && s <= w.clock
  }

  /** Until then nothing but the owner's own release ends the protection. */
  lemma StepKeepsProtection(w: World, step: Step, owner: Owner, s: int)
    requires Enabled(w, step) && Protected(w, owner, s)
    requires Next(w, step).clock < s + 120_000 && step != DoRelease(owner)
    ensures Protected(Next(w, step), owner, s)
  {
  }

  /** A heartbeat renews only what was not lost, and is lost once a renewal failed. */
  predicate BeatsOk(w: World) {
    && (forall o :: o in w.late ==> o in w.beats && w.beats[o].lost && w.beats[o].renewal == None)
    && (forall o :: o in w.beats && w.beats[o].renewal.Some? ==> !w.beats[o].lost && w.beats[o].renewal.value <= w.clock)
  }

  lemma {:induction false} BeatsAlwaysOk(ws: seq<World>, steps: seq<Step>, n: nat)
    requires Run(ws, steps) && n < |ws|
    ensures BeatsOk(ws[n])
    decreases n
  {
    if n > 0 {
      BeatsAlwaysOk(ws, steps, n - 1);
      assert ws[n] == Next(ws[n - 1], steps[n - 1]);
    }
  }

  /**
   The switch lease: step `k` is a renewal of `owner`, stamped `s`, that
   succeeds. In every later state whose clock is before `s` + 120000, unless the
   owner released in between, the owner still holds the row and no turn is
   active, whatever any process did in between.
   */
  lemma {:induction false} RenewedMeansAlone(ws: seq<World>, steps: seq<Step>, k: nat, j: nat, owner: Owner, s: int)
    requires Run(ws, steps) && k < j < |ws|
    requires steps[k] == DoCommitRenew(owner) && ws[k].beats[owner].renewal == Some(s)
    requires !ws[k + 1].beats[owner].lost
    requires forall i :: k < i < j ==> steps[i] != DoRelease(owner)
    requires ws[j].clock < s + 120_000
    ensures Protected(ws[j], owner, s)
    decreases j
  {
    if j == k + 1 {
      RowAlwaysOk(ws, steps, k);
      BeatsAlwaysOk(ws, steps, k);
      assert ws[j] == CommitRenew(ws[k], owner);
    } else {
      ClockRuns(ws, steps, j - 1);
      RenewedMeansAlone(ws, steps, k, j - 1, owner, s);
      StepKeepsProtection(ws[j - 1], steps[j - 1], owner, s);
    }
  }

  lemma ClockRuns(ws: seq<World>, steps: seq<Step>, i: nat)
    requires Run(ws, steps) && i < |steps|
    ensures ws[i].clock <= ws[i + 1].clock
  {
    assert ws[i + 1] == Next(ws[i], steps[i]);
  }

  /** The same after the acquisition itself. */
  lemma {:induction false} AcquiredMeansAlone(ws: seq<World>, steps: seq<Step>, k: nat, j: nat, owner: Owner, s: int)
    requires Run(ws, steps) && k < j < |ws|
    requires steps[k] == DoAcquire(owner, s) && owner in ws[k + 1].beats
    requires forall i :: k < i < j ==> steps[i] != DoRelease(owner)
    requires ws[j].clock < s + 120_000
    ensures Protected(ws[j], owner, s)
    decreases j
  {
    if j == k + 1 {
      assert ws[j] == Acquire(ws[k], owner, s);
    } else {
      ClockRuns(ws, steps, j - 1);
      AcquiredMeansAlone(ws, steps, k, j - 1, owner, s);
      StepKeepsProtection(ws[j - 1], steps[j - 1], owner, s);
    }
  }

  // ---- The heartbeat's verdict ---------------------------------------------

  /** The heartbeat learns that the lease is lost: a renewal failed, or found that the row is not the owner's. */
  predicate Loses(w: World, step: Step, owner: Owner) {
    step == DoFailRenew(owner) || (step == DoCommitRenew(owner) && !(w.row.inProgress && w.row.owner == Some(owner)))
  }

  ghost predicate LostAt(ws: seq<World>, steps: seq<Step>, i: int, n: int, owner: Owner) {
    0 <= i < n <= |steps| && |ws| == |steps| + 1 && Loses(ws[i], steps[i], owner)
  }

  lemma BeatMoves(w: World, step: Step, owner: Owner)
    requires Enabled(w, step)
    ensures owner in Next(w, step).beats ==>
      (Next(w, step).beats[owner].lost <==> (owner in w.beats && w.beats[owner].lost) || Loses(w, step, owner))
    ensures owner in w.beats ==> owner in Next(w, step).beats
    ensures Loses(w, step, owner) ==> owner in w.beats
  {
  }

  lemma {:induction false} LostNeedsBeat(ws: seq<World>, steps: seq<Step>, i: nat, n: nat, owner: Owner)
    requires Run(ws, steps) && i <= n < |ws| && owner in ws[i].beats
    ensures owner in ws[n].beats
    decreases n
  {
    if i < n {
      LostNeedsBeat(ws, steps, i, n - 1, owner);
      BeatMoves(ws[n - 1], steps[n - 1], owner);
    }
  }

  /** The verdict is exact: a heartbeat counts the lease as lost exactly if one of its renewals told so. */
  lemma {:induction false} LostIff(ws: seq<World>, steps: seq<Step>, n: nat, owner: Owner)
    requires Run(ws, steps) && n < |ws| && owner in ws[n].beats
    ensures ws[n].beats[owner].lost <==> exists i :: LostAt(ws, steps, i, n, owner)
    decreases n
  {
    if n > 0 {
      var m := n - 1;
      BeatMoves(ws[m], steps[m], owner);
      MoreLost(ws, steps, m, n, owner);
      if owner in ws[m].beats {
        LostIff(ws, steps, m, owner);
      } else if i :| LostAt(ws, steps, i, m, owner) {
        BeatMoves(ws[i], steps[i], owner);
        LostNeedsBeat(ws, steps, i, m, owner);
      }
    }
  }

  lemma MoreLost(ws: seq<World>, steps: seq<Step>, n: nat, m: nat, owner: Owner)
    requires m == n + 1 <= |steps| && |ws| == |steps| + 1
    ensures (exists i :: LostAt(ws, steps, i, m, owner)) <==>
      Loses(ws[n], steps[n], owner) || exists i :: LostAt(ws, steps, i, n, owner)
  {
    if i :| LostAt(ws, steps, i, m, owner) { assert i < n ==> LostAt(ws, steps, i, n, owner); }
    if Loses(ws[n], steps[n], owner) { assert LostAt(ws, steps, n, m, owner); }
    if i :| LostAt(ws, steps, i, n, owner) { assert LostAt(ws, steps, i, m, owner); }
  }

  /** The heartbeat begins a renewal, stamped with the time. */
  predicate Begins(w: World, step: Step, owner: Owner, s: int) {
    && step == DoBeginRenew(owner) && owner in w.beats && w.clock == s
    && !w.beats[owner].stopped && !w.beats[owner].lost && w.beats[owner].renewal == None
  }

  predicate Renewing(w: World, owner: Owner, s: int) {
    owner in w.beats && w.beats[owner].renewal == Some(s)
  }

  /** A renewal begun at step `i` has no outcome yet. */
  ghost predicate OpenSince(ws: seq<World>, steps: seq<Step>, i: int, n: int, owner: Owner, s: int) {
    && 0 <= i < n <= |steps| && |ws| == |steps| + 1 && Begins(ws[i], steps[i], owner, s)
    && forall j :: i < j < n ==> steps[j] != DoCommitRenew(owner) && steps[j] != DoFailRenew(owner)
  }

  lemma RenewalMoves(w: World, step: Step, owner: Owner, s: int)
    requires Enabled(w, step)
    ensures Renewing(Next(w, step), owner, s) <==>
      Begins(w, step, owner, s) || (Renewing(w, owner, s) && step != DoCommitRenew(owner) && step != DoFailRenew(owner))
  {
  }

  /** A renewal is under way exactly if a heartbeat that was neither stopped nor lost began it, and it has no outcome yet. */
  lemma {:induction false} RenewalIff(ws: seq<World>, steps: seq<Step>, n: nat, owner: Owner, s: int)
    requires Run(ws, steps) && n < |ws|
    ensures Renewing(ws[n], owner, s) <==> exists i :: OpenSince(ws, steps, i, n, owner, s)
    decreases n
  {
    if n > 0 {
      var m := n - 1;
      RenewalIff(ws, steps, m, owner, s);
      RenewalMoves(ws[m], steps[m], owner, s);
      OpenMoves(ws, steps, m, n, owner, s);
    }
  }

  lemma OpenMoves(ws: seq<World>, steps: seq<Step>, n: nat, m: nat, owner: Owner, s: int)
    requires m == n + 1 <= |steps| && |ws| == |steps| + 1
    ensures (exists i :: OpenSince(ws, steps, i, m, owner, s)) <==>
      Begins(ws[n], steps[n], owner, s)
      || ((exists i :: OpenSince(ws, steps, i, n, owner, s)) && steps[n] != DoCommitRenew(owner) && steps[n] != DoFailRenew(owner))
  {
    if i :| OpenSince(ws, steps, i, m, owner, s) { assert i < n ==> OpenSince(ws, steps, i, n, owner, s); }
    if Begins(ws[n], steps[n], owner, s) {
      assert OpenSince(ws, steps, n, m, owner, s);
    } else if i :| OpenSince(ws, steps, i, n, owner, s) {
      assert steps[n] != DoCommitRenew(owner) && steps[n] != DoFailRenew(owner) ==> OpenSince(ws, steps, i, m, owner, s);
    }
  }

  /** Once stopped, a heartbeat begins no renewal: one that is still open was begun before. */
  lemma {:induction false} StopEndsRenewals(ws: seq<World>, steps: seq<Step>, i: nat, n: nat, owner: Owner)
    requires Run(ws, steps) && i < n < |ws| && steps[i] == DoStop(owner)
    ensures owner in ws[i].beats && owner in ws[n].beats && ws[n].beats[owner].stopped
    ensures ws[n].beats[owner].renewal.Some? ==> ws[n].beats[owner].renewal == ws[i].beats[owner].renewal
    decreases n
  {
    if i + 1 < n { StopEndsRenewals(ws, steps, i, n - 1, owner); }
    assert ws[n] == Next(ws[n - 1], steps[n - 1]);
  }

  // ---- What makes a lease be in force --------------------------------------

  /** The step writes `owner`'s expiry, from the stamp `s`, into the row. */
  predicate Stamps(w: World, step: Step, owner: Owner, s: int)
    requires Enabled(w, step)
  {
    match step
    case DoAcquire(o, now) => o == owner && now == s && !LeaseActive(w.row, now) && w.active == {}
    case DoCommitRenew(o) => o == owner && w.beats[o].renewal == Some(s) && RenewMatches(w.row, o)
    case DoLateRenew(o) => o == owner && w.late[o] == s && RenewMatches(w.row, o)
    case _ => false
  }

  /** The step frees the row: its owner's release, or a turn's creation once the lease has run out. */
  predicate Frees(w: World, step: Step)
    requires Enabled(w, step)
  {
    match step
    case DoRelease(o) => w.row.owner == Some(o)
    case DoCreateTurn(_, now, busy) => !LeaseActive(w.row, now) && !busy
    case _ => false
  }

  ghost predicate Rewrites(w: World, step: Step)
    requires Enabled(w, step)
  {
    Frees(w, step) || exists owner, s :: Stamps(w, step, owner, s)
  }

  /** Step `k` gave `owner` the row with stamp `s`, and no step up to state `n` wrote it again. */
  ghost predicate LastStamp(ws: seq<World>, steps: seq<Step>, k: int, n: int, owner: Owner, s: int)
    requires Run(ws, steps)
  {
    && 0 <= k < n < |ws| && Stamps(ws[k], steps[k], owner, s)
    && forall i :: k < i < n ==> !Rewrites(ws[i], steps[i])
  }

  lemma RowMoves(w: World, step: Step, owner: Owner, s: int)
    requires Enabled(w, step) && RowOk(w)
    ensures Stamps(w, step, owner, s) ==> Next(w, step).row == Control(true, Some(owner), Some(s + 120_000))
    ensures Frees(w, step) ==> Next(w, step).row == FREE
    ensures !Rewrites(w, step) ==> Next(w, step).row == w.row
  {
    if !Rewrites(w, step) {
      match step
      case DoAcquire(o, now) => assert !Stamps(w, step, o, now);
      case DoCommitRenew(o) => assert !Stamps(w, step, o, w.beats[o].renewal.value);
      case DoLateRenew(o) => assert !Stamps(w, step, o, w.late[o]);
      case _ =>
    }
  }

  /** A row in progress has the stamp of the last step that wrote it. */
  lemma {:induction false} StampOf(ws: seq<World>, steps: seq<Step>, n: nat) returns (k: nat, owner: Owner, s: int)
    requires Run(ws, steps) && n < |ws| && ws[n].row.inProgress
    ensures LastStamp(ws, steps, k, n, owner, s)
    ensures ws[n].row == Control(true, Some(owner), Some(s + 120_000))
    decreases n
  {
    k := n - 1;
    RowAlwaysOk(ws, steps, k);
    assert ws[n] == Next(ws[k], steps[k]);
    RowMoves(ws[k], steps[k], "", 0);
    if o, t :| Stamps(ws[k], steps[k], o, t) {
      RowMoves(ws[k], steps[k], o, t);
      owner, s := o, t;
    } else {
      k, owner, s := StampOf(ws, steps, k);
    }
  }

  lemma {:induction false} StampStays(ws: seq<World>, steps: seq<Step>, k: nat, n: nat, owner: Owner, s: int)
    requires Run(ws, steps) && LastStamp(ws, steps, k, n, owner, s)
    ensures ws[n].row == Control(true, Some(owner), Some(s + 120_000))
    decreases n
  {
    RowAlwaysOk(ws, steps, n - 1);
    RowMoves(ws[n - 1], steps[n - 1], owner, s);
    assert ws[n] == Next(ws[n - 1], steps[n - 1]);
    if k < n - 1 { StampStays(ws, steps, k, n - 1, owner, s); }
  }

  /** Some acquisition or renewal wrote the row last, with a stamp less than 120000 ms before `now`. */
  ghost predicate InForce(ws: seq<World>, steps: seq<Step>, n: nat, now: int)
    requires Run(ws, steps)
  {
    exists k, owner, s :: LastStamp(ws, steps, k, n, owner, s) && now < s + 120_000
  }

  /**
   Nobody waits longer than needed: a turn is refused exactly while the row was
   last written by an acquisition or renewal stamped less than 120000 ms ago, and
   another switch exactly then or while a turn is active. A release, or a turn
   created after the lease ran out, ends it at once.
   */
  lemma RefusedIff(ws: seq<World>, steps: seq<Step>, n: nat, turn: TurnId, owner: Owner, now: int)
    requires Run(ws, steps) && n < |ws| && turn !in ws[n].active && owner !in ws[n].beats
    ensures turn !in CreateTurn(ws[n], turn, now, false).active <==> InForce(ws, steps, n, now)
    ensures owner !in Acquire(ws[n], owner, now).beats <==> InForce(ws, steps, n, now) || ws[n].active != {}
  {
    RowAlwaysOk(ws, steps, n);
    if LeaseActive(ws[n].row, now) {
      var k, o, s := StampOf(ws, steps, n);
    }
    if k, o, s :| LastStamp(ws, steps, k, n, o, s) && now < s + 120_000 {
      StampStays(ws, steps, k, n, o, s);
    }
  }

  // ---- In place ------------------------------------------------------------

  /** The row, the turns and the heartbeats as the transactions change them. */
  class RuntimeControl {
    var clock: int
    var row: Control
    var active: set<TurnId>
    var beats: map<Owner, Heartbeat>
    var late: map<Owner, int>

    constructor (clock: int)
      ensures Contents() == Initial(clock)
    {
      this.clock, row, active, beats, late := clock, FREE, {}, map[], map[];
    }

    function Contents(): World
      reads this
    {
      World(clock, row, active, beats, late)
    }

    /** `false` is the conflict; the caller's transaction then changes nothing. */
    method AssertProviderSwitchAllowsTurn(now: int) returns (ok: bool)
      modifies this`row
      ensures ok <==> !LeaseActive(old(row), now)
      ensures ok ==> AllowTurn(old(row), now) == Committed(row)
      ensures !ok ==> row == old(row)
    {
      if LeaseActive(row, now) { return false; }
      if row.inProgress {
        row := FREE;
      }
      ok := true;
    }

    method StartTurn(turn: TurnId, now: int, sessionBusy: bool)
      modifies this
      ensures Contents() == CreateTurn(old(Contents()), turn, now, sessionBusy)
    {
      var before := row;
      var ok := AssertProviderSwitchAllowsTurn(now);
      if !ok || sessionBusy {
        row := before;
        return;
      }
      active := active + {turn};
    }

    method AcquireLease(owner: Owner, now: int) returns (ok: bool)
      modifies this
      ensures Contents() == Acquire(old(Contents()), owner, now)
      ensures ok <==> old(active) == {} && !LeaseActive(old(row), now)
    {
      if LeaseActive(row, now) { return false; }
      if active != {} { return false; }
      row := Control(true, Some(owner), Some(now + PROVIDER_SWITCH_LEASE_MS));
      beats := beats[owner := Heartbeat(false, false, None)];
      ok := true;
    }

    method ReleaseLease(owner: Owner)
      modifies this
      ensures Contents() == Release(old(Contents()), owner)
    {
      if row.owner == Some(owner) { row := FREE; }
    }

    /** One renewal that runs undisturbed; the caller goes on only if the lease was not lost. */
    method Renew(owner: Owner) returns (held: bool)
      requires owner in beats && beats[owner].renewal == None
      modifies this
      ensures var b := old(beats[owner]);
        Contents() == if b.stopped || b.lost then old(Contents())
                      else CommitRenew(BeginRenew(old(Contents()), owner), owner)
      ensures held <==> owner in beats && !beats[owner].lost
    {
      var b := beats[owner];
      if b.stopped || b.lost { return !b.lost; }
      var renewed := row.inProgress && row.owner == Some(owner);
      if renewed { row := row.(expires := Some(clock + PROVIDER_SWITCH_LEASE_MS)); }
      beats := beats[owner := b.(renewal := None, lost := !renewed)];
      held := renewed;
    }
  }
}
