/**
 The browser's list of inputs that wait to be accepted. Acknowledgements and
 events about an input may come in any order and more than once.
 */
module QueuedInputs {
  import opened Prelude
  import opened HistoryClient

  datatype Status = Queued | Accepted | Failed | Unconfirmed

  datatype QueuedInput = QueuedInput(
    id: string, turnId: string, clientRequestId: string, content: string, status: Status, createdAt: string,
    errorMessage: Option<string>)

  /** What arrives; `errorMessage` is `None` where the field is absent, so that the earlier one stays. */
  datatype Update = Update(
    id: string, turnId: string, clientRequestId: string, content: string, status: Status, createdAt: string,
    errorMessage: Option<Option<string>>)

  type Key = (string, string)

  function KeyOf(input: QueuedInput): Key {
    (input.turnId, input.clientRequestId)
  }

  function UpdateKey(u: Update): Key {
    (u.turnId, u.clientRequestId)
  }

  /** The first entry of this key. */
  function Find(list: seq<QueuedInput>, key: Key): (found: Option<QueuedInput>)
    ensures found.Some? ==> found.value in list && KeyOf(found.value) == key
    ensures found.None? ==> forall input :: input in list ==> KeyOf(input) != key
  {
    if list == [] then None
    else if KeyOf(list[0]) == key then Some(list[0])
    else Find(list[1..], key)
  }

  function Remove(list: seq<QueuedInput>, key: Key): seq<QueuedInput> {
    if list == [] then []
    else (if KeyOf(list[0]) == key then [] else [list[0]]) + Remove(list[1..], key)
  }

  predicate Earlier(a: QueuedInput, b: QueuedInput) {
    TextLess(a.createdAt, b.createdAt) || (a.createdAt == b.createdAt && TextLess(a.id, b.id))
  }

  function InsertInput(list: seq<QueuedInput>, input: QueuedInput): seq<QueuedInput> {
    if list != [] && Earlier(input, list[|list| - 1]) then InsertInput(list[..|list| - 1], input) + [list[|list| - 1]]
    else list + [input]
  }

  /** Stable sort by creation time and id. */
  function SortInputs(list: seq<QueuedInput>): seq<QueuedInput> {
    if list == [] then [] else InsertInput(SortInputs(list[..|list| - 1]), list[|list| - 1])
  }

  function Merged(previous: Option<QueuedInput>, u: Update): QueuedInput {
    QueuedInput(u.id, u.turnId, u.clientRequestId, u.content, u.status, u.createdAt,
      if u.errorMessage.Some? then u.errorMessage.value
      else if previous.Some? then previous.value.errorMessage else None)
  }

  function MergeQueuedInput(current: seq<QueuedInput>, u: Update): seq<QueuedInput> {
    var previous := Find(current, UpdateKey(u));
    if previous.Some? && (previous.value.status == Accepted || (previous.value.status != Queued && u.status == Queued))
    then current
    else SortInputs(Remove(current, UpdateKey(u)) + [Merged(previous, u)])
  }

  const TURN_ENDED := "Turn ended before input acceptance was confirmed."

  function ExpireQueued(current: seq<QueuedInput>, turnId: string): seq<QueuedInput> {
    seq(|current|, i requires 0 <= i < |current| =>
      if current[i].turnId == turnId && current[i].status == Queued
      then current[i].(status := Unconfirmed, errorMessage := Some(TURN_ENDED))
      else current[i])
  }

  datatype InputEvent =
    | TurnEnded(turnId: string)
    | InputUpdated(input: Option<Update>)
    | MessageAccepted(turnId: string, clientRequestId: Option<string>, content: string, createdAt: string)
    | OtherEvent

  /** The acceptance of a message names the input only by its request id. */
  function AcceptedUpdate(e: InputEvent): Update
    requires e.MessageAccepted? && e.clientRequestId.Some?
  {
    Update(e.clientRequestId.value, e.turnId, e.clientRequestId.value, e.content, Accepted, e.createdAt, None)
  }

  function ApplyInputEvent(current: seq<QueuedInput>, e: InputEvent): seq<QueuedInput> {
    match e
    case TurnEnded(turnId) => ExpireQueued(current, turnId)
    case InputUpdated(input) => if input.Some? then MergeQueuedInput(current, input.value) else current
    case MessageAccepted(_, clientRequestId, _, _) =>
      if clientRequestId.Some? then MergeQueuedInput(current, AcceptedUpdate(e)) else current
    case OtherEvent => current
  }

  // ---- The list ------------------------------------------------------------

  /** One entry per input. */
  ghost predicate UniqueKeys(list: seq<QueuedInput>) {
    forall i, j :: 0 <= i < j < |list| ==> KeyOf(list[i]) != KeyOf(list[j])
  }

  /** Both lists have the same entries, each once. */
  ghost predicate SameEntries(a: seq<QueuedInput>, b: seq<QueuedInput>) {
    multiset(a) == multiset(b)
  }

  lemma {:induction false} InsertSame(list: seq<QueuedInput>, input: QueuedInput)
    ensures SameEntries(InsertInput(list, input), list + [input])
  {
    if list != [] && Earlier(input, list[|list| - 1]) {
      InsertSame(list[..|list| - 1], input);
      assert list == list[..|list| - 1] + [list[|list| - 1]];
    }
  }

  lemma {:induction false} SortSame(list: seq<QueuedInput>)
    ensures SameEntries(SortInputs(list), list)
  {
    if list != [] {
      SortSame(list[..|list| - 1]);
      InsertSame(SortInputs(list[..|list| - 1]), list[|list| - 1]);
      assert list == list[..|list| - 1] + [list[|list| - 1]];
    }
  }

  /** How often a key occurs. */
  function CountKey(list: seq<QueuedInput>, key: Key): nat {
    if list == [] then 0 else CountKey(list[..|list| - 1], key) + if KeyOf(list[|list| - 1]) == key then 1 else 0
  }

  lemma {:induction false} CountInsert(list: seq<QueuedInput>, input: QueuedInput, key: Key)
    ensures CountKey(InsertInput(list, input), key) == CountKey(list, key) + if KeyOf(input) == key then 1 else 0
  {
    if list != [] && Earlier(input, list[|list| - 1]) {
      CountInsert(list[..|list| - 1], input, key);
    }
  }

  lemma {:induction false} CountSort(list: seq<QueuedInput>, key: Key)
    ensures CountKey(SortInputs(list), key) == CountKey(list, key)
  {
    if list != [] {
      CountSort(list[..|list| - 1], key);
      CountInsert(SortInputs(list[..|list| - 1]), list[|list| - 1], key);
    }
  }

  lemma {:induction false} CountIsOne(list: seq<QueuedInput>, key: Key)
    requires UniqueKeys(list)
    ensures CountKey(list, key) == if Find(list, key).Some? then 1 else 0
  {
    if list != [] {
      var front, last := list[..|list| - 1], list[|list| - 1];
      CountIsOne(front, key);
      assert list == front + [last];
      if KeyOf(last) == key {
        forall i | 0 <= i < |front| ensures KeyOf(front[i]) != key { assert KeyOf(list[i]) != KeyOf(list[|list| - 1]); }
      }
    }
  }

  lemma {:induction false} UniqueIffCount(list: seq<QueuedInput>)
    requires forall key :: CountKey(list, key) <= 1
    ensures UniqueKeys(list)
  {
    if list != [] {
      var front, last := list[..|list| - 1], list[|list| - 1];
      forall key ensures CountKey(front, key) <= 1 { assert CountKey(list, key) <= 1; }
      UniqueIffCount(front);
      forall i | 0 <= i < |front| ensures KeyOf(list[i]) != KeyOf(last) {
        assert CountKey(list, KeyOf(last)) <= 1;
        Occurs(front, i);
      }
    }
  }

  lemma {:induction false} Occurs(list: seq<QueuedInput>, i: nat)
    requires i < |list|
    ensures CountKey(list, KeyOf(list[i])) >= 1
    decreases |list|
  {
    if i < |list| - 1 { Occurs(list[..|list| - 1], i); }
  }

  lemma {:induction false} RemoveIs(list: seq<QueuedInput>, key: Key)
    ensures forall input :: input in Remove(list, key) <==> input in list && KeyOf(input) != key
    ensures UniqueKeys(list) ==> UniqueKeys(Remove(list, key))
  {
    if list != [] {
      RemoveIs(list[1..], key);
      assert list == [list[0]] + list[1..];
      var rest := Remove(list[1..], key);
      if UniqueKeys(list) && KeyOf(list[0]) != key {
        forall j | 0 <= j < |rest| ensures KeyOf(rest[j]) != KeyOf(list[0]) {
          assert rest[j] in list[1..];
          var k :| 0 <= k < |list[1..]| && list[1..][k] == rest[j];
          assert KeyOf(list[0]) != KeyOf(list[k + 1]);
        }
        assert UniqueKeys(list[1..]);
      }
    }
  }

  lemma SortUnique(list: seq<QueuedInput>)
    requires UniqueKeys(list)
    ensures UniqueKeys(SortInputs(list))
  {
    forall key ensures CountKey(SortInputs(list), key) <= 1 {
      CountSort(list, key);
      CountIsOne(list, key);
    }
    UniqueIffCount(SortInputs(list));
  }

  lemma {:induction false} FindUnique(list: seq<QueuedInput>, input: QueuedInput)
    requires UniqueKeys(list) && input in list
    ensures Find(list, KeyOf(input)) == Some(input)
  {
    var i :| 0 <= i < |list| && list[i] == input;
    var found := Find(list, KeyOf(input)).value;
    var j :| 0 <= j < |list| && list[j] == found;
    assert i == j;
  }

  // ---- Progress ------------------------------------------------------------

  /** How far an input has come: -1 unknown, 0 queued, 1 settled otherwise, 2 accepted. */
  function Rank(s: Status): int {
    match s
    case Queued => 0
    case Failed => 1
    case Unconfirmed => 1
    case Accepted => 2
  }

  function RankIn(list: seq<QueuedInput>, key: Key): int {
    var found := Find(list, key);
    if found.Some? then Rank(found.value.status) else -1
  }

  /** The sorted list without the key, and the merged entry. */
  lemma Rebuilt(current: seq<QueuedInput>, merged: QueuedInput)
    requires UniqueKeys(current)
    ensures var next := SortInputs(Remove(current, KeyOf(merged)) + [merged]);
      && UniqueKeys(next)
      && forall input :: input in next <==> input == merged || (input in current && KeyOf(input) != KeyOf(merged))
  {
    var rest := Remove(current, KeyOf(merged));
    var list := rest + [merged];
    RemoveIs(current, KeyOf(merged));
    forall i, j | 0 <= i < j < |list| ensures KeyOf(list[i]) != KeyOf(list[j]) {
      if j == |list| - 1 { assert list[i] in rest; }
    }
    SortUnique(list);
    SortSame(list);
    forall input ensures input in SortInputs(list) <==> input in list {
      assert input in list <==> input in multiset(list);
      assert input in SortInputs(list) <==> input in multiset(SortInputs(list));
    }
    assert forall input :: input in list <==> input in rest || input == merged;
  }

  /** Lists with the same entries of a key find the same one. */
  lemma FindSame(a: seq<QueuedInput>, b: seq<QueuedInput>, key: Key)
    requires UniqueKeys(a) && UniqueKeys(b)
    requires forall input :: KeyOf(input) == key ==> (input in a <==> input in b)
    ensures Find(a, key) == Find(b, key)
  {
    var x, y := Find(a, key), Find(b, key);
    if x.Some? { FindUnique(b, x.value); }
    if y.Some? { FindUnique(a, y.value); }
  }

  /** The entry as an update tells it; an error stays if the update is silent about it. */
  function Heard(before: Option<QueuedInput>, u: Update): QueuedInput {
    var silent := if before.Some? then before.value.errorMessage else None;
    QueuedInput(u.id, u.turnId, u.clientRequestId, u.content, u.status, u.createdAt,
                if u.errorMessage.Some? then u.errorMessage.value else silent)
  }

  lemma MergeEntries(current: seq<QueuedInput>, u: Update)
    requires UniqueKeys(current)
    ensures UniqueKeys(MergeQueuedInput(current, u))
    ensures RankIn(MergeQueuedInput(current, u), UpdateKey(u)) == Max(RankIn(current, UpdateKey(u)), Rank(u.status))
    ensures forall key :: key != UpdateKey(u) ==> Find(MergeQueuedInput(current, u), key) == Find(current, key)
    ensures Find(MergeQueuedInput(current, u), UpdateKey(u)) ==
      if RankIn(current, UpdateKey(u)) == 2 || (RankIn(current, UpdateKey(u)) == 1 && u.status == Queued)
      then Find(current, UpdateKey(u))
      else Some(Heard(Find(current, UpdateKey(u)), u))
  {
    var previous := Find(current, UpdateKey(u));
    if previous.None? || (previous.value.status != Accepted && (previous.value.status == Queued || u.status != Queued)) {
      var merged := Merged(previous, u);
      var next := MergeQueuedInput(current, u);
      Rebuilt(current, merged);
      assert merged in next;
      FindUnique(next, merged);
      forall key | key != UpdateKey(u) ensures Find(next, key) == Find(current, key) {
        FindSame(next, current, key);
      }
    }
  }

  /** The entry of a queued input whose turn ended. */
  function Ended(input: QueuedInput): QueuedInput {
    input.(status := Unconfirmed, errorMessage := Some("Turn ended before input acceptance was confirmed."))
  }

  lemma ExpireEntries(current: seq<QueuedInput>, turnId: string, key: Key)
    requires UniqueKeys(current)
    ensures UniqueKeys(ExpireQueued(current, turnId))
    ensures RankIn(ExpireQueued(current, turnId), key) ==
      if key.0 == turnId && RankIn(current, key) == 0 then 1 else RankIn(current, key)
    ensures Find(ExpireQueued(current, turnId), key) ==
      if key.0 == turnId && RankIn(current, key) == 0 then Some(Ended(Find(current, key).value)) else Find(current, key)
  {
    var next := ExpireQueued(current, turnId);
    forall i | 0 <= i < |current| ensures KeyOf(next[i]) == KeyOf(current[i]) { }
    var found := Find(current, key);
    if found.Some? {
      var i :| 0 <= i < |current| && current[i] == found.value;
      assert next[i] in next;
      FindUnique(next, next[i]);
    } else {
      forall input | input in next ensures KeyOf(input) != key {
        var i :| 0 <= i < |next| && next[i] == input;
        assert current[i] in current;
      }
    }
  }

  /** What one event says about an input. */
  function Says(e: InputEvent, key: Key): int {
    match e
    case InputUpdated(Some(u)) => if UpdateKey(u) == key then Rank(u.status) else -1
    case MessageAccepted(turnId, Some(request), _, _) => if (turnId, request) == key then 2 else -1
    case _ => -1
  }

  function ApplyAll(current: seq<QueuedInput>, events: seq<InputEvent>): seq<QueuedInput>
    decreases |events|
  {
    if events == [] then current else ApplyInputEvent(ApplyAll(current, events[..|events| - 1]), events[|events| - 1])
  }

  lemma OneEvent(current: seq<QueuedInput>, e: InputEvent, key: Key)
    requires UniqueKeys(current)
    ensures UniqueKeys(ApplyInputEvent(current, e))
    ensures RankIn(ApplyInputEvent(current, e), key) ==
      if e.TurnEnded? && e.turnId == key.0 && RankIn(current, key) == 0 then 1 else Max(RankIn(current, key), Says(e, key))
  {
    match e
    case TurnEnded(turnId) => ExpireEntries(current, turnId, key);
    case InputUpdated(input) => if input.Some? { MergeEntries(current, input.value); }
    case MessageAccepted(_, request, _, _) => if request.Some? { MergeEntries(current, AcceptedUpdate(e)); }
    case OtherEvent =>
  }

  ghost predicate SaysAtLeast(events: seq<InputEvent>, key: Key, rank: int) {
    exists i :: 0 <= i < |events| && Says(events[i], key) >= rank
  }

  /** Its turn ended when something had been said about the input. */
  ghost predicate EndedAfterSaid(events: seq<InputEvent>, key: Key) {
    exists j :: 0 <= j < |events| && events[j] == TurnEnded(key.0) && SaysAtLeast(events[..j], key, 0)
  }

  lemma MoreEnded(front: seq<InputEvent>, last: InputEvent, key: Key)
    ensures EndedAfterSaid(front + [last], key) <==>
      EndedAfterSaid(front, key) || (last == TurnEnded(key.0) && SaysAtLeast(front, key, 0))
  {
    var events := front + [last];
    assert events[..|front|] == front;
    if j :| 0 <= j < |front| && front[j] == TurnEnded(key.0) && SaysAtLeast(front[..j], key, 0) {
      assert events[j] == front[j] && events[..j] == front[..j];
    }
    if j :| 0 <= j < |events| && events[j] == TurnEnded(key.0) && SaysAtLeast(events[..j], key, 0) {
      assert j < |front| ==> events[j] == front[j] && events[..j] == front[..j];
    }
  }

  /**
   Whatever the order of acknowledgements and events, and however often each
   comes: an input shows as accepted exactly if something said so, it is in the
   list exactly if anything was said about it, it is settled exactly if something
   said so or its turn ended after it was first heard of, no input is there
   twice, and no standing is ever lost again.
   */
  lemma {:induction false} InputsConverge(events: seq<InputEvent>, key: Key)
    ensures UniqueKeys(ApplyAll([], events))
    ensures RankIn(ApplyAll([], events), key) == 2 <==> SaysAtLeast(events, key, 2)
    ensures RankIn(ApplyAll([], events), key) >= 0 <==> SaysAtLeast(events, key, 0)
    ensures RankIn(ApplyAll([], events), key) >= 1 <==> SaysAtLeast(events, key, 1) || EndedAfterSaid(events, key)
    ensures forall k :: 0 <= k <= |events| ==> RankIn(ApplyAll([], events[..k]), key) <= RankIn(ApplyAll([], events), key)
    decreases |events|
  {
    if events != [] {
      var front, last := events[..|events| - 1], events[|events| - 1];
      InputsConverge(front, key);
      OneEvent(ApplyAll([], front), last, key);
      MoreEnded(front, last, key);
      assert events == front + [last];
      forall k | 0 <= k <= |events| ensures RankIn(ApplyAll([], events[..k]), key) <= RankIn(ApplyAll([], events), key) {
        if k < |events| { assert events[..k] == front[..k]; } else { assert events[..k] == events; }
      }
      assert forall rank :: SaysAtLeast(events, key, rank) <==> SaysAtLeast(front, key, rank) || Says(last, key) >= rank by {
        assert events == front + [last];
        forall rank ensures SaysAtLeast(events, key, rank) <==> SaysAtLeast(front, key, rank) || Says(last, key) >= rank {
          MoreSaid(front, last, key, rank);
        }
      }
    }
  }

  lemma MoreSaid(front: seq<InputEvent>, last: InputEvent, key: Key, rank: int)
    ensures SaysAtLeast(front + [last], key, rank) <==> SaysAtLeast(front, key, rank) || Says(last, key) >= rank
  {
    var events := front + [last];
    if SaysAtLeast(front, key, rank) {
      var i :| 0 <= i < |front| && Says(front[i], key) >= rank;
      assert events[i] == front[i];
    }
    assert events[|front|] == last;
  }

  // ---- What an entry says --------------------------------------------------

  /** What an event tells about its input. */
  function Told(e: InputEvent, key: Key): Option<Update> {
    match e
    case InputUpdated(Some(u)) => if UpdateKey(u) == key then Some(u) else None
    case MessageAccepted(turnId, Some(request), content, at) =>
      if (turnId, request) == key then Some(Update(request, turnId, request, content, Accepted, at, None)) else None
    case _ => None
  }

  /** Nothing is heard about an accepted input, and of a settled one not that it is queued. */
  ghost predicate Listens(front: seq<InputEvent>, key: Key, status: Status) {
    && !SaysAtLeast(front, key, 2)
    && (status == Queued ==> !SaysAtLeast(front, key, 1) && !EndedAfterSaid(front, key))
  }

  /** It was heard of, and nothing settled it. */
  ghost predicate Waits(front: seq<InputEvent>, key: Key) {
    SaysAtLeast(front, key, 0) && !SaysAtLeast(front, key, 1) && !EndedAfterSaid(front, key)
  }

  /** The entry of an input, told from what was said about it. */
  ghost function Story(events: seq<InputEvent>, key: Key): Option<QueuedInput> {
    if events == [] then None
    else
      var front, last := events[..|events| - 1], events[|events| - 1];
      var before, told := Story(front, key), Told(last, key);
      if told.Some? && Listens(front, key, told.value.status) then Some(Heard(before, told.value))
      else if last == TurnEnded(key.0) && before.Some? && Waits(front, key) then Some(Ended(before.value))
      else before
  }

  /** The list knows of the input what was said. */
  ghost predicate Knows(current: seq<QueuedInput>, front: seq<InputEvent>, key: Key) {
    && UniqueKeys(current) && Find(current, key) == Story(front, key)
    && (RankIn(current, key) == 2 <==> SaysAtLeast(front, key, 2))
    && (RankIn(current, key) >= 0 <==> SaysAtLeast(front, key, 0))
    && (RankIn(current, key) >= 1 <==> SaysAtLeast(front, key, 1) || EndedAfterSaid(front, key))
  }

  lemma UpdateMoves(current: seq<QueuedInput>, front: seq<InputEvent>, key: Key, u: Update)
    requires Knows(current, front, key)
    ensures Find(MergeQueuedInput(current, u), key) ==
      if UpdateKey(u) == key && Listens(front, key, u.status) then Some(Heard(Story(front, key), u)) else Story(front, key)
  {
    MergeEntries(current, u);
  }

  lemma EndMoves(current: seq<QueuedInput>, front: seq<InputEvent>, key: Key, turnId: string)
    requires Knows(current, front, key)
    ensures Find(ExpireQueued(current, turnId), key) ==
      if turnId == key.0 && Waits(front, key) then Some(Ended(Story(front, key).value)) else Story(front, key)
    ensures Waits(front, key) ==> Story(front, key).Some?
  {
    ExpireEntries(current, turnId, key);
  }

  lemma StoryNext(front: seq<InputEvent>, last: InputEvent, key: Key)
    ensures var before, told := Story(front, key), Told(last, key);
      Story(front + [last], key) ==
        if told.Some? && Listens(front, key, told.value.status) then Some(Heard(before, told.value))
        else if last == TurnEnded(key.0) && before.Some? && Waits(front, key) then Some(Ended(before.value))
        else before
  {
    assert (front + [last])[..|front|] == front;
  }

  lemma StoryMoves(current: seq<QueuedInput>, front: seq<InputEvent>, last: InputEvent, key: Key)
    requires Knows(current, front, key)
    ensures Find(ApplyInputEvent(current, last), key) == Story(front + [last], key)
  {
    StoryNext(front, last, key);
    match last
    case TurnEnded(turnId) => EndMoves(current, front, key, turnId);
    case InputUpdated(input) => if input.Some? { UpdateMoves(current, front, key, input.value); }
    case MessageAccepted(_, request, _, _) => if request.Some? { UpdateMoves(current, front, key, AcceptedUpdate(last)); }
    case OtherEvent =>
  }

  /** An entry says what was said last of what could still be heard, whatever else the list holds. */
  lemma {:induction false} InputsAreTold(events: seq<InputEvent>, key: Key)
    ensures Find(ApplyAll([], events), key) == Story(events, key)
    decreases |events|
  {
    if events != [] {
      var front, last := events[..|events| - 1], events[|events| - 1];
      InputsAreTold(front, key);
      InputsConverge(front, key);
      StoryMoves(ApplyAll([], front), front, last, key);
      assert front + [last] == events;
    }
  }
}
