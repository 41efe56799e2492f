/** What the timeline shows besides tools and streamed text: which event each entry is of, and what it says. */
module TimelineEntries {
  import opened Prelude
  import opened Timeline
  import opened TimelineGuard

  // ---- The entries, told from the log --------------------------------------

  /** Neither a tool nor streamed text. */
  predicate IsKept(item: TimelineEvent) {
    item.kind != ToolKind && !(item.id.NumberedId? && (item.id.kind == AssistantKind || item.id.kind == ReasoningKind))
  }

  function Kept(events: seq<TimelineEvent>): seq<TimelineEvent> {
    if events == [] then []
    else Kept(events[..|events| - 1]) + if IsKept(events[|events| - 1]) then [events[|events| - 1]] else []
  }

  /** What makes two events tell of the same entry: the same message of the user, or of the assistant. */
  predicate SameSubject(a: Envelope, b: Envelope) {
    || (a.body.UserAccepted? && b.body.UserAccepted? && a.body.idText == b.body.idText)
    || (a.body.ItemMessage? && b.body.ItemMessage? && a.body.itemId == b.body.itemId)
  }

  predicate HasEntry(b: Body) {
    || b.UserAccepted? || b.ItemMessage? || b.TurnCompleted? || b.PlanUpdated? || b.DiffUpdated? || b.ApprovalRequested?
    || b.ApprovalResolved? || b.AutoReview? || b.OtherEvent?
  }

  /** The event opens an entry of its own, unless an earlier one opened it. */
  predicate Opens(log: seq<Envelope>, i: nat)
    requires i < |log|
  {
    && !log[i].ignored && HasEntry(log[i].body)
    && forall j :: 0 <= j < i && !log[j].ignored ==> !SameSubject(log[j], log[i])
  }

  function Openings(log: seq<Envelope>, n: nat): seq<nat>
    requires n <= |log|
  {
    if n == 0 then [] else Openings(log, n - 1) + if Opens(log, n - 1) then [n - 1] else []
  }

  /** Whether the last of the first `n` events about this message of the assistant completed it. */
  function Finished(log: seq<Envelope>, itemId: string, n: nat): bool
    requires n <= |log|
  {
    if n == 0 then false
    else if !log[n - 1].ignored && log[n - 1].body.ItemMessage? && log[n - 1].body.itemId == itemId
    then log[n - 1].body.completed
    else Finished(log, itemId, n - 1)
  }

  /** What an entry says that nothing changes any more. */
  predicate Says(item: TimelineEvent, e: Envelope) {
    && item.seqStart == e.seqNo && item.createdAt == e.createdAt && item.tool == None
    && match e.body
       case UserAccepted(idText, title, content) =>
         item.id == UserId(idText) && item.kind == EventKind && item.title == title
         && item.details == if content == "" then [] else [content]
       case ItemMessage(itemId, _) =>
         item.id == AssistantItem(itemId) && item.kind == AssistantKind && item.title == "Assistant Message" && item.details == []
       case TurnCompleted(_) =>
         item.id == TurnEnd(e.seqNo) && item.kind == EventKind && item.title == "Turn Completed" && item.details == []
       case PlanUpdated(plan) =>
         item.id == NumberedId(PlanKind, e.seqNo) && item.kind == PlanKind && item.title == "Plan Updated" && item.details == [plan]
       case DiffUpdated =>
         item.id == NumberedId(DiffKind, e.seqNo) && item.kind == DiffKind && item.title == "Diff Updated" && item.details == []
       case ApprovalRequested(title, reason) =>
         item.id == NumberedId(ApprovalKind, e.seqNo) && item.kind == ApprovalKind && item.title == title
         && item.details == if reason == "" then [] else [reason]
       case ApprovalResolved(decision) =>
         item.id == NumberedId(ApprovalKind, e.seqNo) && item.kind == ApprovalKind && item.title == "Approval Resolved"
         && item.details == [decision]
       case AutoReview(title, _, lines) =>
         item.id == AutoReviewId(e.seqNo) && item.kind == ApprovalKind && item.title == title && item.details == lines
       case OtherEvent(kindName) =>
         item.id == OtherId(kindName, e.seqNo) && item.kind == EventKind && item.title == kindName && item.details == []
       case _ => false
  }

  /** The status is that of the message's last event; other entries keep their status and their place. */
  predicate Stands(log: seq<Envelope>, n: nat, item: TimelineEvent, e: Envelope)
    requires n <= |log|
  {
    match e.body
    case ItemMessage(itemId, _) => item.status == if Finished(log, itemId, n) then CompletedStatus else RunningStatus
    case AutoReview(_, status, _) => item.status == status && item.seqEnd == e.seqNo
    case _ => item.status == NoStatus && item.seqEnd == e.seqNo
  }

  ghost predicate EntriesTell(log: seq<Envelope>, entries: seq<TimelineEvent>, n: nat)
    requires n <= |log|
  {
    && |entries| == |Openings(log, n)|
    && forall t :: 0 <= t < |entries| ==> Tells(log, entries[t], Openings(log, n)[t], n)
  }

  predicate Tells(log: seq<Envelope>, item: TimelineEvent, i: nat, n: nat)
    requires n <= |log|
  {
    i < n && Opens(log, i) && Says(item, log[i]) && Stands(log, n, item, log[i])
  }

  // ---- The list ------------------------------------------------------------

  predicate IsAssistantId(id: EventId) {
    id.AssistantItem? || (id.NumberedId? && id.kind == AssistantKind)
  }

  /** The ids of messages are only those of messages. */
  predicate IdOk(item: TimelineEvent) {
    && (item.id.UserId? ==> item.kind == EventKind)
    && (item.id.AssistantItem? ==> item.kind == AssistantKind)
    && (item.kind == AssistantKind ==> item.details == [] && IsAssistantId(item.id))
    && (item.kind == ReasoningKind ==> item.id.NumberedId? && item.id.kind == ReasoningKind)
  }

  ghost predicate IdsOk(events: seq<TimelineEvent>) {
    forall i :: 0 <= i < |events| ==> IdOk(events[i])
  }

  lemma KeptAppend(current: seq<TimelineEvent>, item: TimelineEvent)
    ensures Kept(current + [item]) == Kept(current) + if IsKept(item) then [item] else []
  {
    assert (current + [item])[..|current|] == current;
  }

  lemma {:induction false} KeptIs(events: seq<TimelineEvent>)
    ensures forall item :: item in Kept(events) <==> item in events && IsKept(item)
  {
    if events != [] {
      KeptIs(events[..|events| - 1]);
      assert events == events[..|events| - 1] + [events[|events| - 1]];
    }
  }

  /** Entry by entry the same, but for the messages of one item, and for what is not kept. */
  ghost predicate Alike(a: TimelineEvent, b: TimelineEvent) {
    IsKept(a) == IsKept(b) && (IsKept(a) ==> SameBut(a, b))
  }

  /** The same entry, perhaps ending later. */
  predicate SameBut(a: TimelineEvent, b: TimelineEvent) {
    b == a || (a.id.AssistantItem? && b == a.(seqEnd := b.seqEnd))
  }

  lemma {:induction false} KeptSame(a: seq<TimelineEvent>, b: seq<TimelineEvent>)
    requires |a| == |b| && forall i :: 0 <= i < |a| ==> Alike(a[i], b[i])
    ensures |Kept(a)| == |Kept(b)| && forall t :: 0 <= t < |Kept(a)| ==> SameBut(Kept(a)[t], Kept(b)[t])
  {
    if a != [] {
      assert Alike(a[|a| - 1], b[|b| - 1]);
      KeptSame(a[..|a| - 1], b[..|b| - 1]);
    }
  }

  /** What the step does to the entries: nothing but later ends. */
  ghost predicate Unmoved(a: seq<TimelineEvent>, b: seq<TimelineEvent>) {
    |a| == |b| && forall t :: 0 <= t < |a| ==> SameBut(a[t], b[t])
  }

  // ---- One event -----------------------------------------------------------

  lemma TextKeeps(current: seq<TimelineEvent>, e: Envelope)
    requires IdsOk(current)
    ensures var next := AppendOrMerge(current, AssistantKind, "Assistant Message", e);
      IdsOk(next) && Unmoved(Kept(current), Kept(next))
  {
    var n := |current|;
    var next := AppendOrMerge(current, AssistantKind, "Assistant Message", e);
    if n > 0 && current[n - 1].kind == AssistantKind {
      KeptSame(current, next);
    } else {
      KeptAppend(current, next[n]);
    }
  }

  lemma {:induction false} KeptUpdate(current: seq<TimelineEvent>, i: nat, item: TimelineEvent)
    requires i < |current| && !IsKept(current[i]) && !IsKept(item)
    ensures Kept(current[i := item]) == Kept(current)
  {
    var n := |current| - 1;
    if i < n {
      assert current[i := item][..n] == current[..n][i := item];
      KeptUpdate(current[..n], i, item);
    } else {
      assert current[i := item][..n] == current[..n];
    }
  }

  lemma ReasoningKeeps(current: seq<TimelineEvent>, e: Envelope, delta: string)
    requires IdsOk(current)
    ensures IdsOk(MergeReasoning(current, e, delta)) && Kept(MergeReasoning(current, e, delta)) == Kept(current)
  {
    var n := |current|;
    if delta != "" {
      if n > 0 && current[n - 1].kind == ReasoningKind {
        var last := current[n - 1];
        var item := last.(seqEnd := Max(last.seqEnd, e.seqNo), details := AppendOrMergeDetail(last.details, delta));
        UpdateKeeps(current, n - 1, item);
        assert current[..n - 1] + [item] == current[n - 1 := item];
      } else {
        AppendKeeps(current, Entry(NumberedId(ReasoningKind, e.seqNo), ReasoningKind, "Reasoning", e, [delta], NoStatus));
      }
    }
  }

  lemma UpdateKeeps(current: seq<TimelineEvent>, i: nat, item: TimelineEvent)
    requires IdsOk(current) && i < |current| && !IsKept(current[i]) && !IsKept(item) && IdOk(item)
    ensures IdsOk(current[i := item]) && Kept(current[i := item]) == Kept(current)
  {
    KeptUpdate(current, i, item);
  }

  lemma AppendKeeps(current: seq<TimelineEvent>, item: TimelineEvent)
    requires IdsOk(current) && !IsKept(item) && IdOk(item)
    ensures IdsOk(current + [item]) && Kept(current + [item]) == Kept(current)
  {
    KeptAppend(current, item);
  }

  lemma ToolKeeps(current: seq<TimelineEvent>, e: Envelope)
    requires IdsOk(current) && (e.body.ToolStarted? || e.body.ToolOutput? || e.body.ToolCompleted?)
    ensures IdsOk(MergeTimelineEvent(current, e)) && Kept(MergeTimelineEvent(current, e)) == Kept(current)
  {
    var next := MergeTimelineEvent(current, e);
    var i := FindTool(current, e.body.info);
    if |next| > |current| {
      assert next == current + [next[|current|]];
      AppendKeeps(current, next[|current|]);
    } else if next != current {
      assert next == current[i := next[i]];
      UpdateKeeps(current, i, next[i]);
    }
  }

  /** The entry that an event opens. */
  function Opened(e: Envelope): TimelineEvent {
    match e.body
    case UserAccepted(idText, title, content) => Entry(UserId(idText), EventKind, title, e, Lines(content), NoStatus)
    case ItemMessage(itemId, completed) =>
      Entry(AssistantItem(itemId), AssistantKind, "Assistant Message", e, [], if completed then CompletedStatus else RunningStatus)
    case TurnCompleted(_) => Entry(TurnEnd(e.seqNo), EventKind, "Turn Completed", e, [], NoStatus)
    case PlanUpdated(plan) => Entry(NumberedId(PlanKind, e.seqNo), PlanKind, "Plan Updated", e, [plan], NoStatus)
    case DiffUpdated => Entry(NumberedId(DiffKind, e.seqNo), DiffKind, "Diff Updated", e, [], NoStatus)
    case ApprovalRequested(title, reason) => Entry(NumberedId(ApprovalKind, e.seqNo), ApprovalKind, title, e, Lines(reason), NoStatus)
    case ApprovalResolved(decision) =>
      Entry(NumberedId(ApprovalKind, e.seqNo), ApprovalKind, "Approval Resolved", e, [decision], NoStatus)
    case AutoReview(title, status, lines) => Entry(AutoReviewId(e.seqNo), ApprovalKind, title, e, lines, status)
    case OtherEvent(kindName) => Entry(OtherId(kindName, e.seqNo), EventKind, kindName, e, [], NoStatus)
    case _ => Entry(TurnEnd(e.seqNo), EventKind, "", e, [], NoStatus)
  }

  /** The message is in the list already. */
  ghost predicate Known(current: seq<TimelineEvent>, e: Envelope) {
    match e.body
    case UserAccepted(idText, _, _) => HasId(current, UserId(idText))
    case ItemMessage(itemId, _) => HasId(current, AssistantItem(itemId))
    case _ => false
  }

  /** An entry after one more event about its message. */
  function Retold(item: TimelineEvent, e: Envelope): TimelineEvent {
    if item.id == Opened(e).id then item.(seqEnd := e.seqNo, status := Opened(e).status) else item
  }

  /** One event: it opens its entry, or tells more of a known message, or leaves the entries alone. */
  ghost predicate StepTells(kept: seq<TimelineEvent>, next: seq<TimelineEvent>, e: Envelope, known: bool) {
    if e.ignored || !HasEntry(e.body) || (known && e.body.UserAccepted?) then Unmoved(kept, next)
    else if known then
      |next| == |kept| && forall t :: 0 <= t < |kept| ==> next[t] == Retold(kept[t], e)
    else
      |next| == |kept| + 1 && Unmoved(kept, next[..|kept|]) && next[|kept|] == Opened(e)
  }

  lemma OpenedOk(e: Envelope)
    requires HasEntry(e.body)
    ensures IsKept(Opened(e)) && IdOk(Opened(e))
  {
  }

  lemma OpensOne(current: seq<TimelineEvent>, e: Envelope)
    requires IdsOk(current) && HasEntry(e.body)
    ensures IdsOk(current + [Opened(e)]) && Kept(current + [Opened(e)]) == Kept(current) + [Opened(e)]
  {
    OpenedOk(e);
    AppendKept(current, Opened(e));
  }

  lemma AppendKept(current: seq<TimelineEvent>, item: TimelineEvent)
    requires IdsOk(current) && IdOk(item) && IsKept(item)
    ensures IdsOk(current + [item]) && Kept(current + [item]) == Kept(current) + [item]
  {
    KeptAppend(current, item);
  }

  lemma {:induction false} ItemTells(current: seq<TimelineEvent>, next: seq<TimelineEvent>, e: Envelope)
    requires |next| == |current| && e.body.ItemMessage? && IdsOk(current)
    requires forall i :: 0 <= i < |current| ==> next[i] == Retold(current[i], e)
    ensures |Kept(next)| == |Kept(current)|
    ensures forall t :: 0 <= t < |Kept(current)| ==> Kept(next)[t] == Retold(Kept(current)[t], e)
  {
    if current != [] {
      var n := |current| - 1;
      assert IdOk(current[n]);
      ItemTells(current[..n], next[..n], e);
    }
  }

  lemma EndTells(current: seq<TimelineEvent>, e: Envelope)
    requires IdsOk(current) && !e.ignored && e.body.TurnCompleted?
    ensures var next := MergeTimelineEvent(current, e); IdsOk(next) && StepTells(Kept(current), Kept(next), e, false)
  {
    var before := if e.body.version2 then current else AppendOrMerge(current, AssistantKind, "Assistant Message", e);
    TextKeeps(current, e);
    OpensOne(before, e);
    assert MergeTimelineEvent(current, e) == before + [Opened(e)];
    assert (Kept(before) + [Opened(e)])[..|Kept(current)|] == Kept(before);
  }

  lemma MessageTells(current: seq<TimelineEvent>, e: Envelope)
    requires IdsOk(current) && !e.ignored && e.body.ItemMessage?
    ensures var next := MergeTimelineEvent(current, e); IdsOk(next) && StepTells(Kept(current), Kept(next), e, Known(current, e))
  {
    var next := MergeTimelineEvent(current, e);
    if Known(current, e) {
      ItemTells(current, next, e);
    } else {
      OpensOne(current, e);
      assert next == current + [Opened(e)];
      assert (Kept(current) + [Opened(e)])[..|Kept(current)|] == Kept(current);
    }
  }

  lemma PlainTells(current: seq<TimelineEvent>, e: Envelope)
    requires IdsOk(current) && !e.ignored && HasEntry(e.body) && !e.body.ItemMessage? && !e.body.TurnCompleted?
    ensures var next := MergeTimelineEvent(current, e); IdsOk(next) && StepTells(Kept(current), Kept(next), e, Known(current, e))
  {
    if !Known(current, e) {
      OpensOne(current, e);
      assert MergeTimelineEvent(current, e) == current + [Opened(e)];
      assert (Kept(current) + [Opened(e)])[..|Kept(current)|] == Kept(current);
    }
  }

  lemma OneStep(current: seq<TimelineEvent>, e: Envelope)
    requires IdsOk(current)
    ensures var next := MergeTimelineEvent(current, e); IdsOk(next) && StepTells(Kept(current), Kept(next), e, Known(current, e))
  {
    if !e.ignored {
      match e.body
      case ItemMessage(_, _) => MessageTells(current, e);
      case TurnCompleted(_) => EndTells(current, e);
      case ReasoningDelta(delta) => ReasoningKeeps(current, e, delta);
      case AssistantDelta(_) => TextKeeps(current, e);
      case ToolStarted(_) => ToolKeeps(current, e);
      case ToolOutput(_) => ToolKeeps(current, e);
      case ToolCompleted(_) => ToolKeeps(current, e);
      case InputUpdated =>
      case TurnWrapper =>
      case _ => PlainTells(current, e);
    }
  }

  // ---- The whole log -------------------------------------------------------

  lemma {:induction false} OpeningsOk(log: seq<Envelope>, n: nat)
    requires n <= |log|
    ensures forall i: nat :: i in Openings(log, n) <==> i < n && Opens(log, i)
  {
    if n > 0 { OpeningsOk(log, n - 1); }
  }

  /** The code's test on the entries is the one on the events. */
  lemma KnownIff(log: seq<Envelope>, current: seq<TimelineEvent>, n: nat)
    requires n < |log| && IdsOk(current) && EntriesTell(log, Kept(current), n) && !log[n].ignored && HasEntry(log[n].body)
    ensures Opens(log, n) <==> !Known(current, log[n])
  {
    if Known(current, log[n]) { KnownIsOpen(log, current, n); }
    if !Opens(log, n) { OpenIsKnown(log, current, n); }
  }

  lemma KnownIsOpen(log: seq<Envelope>, current: seq<TimelineEvent>, n: nat)
    requires n < |log| && IdsOk(current) && EntriesTell(log, Kept(current), n) && Known(current, log[n])
    ensures !Opens(log, n)
  {
    var e := log[n];
    KeptIs(current);
    var i :| 0 <= i < |current| && current[i].id == Opened(e).id;
    assert e.body.UserAccepted? || e.body.ItemMessage?;
    assert Opened(e).id.UserId? || Opened(e).id.AssistantItem?;
    assert IdOk(current[i]) && IsKept(current[i]) && current[i] in current;
    var t :| 0 <= t < |Kept(current)| && Kept(current)[t] == current[i];
    assert Tells(log, Kept(current)[t], Openings(log, n)[t], n);
    SameId(current[i], log[Openings(log, n)[t]], e);
  }

  lemma SameId(item: TimelineEvent, b: Envelope, e: Envelope)
    requires Says(item, b) && item.id == Opened(e).id && (e.body.UserAccepted? || e.body.ItemMessage?)
    ensures SameSubject(b, e)
  {
    match b.body
    case UserAccepted(_, _, _) =>
    case ItemMessage(_, _) =>
    case _ =>
  }

  lemma OpenIsKnown(log: seq<Envelope>, current: seq<TimelineEvent>, n: nat)
    requires n < |log| && EntriesTell(log, Kept(current), n) && !log[n].ignored && HasEntry(log[n].body) && !Opens(log, n)
    ensures Known(current, log[n])
  {
    var j := FirstOf(log, n);
    OpeningsOk(log, n);
    assert j in Openings(log, n);
    var t :| 0 <= t < |Openings(log, n)| && Openings(log, n)[t] == j;
    assert Tells(log, Kept(current)[t], j, n);
    KeptIs(current);
    assert Kept(current)[t] in current;
  }

  lemma {:induction false} FirstOf(log: seq<Envelope>, n: nat) returns (j: nat)
    requires n < |log| && exists j :: 0 <= j < n && !log[j].ignored && SameSubject(log[j], log[n])
    ensures j < n && SameSubject(log[j], log[n]) && Opens(log, j)
  {
    j :| 0 <= j < n && !log[j].ignored && SameSubject(log[j], log[n]);
    if !Opens(log, j) { j := FirstOf(log, j); }
  }

  lemma NextTells(log: seq<Envelope>, entries: seq<TimelineEvent>, next: seq<TimelineEvent>, n: nat, known: bool)
    requires n < |log| && EntriesTell(log, entries, n) && StepTells(entries, next, log[n], known)
    requires !log[n].ignored && HasEntry(log[n].body) ==> (Opens(log, n) <==> !known)
    ensures EntriesTell(log, next, n + 1)
  {
    var starts := Openings(log, n);
    forall t | 0 <= t < |entries| ensures t < |next| && Tells(log, next[t], starts[t], n + 1) {
      assert Tells(log, entries[t], starts[t], n);
      EntryMoves(log, entries, next, n, known, t);
    }
    if Opens(log, n) { assert Tells(log, next[|entries|], n, n + 1); }
  }

  lemma EntryMoves(log: seq<Envelope>, entries: seq<TimelineEvent>, next: seq<TimelineEvent>, n: nat, known: bool, t: nat)
    requires n < |log| && StepTells(entries, next, log[n], known) && t < |entries|
    requires t < |Openings(log, n)| && Tells(log, entries[t], Openings(log, n)[t], n)
    requires !log[n].ignored && HasEntry(log[n].body) ==> (Opens(log, n) <==> !known)
    ensures t < |next| && Tells(log, next[t], Openings(log, n)[t], n + 1)
  {
    var i := Openings(log, n)[t];
    assert next[t] == if |next| > |entries| then next[..|entries|][t] else next[t];
  }

  lemma {:induction false} EntriesFrom(log: seq<Envelope>, n: nat)
    requires n <= |log|
    ensures IdsOk(Fold([], log[..n])) && EntriesTell(log, Kept(Fold([], log[..n])), n)
    decreases n
  {
    if n > 0 {
      var current := Fold([], log[..n - 1]);
      EntriesFrom(log, n - 1);
      FoldNext(log, n - 1);
      OneStep(current, log[n - 1]);
      if !log[n - 1].ignored && HasEntry(log[n - 1].body) { KnownIff(log, current, n - 1); }
      NextTells(log, Kept(current), Kept(Fold([], log[..n])), n - 1, Known(current, log[n - 1]));
    }
  }

  /**
   Apart from tools and streamed text, the timeline has exactly one entry for every
   event that opens one, in their order: messages once however often they are
   told, and each entry says for good what its event said. A message of the
   assistant stands as its last event left it.
   */
  lemma EntriesAreTold(log: seq<Envelope>)
    ensures EntriesTell(log, Kept(Fold([], log)), |log|)
  {
    assert log[..|log|] == log;
    EntriesFrom(log, |log|);
  }
}
