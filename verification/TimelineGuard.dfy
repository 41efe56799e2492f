/** Why the guard on the largest end is sound: what an event leaves behind, and what stays. */
module TimelineGuard {
  import opened Prelude
  import opened Timeline

  /** Every entry stays in its place, with its id. */
  ghost predicate IdsStay(current: seq<TimelineEvent>, next: seq<TimelineEvent>) {
    |current| <= |next| && forall i :: 0 <= i < |current| ==> next[i].id == current[i].id
  }

  /** What merging an event with number `n` gives: nothing ends later, and unless it is a no-op something ends there. */
  ghost predicate MergedAt(current: seq<TimelineEvent>, next: seq<TimelineEvent>, n: int) {
    IdsStay(current, next) && EndsBy(next, n) && EndsWith(next, n)
  }

  lemma AppendMerges(current: seq<TimelineEvent>, item: TimelineEvent, n: int)
    requires EndsBy(current, n) && item.seqEnd == n
    ensures MergedAt(current, current + [item], n)
  {
    AppendEnds(current, item, n);
  }

  lemma UpdateMerges(current: seq<TimelineEvent>, i: nat, item: TimelineEvent, n: int)
    requires EndsBy(current, n) && i < |current| && item.seqEnd == n && item.id == current[i].id
    ensures MergedAt(current, current[i := item], n)
  {
    UpdateEnds(current, i, item, n);
  }

  lemma GrowMerges(current: seq<TimelineEvent>, kind: Kind, title: string, e: Envelope)
    requires EndsBy(current, e.seqNo)
    ensures MergedAt(current, AppendOrMerge(current, kind, title, e), e.seqNo)
  {
    var n := |current|;
    if n > 0 && current[n - 1].kind == kind {
      var item := current[n - 1].(seqEnd := Max(current[n - 1].seqEnd, e.seqNo), details := []);
      assert current[..n - 1] + [item] == current[n - 1 := item];
      UpdateMerges(current, n - 1, item, e.seqNo);
    } else {
      AppendMerges(current, Entry(NumberedId(kind, e.seqNo), kind, title, e, [], NoStatus), e.seqNo);
    }
  }

  lemma ItemMerges(current: seq<TimelineEvent>, e: Envelope, id: EventId, status: Progress)
    requires EndsBy(current, e.seqNo)
    ensures MergedAt(current, MergeItem(current, e, id, status), e.seqNo)
  {
    if HasId(current, id) {
      var i :| 0 <= i < |current| && current[i].id == id;
      assert MergeItem(current, e, id, status)[i].seqEnd == e.seqNo;
    } else {
      AppendMerges(current, Entry(id, AssistantKind, "Assistant Message", e, [], status), e.seqNo);
    }
  }

  lemma ReasoningMerges(current: seq<TimelineEvent>, e: Envelope, delta: string)
    requires EndsBy(current, e.seqNo) && delta != ""
    ensures MergedAt(current, MergeReasoning(current, e, delta), e.seqNo)
  {
    var n := |current|;
    if n > 0 && current[n - 1].kind == ReasoningKind {
      var last := current[n - 1];
      var item := last.(seqEnd := Max(last.seqEnd, e.seqNo), details := AppendOrMergeDetail(last.details, delta));
      assert current[..n - 1] + [item] == current[n - 1 := item];
      UpdateMerges(current, n - 1, item, e.seqNo);
    } else {
      AppendMerges(current, Entry(NumberedId(ReasoningKind, e.seqNo), ReasoningKind, "Reasoning", e, [delta], NoStatus), e.seqNo);
    }
  }

  lemma ToolOutputMerges(current: seq<TimelineEvent>, e: Envelope, info: ToolInfo)
    requires EndsBy(current, e.seqNo) && (info.outputAvailable || info.output != "")
    ensures MergedAt(current, MergeToolOutput(current, e, info), e.seqNo)
  {
    var i := FindTool(current, info);
    var next := MergeToolOutput(current, e, info);
    if i >= 0 {
      UpdateMerges(current, i, next[i], e.seqNo);
    } else {
      AppendMerges(current, next[|current|], e.seqNo);
    }
  }

  lemma ToolCompletedMerges(current: seq<TimelineEvent>, e: Envelope, info: ToolInfo)
    requires EndsBy(current, e.seqNo)
    ensures MergedAt(current, MergeToolCompleted(current, e, info), e.seqNo)
  {
    var i := FindTool(current, info);
    var next := MergeToolCompleted(current, e, info);
    if i >= 0 {
      UpdateMerges(current, i, next[i], e.seqNo);
    } else {
      AppendMerges(current, next[|current|], e.seqNo);
    }
  }

  lemma TurnEndMerges(current: seq<TimelineEvent>, e: Envelope, version2: bool)
    requires EndsBy(current, e.seqNo)
    ensures MergedAt(current, MergeTimelineEvent(current, e.(ignored := false, body := TurnCompleted(version2))), e.seqNo)
  {
    var end := Entry(TurnEnd(e.seqNo), EventKind, "Turn Completed", e, [], NoStatus);
    if version2 {
      AppendMerges(current, end, e.seqNo);
    } else {
      GrowMerges(current, AssistantKind, "Assistant Message", e.(ignored := false, body := TurnCompleted(version2)));
      AppendMerges(AppendOrMerge(current, AssistantKind, "Assistant Message", e.(ignored := false, body := TurnCompleted(version2))), end, e.seqNo);
    }
  }

  /** An event whose branch only appends one entry. */
  predicate Appends(current: seq<TimelineEvent>, e: Envelope) {
    || (e.body.UserAccepted? && !HasId(current, UserId(e.body.idText)))
    || e.body.ToolStarted? || e.body.PlanUpdated? || e.body.DiffUpdated? || e.body.ApprovalRequested?
    || e.body.ApprovalResolved? || e.body.AutoReview? || e.body.OtherEvent?
  }

  lemma PlainAppendMerges(current: seq<TimelineEvent>, e: Envelope)
    requires EndsBy(current, e.seqNo) && !e.ignored && Appends(current, e)
    ensures MergedAt(current, MergeTimelineEvent(current, e), e.seqNo)
  {
    var next := MergeTimelineEvent(current, e);
    AppendMerges(current, next[|current|], e.seqNo);
    assert next == current + [next[|current|]];
  }

  /** Merging a newest event is a no-op or leaves an entry that ends with it. */
  lemma MergeEnds(current: seq<TimelineEvent>, e: Envelope)
    requires EndsBy(current, e.seqNo) && !NoOp(current, e)
    ensures MergedAt(current, MergeTimelineEvent(current, e), e.seqNo)
  {
    match e.body
    case ItemMessage(itemId, completed) =>
      ItemMerges(current, e, AssistantItem(itemId), if completed then CompletedStatus else RunningStatus);
    case TurnCompleted(version2) => TurnEndMerges(current, e, version2);
    case ToolOutput(info) => ToolOutputMerges(current, e, info);
    case ToolCompleted(info) => ToolCompletedMerges(current, e, info);
    case ReasoningDelta(delta) => ReasoningMerges(current, e, delta);
    case AssistantDelta(text) => GrowMerges(current, AssistantKind, "Assistant Message", e);
    case InputUpdated =>
    case TurnWrapper =>
    case _ => PlainAppendMerges(current, e);
  }

  // ---- A whole log ---------------------------------------------------------

  /** Numbers start at one and grow. */
  ghost predicate Sorted(log: seq<Envelope>) {
    && (forall i :: 0 <= i < |log| ==> log[i].seqNo > 0)
    && forall i, j :: 0 <= i < j < |log| ==> log[i].seqNo < log[j].seqNo
  }

  /** The number of the `h`-th event, 0 before the first. */
  function NumberAt(log: seq<Envelope>, h: nat): int
    requires h <= |log|
  {
    if h == 0 then 0 else log[h - 1].seqNo
  }

  lemma FoldNext(log: seq<Envelope>, h: nat)
    requires h < |log|
    ensures Fold([], log[..h + 1]) == MergeTimelineEvent(Fold([], log[..h]), log[h])
  {
    assert log[..h + 1][..h] == log[..h];
  }

  /** What the `h`-th event does to the timeline of those before it. */
  ghost predicate NextOk(log: seq<Envelope>, h: nat)
    requires 0 < h <= |log|
  {
    var current, next := Fold([], log[..h - 1]), Fold([], log[..h]);
    (NoOp(current, log[h - 1]) && next == current) || MergedAt(current, next, log[h - 1].seqNo)
  }

  lemma NextMerges(log: seq<Envelope>, h: nat)
    requires Sorted(log) && 0 < h <= |log| && EndsBy(Fold([], log[..h - 1]), NumberAt(log, h - 1))
    ensures NextOk(log, h)
  {
    FoldNext(log, h - 1);
    var current := Fold([], log[..h - 1]);
    assert h > 1 ==> log[h - 2].seqNo < log[h - 1].seqNo;
    if NoOp(current, log[h - 1]) {
      NoOpKeeps(current, log[h - 1]);
    } else {
      MergeEnds(current, log[h - 1]);
    }
  }

  lemma {:induction false} FoldEndsBy(log: seq<Envelope>, h: nat)
    requires Sorted(log) && h <= |log|
    ensures EndsBy(Fold([], log[..h]), NumberAt(log, h))
    ensures h > 0 ==> NextOk(log, h)
    decreases h
  {
    if h > 0 {
      FoldEndsBy(log, h - 1);
      NextMerges(log, h);
      assert h > 1 ==> log[h - 2].seqNo < log[h - 1].seqNo;
    }
  }

  lemma IdsStayBoth(a: seq<TimelineEvent>, b: seq<TimelineEvent>, c: seq<TimelineEvent>)
    requires IdsStay(a, b) && IdsStay(b, c)
    ensures IdsStay(a, c)
  {
  }

  /** What was there after `i` events is still there after `h`, under the same ids. */
  lemma {:induction false} IdsStayThrough(log: seq<Envelope>, i: nat, h: nat)
    requires Sorted(log) && i <= h <= |log|
    ensures IdsStay(Fold([], log[..i]), Fold([], log[..h]))
    decreases h
  {
    if i < h {
      IdsStayThrough(log, i, h - 1);
      FoldEndsBy(log, h);
      IdsStayBoth(Fold([], log[..i]), Fold([], log[..h - 1]), Fold([], log[..h]));
    }
  }

  /** The largest end of a timeline that something newest was merged into. */
  lemma MaxEndStep(current: seq<TimelineEvent>, next: seq<TimelineEvent>, n: int)
    requires EndsBy(current, n) && n > 0 && (next == current || MergedAt(current, next, n))
    ensures MaxEnd(current) <= MaxEnd(next) <= n
  {
  }

  /** The largest end never falls. */
  lemma {:induction false} MaxEndGrows(log: seq<Envelope>, i: nat, h: nat)
    requires Sorted(log) && i <= h <= |log|
    ensures MaxEnd(Fold([], log[..i])) <= MaxEnd(Fold([], log[..h])) <= NumberAt(log, h)
    decreases h
  {
    FoldEndsBy(log, h);
    if i < h {
      MaxEndGrows(log, i, h - 1);
      FoldEndsBy(log, h - 1);
      assert h > 1 ==> log[h - 2].seqNo < log[h - 1].seqNo;
      MaxEndStep(Fold([], log[..h - 1]), Fold([], log[..h]), log[h - 1].seqNo);
    }
  }

  /**
   The guard is sound: an event of the first `h` that is newer than every end
   of their timeline was a no-op, and still is, so merging it again changes
   nothing.
   */
  lemma LateIsNoOp(log: seq<Envelope>, i: nat, h: nat)
    requires Sorted(log) && i < h <= |log|
    requires log[i].seqNo > MaxEnd(Fold([], log[..h]))
    ensures NoOp(Fold([], log[..h]), log[i])
    ensures MergeTimelineEvent(Fold([], log[..h]), log[i]) == Fold([], log[..h])
  {
    var current := Fold([], log[..i]);
    var now := Fold([], log[..h]);
    FoldEndsBy(log, i);
    FoldNext(log, i);
    MaxEndGrows(log, i + 1, h);
    if !NoOp(current, log[i]) {
      MergeEnds(current, log[i]);
    }
    assert NoOp(current, log[i]);
    IdsStayThrough(log, i, h);
    if log[i].body.UserAccepted? && HasId(current, UserId(log[i].body.idText)) {
      var k :| 0 <= k < |current| && current[k].id == UserId(log[i].body.idText);
      assert now[k].id == UserId(log[i].body.idText);
    }
    NoOpKeeps(now, log[i]);
  }
}
