/** What the timeline keeps of the text it is given. */
module TimelineText {
  import opened Prelude
  import opened Text
  import opened Timeline
  import opened TimelineGuard

  /** All reasoning the timeline shows, in order. */
  function ReasoningText(events: seq<TimelineEvent>): string {
    if events == [] then ""
    else ReasoningText(events[..|events| - 1]) + ReasoningOf(events[|events| - 1])
  }

  function ReasoningOf(item: TimelineEvent): string {
    if item.kind == ReasoningKind then Concat(item.details) else ""
  }

  /** All reasoning that arrived. */
  function Deltas(log: seq<Envelope>): string {
    if log == [] then "" else Deltas(log[..|log| - 1]) + DeltaOf(log[|log| - 1])
  }

  function DeltaOf(e: Envelope): string {
    if !e.ignored && e.body.ReasoningDelta? then e.body.delta else ""
  }

  lemma AppendText(events: seq<TimelineEvent>, item: TimelineEvent)
    ensures ReasoningText(events + [item]) == ReasoningText(events) + ReasoningOf(item)
  {
    assert (events + [item])[..|events|] == events;
  }

  lemma {:induction false} SameText(a: seq<TimelineEvent>, b: seq<TimelineEvent>)
    requires |a| == |b| && forall i :: 0 <= i < |a| ==> ReasoningOf(a[i]) == ReasoningOf(b[i])
    ensures ReasoningText(a) == ReasoningText(b)
  {
    if a != [] { SameText(a[..|a| - 1], b[..|b| - 1]); }
  }

  lemma DetailText(details: seq<string>, text: string)
    ensures Concat(AppendOrMergeDetail(details, text)) == Concat(details) + text
  {
    if details == [] {
      assert [text][..0] == [] && Concat([text]) == "" + text;
    } else {
      var merged := AppendOrMergeDetail(details, text);
      assert merged[..|merged| - 1] == details[..|details| - 1];
    }
  }

  lemma ReasoningGrows(current: seq<TimelineEvent>, e: Envelope, delta: string)
    ensures ReasoningText(MergeReasoning(current, e, delta)) == ReasoningText(current) + delta
  {
    var n := |current|;
    if delta != "" {
      if n > 0 && current[n - 1].kind == ReasoningKind {
        var last := current[n - 1];
        var item := last.(seqEnd := Max(last.seqEnd, e.seqNo), details := AppendOrMergeDetail(last.details, delta));
        AppendText(current[..n - 1], item);
        DetailText(last.details, delta);
      } else {
        var item := Entry(NumberedId(ReasoningKind, e.seqNo), ReasoningKind, "Reasoning", e, [delta], NoStatus);
        AppendText(current, item);
        DetailText([], delta);
      }
    }
  }

  lemma AssistantKeepsText(current: seq<TimelineEvent>, title: string, e: Envelope)
    ensures ReasoningText(AppendOrMerge(current, AssistantKind, title, e)) == ReasoningText(current)
  {
    var n := |current|;
    var next := AppendOrMerge(current, AssistantKind, title, e);
    if n > 0 && current[n - 1].kind == AssistantKind {
      SameText(current, next);
    } else {
      AppendText(current, next[n]);
    }
  }

  lemma UpdateKeepsText(current: seq<TimelineEvent>, i: nat, item: TimelineEvent)
    requires i < |current| && ReasoningOf(item) == ReasoningOf(current[i])
    ensures ReasoningText(current[i := item]) == ReasoningText(current)
  {
    SameText(current, current[i := item]);
  }

  lemma ToolKeepsText(current: seq<TimelineEvent>, e: Envelope, info: ToolInfo)
    ensures ReasoningText(MergeToolOutput(current, e, info)) == ReasoningText(current)
    ensures ReasoningText(MergeToolCompleted(current, e, info)) == ReasoningText(current)
  {
    var i := FindTool(current, info);
    var out, done := MergeToolOutput(current, e, info), MergeToolCompleted(current, e, info);
    if i >= 0 {
      if info.outputAvailable || info.output != "" { UpdateKeepsText(current, i, out[i]); }
      UpdateKeepsText(current, i, done[i]);
    } else {
      if info.outputAvailable || info.output != "" { AppendText(current, out[|current|]); }
      AppendText(current, done[|current|]);
    }
  }

  lemma ItemKeepsText(current: seq<TimelineEvent>, e: Envelope, id: EventId, status: Progress)
    ensures ReasoningText(MergeItem(current, e, id, status)) == ReasoningText(current)
  {
    var next := MergeItem(current, e, id, status);
    if HasId(current, id) {
      SameText(current, next);
    } else {
      AppendText(current, next[|current|]);
    }
  }

  lemma TurnEndKeepsText(current: seq<TimelineEvent>, e: Envelope)
    requires !e.ignored && e.body.TurnCompleted?
    ensures ReasoningText(MergeTimelineEvent(current, e)) == ReasoningText(current)
  {
    var end := Entry(TurnEnd(e.seqNo), EventKind, "Turn Completed", e, [], NoStatus);
    if e.body.version2 {
      AppendText(current, end);
    } else {
      AssistantKeepsText(current, "Assistant Message", e);
      AppendText(AppendOrMerge(current, AssistantKind, "Assistant Message", e), end);
    }
  }

  /** The other events leave the entries as they are, or append one that is not reasoning. */
  predicate IsOther(b: Body) {
    !b.ReasoningDelta? && !b.ItemMessage? && !b.TurnCompleted? && !b.ToolOutput? && !b.ToolCompleted? && !b.AssistantDelta?
  }

  lemma OtherAppends(current: seq<TimelineEvent>, e: Envelope)
    requires IsOther(e.body)
    ensures var next := MergeTimelineEvent(current, e);
      next == current || (next != [] && next[..|next| - 1] == current && next[|next| - 1].kind != ReasoningKind)
  {
  }

  lemma OtherKeepsText(current: seq<TimelineEvent>, e: Envelope)
    requires IsOther(e.body)
    ensures ReasoningText(MergeTimelineEvent(current, e)) == ReasoningText(current)
  {
    OtherAppends(current, e);
  }

  lemma ToolEventKeepsText(current: seq<TimelineEvent>, e: Envelope)
    requires e.body.ToolOutput? || e.body.ToolCompleted?
    ensures ReasoningText(MergeTimelineEvent(current, e)) == ReasoningText(current)
  {
    ToolKeepsText(current, e, e.body.info);
    ToolMerge(current, e);
  }

  lemma ToolMerge(current: seq<TimelineEvent>, e: Envelope)
    requires e.body.ToolOutput? || e.body.ToolCompleted?
    ensures var next := MergeTimelineEvent(current, e);
      next == if e.ignored then current
              else if e.body.ToolOutput? then MergeToolOutput(current, e, e.body.info)
              else MergeToolCompleted(current, e, e.body.info)
  {
  }

  lemma MessageKeepsText(current: seq<TimelineEvent>, e: Envelope)
    requires e.body.ItemMessage? || e.body.AssistantDelta?
    ensures ReasoningText(MergeTimelineEvent(current, e)) == ReasoningText(current)
  {
    if e.body.ItemMessage? {
      ItemKeepsText(current, e, AssistantItem(e.body.itemId), if e.body.completed then CompletedStatus else RunningStatus);
    } else {
      AssistantKeepsText(current, "Assistant Message", e);
    }
  }

  lemma ReasoningMerge(current: seq<TimelineEvent>, e: Envelope)
    requires !e.ignored && e.body.ReasoningDelta?
    ensures MergeTimelineEvent(current, e) == MergeReasoning(current, e, e.body.delta)
  {
  }

  lemma MergeText(current: seq<TimelineEvent>, e: Envelope)
    ensures ReasoningText(MergeTimelineEvent(current, e)) == ReasoningText(current) + DeltaOf(e)
  {
    if !e.ignored && e.body.ReasoningDelta? {
      ReasoningGrows(current, e, e.body.delta);
      ReasoningMerge(current, e);
    } else {
      OthersKeepText(current, e);
    }
  }

  lemma OthersKeepText(current: seq<TimelineEvent>, e: Envelope)
    requires e.ignored || !e.body.ReasoningDelta?
    ensures ReasoningText(MergeTimelineEvent(current, e)) == ReasoningText(current)
  {
    if !e.ignored {
      if IsOther(e.body) {
        OtherKeepsText(current, e);
      } else if e.body.TurnCompleted? {
        TurnEndKeepsText(current, e);
      } else if e.body.ToolOutput? || e.body.ToolCompleted? {
        ToolEventKeepsText(current, e);
      } else {
        MessageKeepsText(current, e);
      }
    }
  }

  /** Nothing of the reasoning is lost, repeated or reordered, however it is spread over the timeline's entries. */
  lemma {:induction false} ReasoningKept(log: seq<Envelope>)
    ensures ReasoningText(Fold([], log)) == Deltas(log)
  {
    if log != [] {
      ReasoningKept(log[..|log| - 1]);
      MergeText(Fold([], log[..|log| - 1]), log[|log| - 1]);
    }
  }

  // ---- Entries of streamed text --------------------------------------------

  predicate IsTextId(id: EventId) {
    id.NumberedId? && (id.kind == AssistantKind || id.kind == ReasoningKind)
  }

  /** Text of the assistant; the end of a turn of the first history version counts as some. */
  predicate IsAssistantText(e: Envelope) {
    !e.ignored && ((e.body.AssistantDelta? && e.body.text != "") || e.body == TurnCompleted(false))
  }

  predicate IsReasoning(e: Envelope) {
    !e.ignored && e.body.ReasoningDelta? && e.body.delta != ""
  }

  /** The entry that this piece of text opened. */
  predicate IsTextOf(item: TimelineEvent, e: Envelope) {
    && IsTextId(item.id) && item.id.seqNo == item.seqStart == e.seqNo && item.createdAt == e.createdAt
    && item.kind == item.id.kind && item.status == NoStatus && item.tool == None
    && if item.kind == AssistantKind then IsAssistantText(e) && item.title == "Assistant Message" && item.details == []
       else IsReasoning(e) && item.title == "Reasoning"
  }

  ghost predicate FromText(log: seq<Envelope>, item: TimelineEvent, n: nat)
    requires n <= |log|
  {
    IsTextId(item.id) ==> exists j :: 0 <= j < n && IsTextOf(item, log[j])
  }

  /** The same entry of text, with more of it. */
  predicate Grows(a: TimelineEvent, b: TimelineEvent) {
    IsTextId(b.id) ==> a.id == b.id && b == a.(seqEnd := b.seqEnd, details := b.details) && (b.kind == AssistantKind ==> b.details == [])
  }

  /** Entries of text stay in their places, and new ones are of this event. */
  ghost predicate TextMoves(current: seq<TimelineEvent>, next: seq<TimelineEvent>, e: Envelope) {
    && |current| <= |next|
    && (forall x :: 0 <= x < |current| ==> Plain(current[x]) ==> Grows(current[x], next[x]))
    && forall x :: |current| <= x < |next| && IsTextId(next[x].id) ==> IsTextOf(next[x], e)
  }

  predicate Plain(item: TimelineEvent) {
    IsTextId(item.id) ==> item.kind == item.id.kind && (item.kind == AssistantKind ==> item.details == [])
  }

  lemma GrowMoves(current: seq<TimelineEvent>, e: Envelope)
    requires IsAssistantText(e)
    ensures TextMoves(current, AppendOrMerge(current, AssistantKind, "Assistant Message", e), e)
  {
  }

  lemma EndMoves(current: seq<TimelineEvent>, e: Envelope)
    requires !e.ignored && e.body.TurnCompleted?
    ensures TextMoves(current, MergeTimelineEvent(current, e), e)
  {
    if !e.body.version2 { GrowMoves(current, e); }
  }

  lemma OtherMoves(current: seq<TimelineEvent>, e: Envelope)
    requires IsOther(e.body)
    ensures TextMoves(current, MergeTimelineEvent(current, e), e)
  {
  }

  lemma ToolMoves(current: seq<TimelineEvent>, e: Envelope)
    requires e.body.ToolOutput? || e.body.ToolCompleted?
    ensures TextMoves(current, MergeTimelineEvent(current, e), e)
  {
    ToolMerge(current, e);
  }

  lemma MessageMoves(current: seq<TimelineEvent>, e: Envelope)
    requires e.body.ItemMessage? || e.body.AssistantDelta? || e.body.ReasoningDelta?
    ensures TextMoves(current, MergeTimelineEvent(current, e), e)
  {
    if !e.ignored && e.body.AssistantDelta? && e.body.text != "" { GrowMoves(current, e); }
  }

  lemma StepMoves(current: seq<TimelineEvent>, e: Envelope)
    ensures TextMoves(current, MergeTimelineEvent(current, e), e)
  {
    if e.ignored {
    } else if IsOther(e.body) {
      OtherMoves(current, e);
    } else if e.body.TurnCompleted? {
      EndMoves(current, e);
    } else if e.body.ToolOutput? || e.body.ToolCompleted? {
      ToolMoves(current, e);
    } else {
      MessageMoves(current, e);
    }
  }

  /** Every entry of text was opened by a piece of text of its kind. */
  lemma {:induction false} TextsAreTold(log: seq<Envelope>, n: nat)
    requires n <= |log|
    ensures forall x :: 0 <= x < |Fold([], log[..n])| ==> FromText(log, Fold([], log[..n])[x], n)
    decreases n
  {
    if n > 0 {
      var current, next := Fold([], log[..n - 1]), Fold([], log[..n]);
      TextsAreTold(log, n - 1);
      FoldNext(log, n - 1);
      StepMoves(current, log[n - 1]);
      forall x | 0 <= x < |next| ensures FromText(log, next[x], n) {
        if IsTextId(next[x].id) { TextStays(log, current, next, n, x); }
      }
    }
  }

  lemma TextStays(log: seq<Envelope>, current: seq<TimelineEvent>, next: seq<TimelineEvent>, n: nat, x: nat)
    requires 0 < n <= |log| && x < |next| && TextMoves(current, next, log[n - 1]) && IsTextId(next[x].id)
    requires x < |current| ==> FromText(log, current[x], n - 1) && current[x].id == next[x].id
    ensures FromText(log, next[x], n)
  {
    if x < |current| {
      var j :| 0 <= j < n - 1 && IsTextOf(current[x], log[j]);
      assert IsTextOf(next[x], log[j]);
    } else {
      assert IsTextOf(next[x], log[n - 1]);
    }
  }

  /** A piece of the assistant's text is shown: the last entry, but for the turn's end, is the assistant's and reaches it. */
  lemma TextIsShown(log: seq<Envelope>, n: nat)
    requires n < |log| && IsAssistantText(log[n])
    ensures var shown := Fold([], log[..n + 1]); var last := |shown| - if log[n].body.TurnCompleted? then 2 else 1;
      && last >= 0 && shown[last].kind == AssistantKind && shown[last].seqEnd >= log[n].seqNo
      && (last + 1 < |shown| ==> shown[last + 1].id == TurnEnd(log[n].seqNo))
  {
    FoldNext(log, n);
  }
}
