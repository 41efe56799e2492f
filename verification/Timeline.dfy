/** The timeline of a turn: how one event of the turn changes the list that the panel shows. */
module Timeline {
  import opened Prelude

  /** Ids are built from a prefix and a number or text; different prefixes are taken to give different ids. */
  datatype EventId =
    | UserId(text: string)
    | AssistantItem(itemId: string)
    | TurnEnd(seqNo: int)
    | ToolId(key: string, seqNo: int)
    | NumberedId(kind: Kind, seqNo: int)
    | AutoReviewId(seqNo: int)
    | OtherId(kindName: string, seqNo: int)

  datatype Kind = EventKind | AssistantKind | ToolKind | ReasoningKind | PlanKind | DiffKind | ApprovalKind

  datatype Progress = NoStatus | RunningStatus | CompletedStatus

  datatype TimelineEvent = TimelineEvent(
    id: EventId,
    kind: Kind,
    title: string,
    seqStart: int,
    seqEnd: int,
    createdAt: int,
    details: seq<string>,
    status: Progress,
    tool: Option<ToolState>)

  datatype ToolState = ToolState(
    key: string, detailRef: Option<string>, toolKind: Option<string>, command: Option<string>, hasOutput: bool)

  /** What the resolvers read from a tool event's payload; an empty note is none. */
  datatype ToolInfo = ToolInfo(
    key: string, detailRef: Option<string>, title: string, toolKind: Option<string>, isCommand: bool,
    command: Option<string>, outputAvailable: bool, output: string, completedNote: string)

  /** The event's type with the parts of its payload that the timeline uses. */
  datatype Body =
    | InputUpdated
    | UserAccepted(idText: string, title: string, content: string)
    | ItemMessage(itemId: string, completed: bool)
    | TurnWrapper
    | TurnCompleted(version2: bool)
    | ToolStarted(info: ToolInfo)
    | ToolOutput(info: ToolInfo)
    | ToolCompleted(info: ToolInfo)
    | ReasoningDelta(delta: string)
    | AssistantDelta(text: string)
    | PlanUpdated(plan: string)
    | DiffUpdated
    | ApprovalRequested(title: string, reason: string)
    | ApprovalResolved(decision: string)
    | AutoReview(title: string, status: Progress, lines: seq<string>)
    | OtherEvent(kindName: string)

  datatype Envelope = Envelope(seqNo: int, createdAt: int, ignored: bool, body: Body)

  // ---- Merging one event ---------------------------------------------------

  function Entry(id: EventId, kind: Kind, title: string, e: Envelope, details: seq<string>, status: Progress): TimelineEvent {
    TimelineEvent(id, kind, title, e.seqNo, e.seqNo, e.createdAt, details, status, None)
  }

  function AppendOrMergeDetail(details: seq<string>, text: string): seq<string> {
    if details == [] then [text]
    else details[..|details| - 1] + [details[|details| - 1] + text]
  }

  function Lines(text: string): seq<string> {
    if text == "" then [] else [text]
  }

  predicate HasId(current: seq<TimelineEvent>, id: EventId) {
    exists i :: 0 <= i < |current| && current[i].id == id
  }

  /** The last tool entry the event belongs to, or -1. */
  function FindTool(current: seq<TimelineEvent>, info: ToolInfo): (i: int)
    ensures -1 <= i < |current|
    ensures i >= 0 ==> Belongs(current[i], info)
    ensures forall j :: i < j < |current| ==> !Belongs(current[j], info)
  {
    if current == [] then -1
    else if Belongs(current[|current| - 1], info) then |current| - 1
    else FindTool(current[..|current| - 1], info)
  }

  predicate Belongs(item: TimelineEvent, info: ToolInfo) {
    item.kind == ToolKind && item.tool.Some? &&
    if info.detailRef.Some? then item.tool.value.detailRef == info.detailRef else item.tool.value.key == info.key
  }

  function OrElse<T>(a: Option<T>, b: Option<T>): Option<T> {
    if a.Some? then a else b
  }

  function NewTool(e: Envelope, info: ToolInfo, details: seq<string>, status: Progress, command: Option<string>, hasOutput: bool)
    : TimelineEvent
  {
    Entry(ToolId(info.key, e.seqNo), ToolKind, info.title, e, details, status)
      .(tool := Some(ToolState(info.key, info.detailRef, info.toolKind, command, hasOutput)))
  }

  /** Text events of a kind grow the last entry of that kind. */
  function AppendOrMerge(current: seq<TimelineEvent>, kind: Kind, title: string, e: Envelope): seq<TimelineEvent> {
    var n := |current|;
    if n > 0 && current[n - 1].kind == kind then
      current[..n - 1] + [current[n - 1].(seqEnd := Max(current[n - 1].seqEnd, e.seqNo), details := [])]
    else current + [Entry(NumberedId(kind, e.seqNo), kind, title, e, [], NoStatus)]
  }

  function MergeToolOutput(current: seq<TimelineEvent>, e: Envelope, info: ToolInfo): seq<TimelineEvent> {
    var hasOutput := info.outputAvailable || info.output != "";
    var i := FindTool(current, info);
    if !hasOutput then current
    else if i >= 0 then
      var item := current[i];
      current[i := item.(
        seqEnd := Max(item.seqEnd, e.seqNo),
        details := if info.isCommand || info.output == "" then item.details else AppendOrMergeDetail(item.details, info.output),
        tool := Some(item.tool.value.(toolKind := OrElse(item.tool.value.toolKind, info.toolKind),
                                      detailRef := OrElse(item.tool.value.detailRef, info.detailRef),
                                      hasOutput := true)))]
    else current + [NewTool(e, info, if info.isCommand then [] else Lines(info.output), RunningStatus, None, true)]
  }

  function MergeToolCompleted(current: seq<TimelineEvent>, e: Envelope, info: ToolInfo): seq<TimelineEvent> {
    var i := FindTool(current, info);
    if i >= 0 then
      var item := current[i];
      current[i := item.(
        seqEnd := Max(item.seqEnd, e.seqNo),
        status := CompletedStatus,
        details := if info.completedNote == "" then item.details else AppendOrMergeDetail(item.details, info.completedNote),
        tool := Some(item.tool.value.(toolKind := OrElse(item.tool.value.toolKind, info.toolKind),
                                      detailRef := OrElse(item.tool.value.detailRef, info.detailRef),
                                      command := OrElse(item.tool.value.command, info.command),
                                      hasOutput := item.tool.value.hasOutput || info.outputAvailable)))]
    else current + [NewTool(e, info, Lines(info.completedNote), CompletedStatus, info.command, info.outputAvailable)]
  }

  function MergeItem(current: seq<TimelineEvent>, e: Envelope, id: EventId, status: Progress): seq<TimelineEvent> {
    if HasId(current, id) then
      seq(|current|, i requires 0 <= i < |current| =>
        if current[i].id == id then current[i].(seqEnd := e.seqNo, status := status) else current[i])
    else current + [Entry(id, AssistantKind, "Assistant Message", e, [], status)]
  }

  function MergeReasoning(current: seq<TimelineEvent>, e: Envelope, delta: string): seq<TimelineEvent> {
    var n := |current|;
    if delta == "" then current
    else if n > 0 && current[n - 1].kind == ReasoningKind then
      current[..n - 1] + [current[n - 1].(seqEnd := Max(current[n - 1].seqEnd, e.seqNo),
                                           details := AppendOrMergeDetail(current[n - 1].details, delta))]
    else current + [Entry(NumberedId(ReasoningKind, e.seqNo), ReasoningKind, "Reasoning", e, [delta], NoStatus)]
  }

  function MergeTimelineEvent(current: seq<TimelineEvent>, e: Envelope): seq<TimelineEvent> {
    if e.ignored then current
    else
      match e.body
      case InputUpdated => current
      case UserAccepted(idText, title, content) =>
        if HasId(current, UserId(idText)) then current
        else current + [Entry(UserId(idText), EventKind, title, e, Lines(content), NoStatus)]
      case ItemMessage(itemId, completed) =>
        MergeItem(current, e, AssistantItem(itemId), if completed then CompletedStatus else RunningStatus)
      case TurnWrapper => current
      case TurnCompleted(version2) =>
        (if version2 then current else AppendOrMerge(current, AssistantKind, "Assistant Message", e))
          + [Entry(TurnEnd(e.seqNo), EventKind, "Turn Completed", e, [], NoStatus)]
      case ToolStarted(info) => current + [NewTool(e, info, [], RunningStatus, info.command, info.outputAvailable)]
      case ToolOutput(info) => MergeToolOutput(current, e, info)
      case ToolCompleted(info) => MergeToolCompleted(current, e, info)
      case ReasoningDelta(delta) => MergeReasoning(current, e, delta)
      case AssistantDelta(text) =>
        if text == "" then current else AppendOrMerge(current, AssistantKind, "Assistant Message", e)
      case PlanUpdated(plan) => current + [Entry(NumberedId(PlanKind, e.seqNo), PlanKind, "Plan Updated", e, [plan], NoStatus)]
      case DiffUpdated => current + [Entry(NumberedId(DiffKind, e.seqNo), DiffKind, "Diff Updated", e, [], NoStatus)]
      case ApprovalRequested(title, reason) =>
        current + [Entry(NumberedId(ApprovalKind, e.seqNo), ApprovalKind, title, e, Lines(reason), NoStatus)]
      case ApprovalResolved(decision) =>
        current + [Entry(NumberedId(ApprovalKind, e.seqNo), ApprovalKind, "Approval Resolved", e, [decision], NoStatus)]
      case AutoReview(title, status, lines) =>
        current + [Entry(AutoReviewId(e.seqNo), ApprovalKind, title, e, lines, status)]
      case OtherEvent(kindName) =>
        current + [Entry(OtherId(kindName, e.seqNo), EventKind, kindName, e, [], NoStatus)]
  }

  /** One left fold: the meaning of a log. */
  function Fold(current: seq<TimelineEvent>, events: seq<Envelope>): seq<TimelineEvent>
    decreases |events|
  {
    if events == [] then current
    else MergeTimelineEvent(Fold(current, events[..|events| - 1]), events[|events| - 1])
  }

  lemma {:induction false} FoldConcat(current: seq<TimelineEvent>, a: seq<Envelope>, b: seq<Envelope>)
    ensures Fold(current, a + b) == Fold(Fold(current, a), b)
    decreases |b|
  {
    if b == [] {
      assert a + b == a;
    } else {
      assert (a + b)[..|a + b| - 1] == a + b[..|b| - 1];
      FoldConcat(current, a, b[..|b| - 1]);
    }
  }

  // ---- The largest end -----------------------------------------------------

  /** `replaceTimelineEvents` sets the guard to this. */
  function MaxEnd(events: seq<TimelineEvent>): (m: int)
    ensures m >= 0 && forall i :: 0 <= i < |events| ==> events[i].seqEnd <= m
    ensures m > 0 ==> exists i :: 0 <= i < |events| && events[i].seqEnd == m
  {
    if events == [] then 0 else Max(MaxEnd(events[..|events| - 1]), events[|events| - 1].seqEnd)
  }

  /** The event leaves the timeline alone, now and whatever is merged later. */
  predicate NoOp(current: seq<TimelineEvent>, e: Envelope) {
    || e.ignored || e.body.InputUpdated? || e.body.TurnWrapper?
    || (e.body.UserAccepted? && HasId(current, UserId(e.body.idText)))
    || (e.body.ToolOutput? && !e.body.info.outputAvailable && e.body.info.output == "")
    || (e.body.ReasoningDelta? && e.body.delta == "")
    || (e.body.AssistantDelta? && e.body.text == "")
  }

  lemma NoOpKeeps(current: seq<TimelineEvent>, e: Envelope)
    requires NoOp(current, e)
    ensures MergeTimelineEvent(current, e) == current
  {
  }

  /** Merging an event newer than everything: some entry ends with it, unless it is a no-op. */
  ghost predicate EndsWith(events: seq<TimelineEvent>, n: int) {
    exists i :: 0 <= i < |events| && events[i].seqEnd == n
  }

  ghost predicate EndsBy(events: seq<TimelineEvent>, n: int) {
    forall i :: 0 <= i < |events| ==> events[i].seqEnd <= n
  }

  lemma AppendEnds(current: seq<TimelineEvent>, item: TimelineEvent, n: int)
    requires EndsBy(current, n) && item.seqEnd == n
    ensures EndsBy(current + [item], n) && EndsWith(current + [item], n)
  {
    assert (current + [item])[|current|].seqEnd == n;
  }

  lemma UpdateEnds(current: seq<TimelineEvent>, i: nat, item: TimelineEvent, n: int)
    requires EndsBy(current, n) && i < |current| && item.seqEnd == n
    ensures EndsBy(current[i := item], n) && EndsWith(current[i := item], n)
  {
    assert current[i := item][i].seqEnd == n;
  }
}
