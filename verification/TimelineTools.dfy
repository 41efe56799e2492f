/** What the timeline shows of the tools, told from the log: which events each entry shows, and what it shows of them. */
module TimelineTools {
  import opened Prelude
  import opened Timeline
  import opened TimelineGuard

  // ---- The tools, told from the log ----------------------------------------

  predicate IsTool(b: Body) {
    b.ToolStarted? || b.ToolOutput? || b.ToolCompleted?
  }

  /** A tool event that the panel shows: an output must bring some, or announce it. */
  predicate Shown(e: Envelope) {
    !e.ignored && IsTool(e.body) && (e.body.ToolOutput? ==> HasOutput(e))
  }

  predicate HasOutput(e: Envelope)
    requires IsTool(e.body)
  {
    e.body.info.outputAvailable || (e.body.ToolOutput? && e.body.info.output != "")
  }

  /** An output or completion names an earlier event by its detail reference, and by its key if it has none. */
  predicate Names(e: Envelope, earlier: Envelope)
  {
    && IsTool(e.body) && IsTool(earlier.body)
    && if e.body.info.detailRef.Some? then e.body.info.detailRef == earlier.body.info.detailRef
       else e.body.info.key == earlier.body.info.key
  }

  /** The event opens an entry: every start does, and so does an event that names no entry before it. */
  predicate Opens(log: seq<Envelope>, i: nat)
    requires i < |log|
    decreases i
  {
    && Shown(log[i])
    && (log[i].body.ToolStarted? || forall k: nat :: k < i && Opens(log, k) ==> !Names(log[i], log[k]))
  }

  /** The event goes to the entry opened last among those that it names. */
  predicate GoesTo(log: seq<Envelope>, j: nat, i: nat)
    requires i < j < |log|
  {
    && Shown(log[j]) && !log[j].body.ToolStarted? && Opens(log, i) && Names(log[j], log[i])
    && forall k: nat :: i < k < j && Opens(log, k) ==> !Names(log[j], log[k])
  }

  /** The positions of the first `n` events that open an entry. */
  function Openings(log: seq<Envelope>, n: nat): seq<nat>
    requires n <= |log|
  {
    if n == 0 then [] else Openings(log, n - 1) + if Opens(log, n - 1) then [n - 1] else []
  }

  /** The positions of the first `n` events that the entry opened at `i` shows. */
  function Own(log: seq<Envelope>, i: nat, n: nat): seq<nat>
    requires i < n <= |log|
  {
    if n == i + 1 then [i] else Own(log, i, n - 1) + if GoesTo(log, n - 1, i) then [n - 1] else []
  }

  /** The text the panel shows of an event: commands' output is left to the detail view. */
  function NoteOf(e: Envelope): string {
    match e.body
    case ToolOutput(info) => if info.isCommand then "" else info.output
    case ToolCompleted(info) => info.completedNote
    case _ => ""
  }

  function Notes(es: seq<Envelope>): string {
    if es == [] then "" else Notes(es[..|es| - 1]) + NoteOf(es[|es| - 1])
  }

  predicate AllTools(es: seq<Envelope>) {
    forall x :: 0 <= x < |es| ==> IsTool(es[x].body)
  }

  /** The first tool kind that any of the events tells. */
  function FirstKind(es: seq<Envelope>): Option<string>
    requires AllTools(es)
  {
    if es == [] then None else if es[0].body.info.toolKind.Some? then es[0].body.info.toolKind else FirstKind(es[1..])
  }

  /** The first command that a start or a completion tells. */
  function FirstCommand(es: seq<Envelope>): Option<string>
    requires AllTools(es)
  {
    if es == [] then None
    else if !es[0].body.ToolOutput? && es[0].body.info.command.Some? then es[0].body.info.command
    else FirstCommand(es[1..])
  }

  function At(log: seq<Envelope>, positions: seq<nat>): (es: seq<Envelope>)
    requires forall x :: 0 <= x < |positions| ==> positions[x] < |log|
    ensures |es| == |positions| && forall x :: 0 <= x < |es| ==> es[x] == log[positions[x]]
  {
    seq(|positions|, x requires 0 <= x < |positions| => log[positions[x]])
  }

  function Details(text: string): seq<string> {
    if text == "" then [] else [text]
  }

  predicate HasCompletion(es: seq<Envelope>) {
    exists x :: 0 <= x < |es| && es[x].body.ToolCompleted?
  }

  predicate AnyOutput(es: seq<Envelope>)
    requires AllTools(es)
  {
    exists x :: 0 <= x < |es| && HasOutput(es[x])
  }

  /** The largest of the events' numbers. */
  predicate Largest(es: seq<Envelope>, n: int) {
    (forall x :: 0 <= x < |es| ==> es[x].seqNo <= n) && exists x :: 0 <= x < |es| && es[x].seqNo == n
  }

  /** The entry shows exactly these events, the first of which opened it. */
  ghost predicate Shows(item: TimelineEvent, es: seq<Envelope>) {
    && es != [] && AllTools(es)
    && item.kind == ToolKind && item.id == ToolId(es[0].body.info.key, es[0].seqNo)
    && item.title == es[0].body.info.title && item.seqStart == es[0].seqNo && item.createdAt == es[0].createdAt
    && Largest(es, item.seqEnd) && item.details == Details(Notes(es))
    && item.status == (if HasCompletion(es) then CompletedStatus else RunningStatus)
    && item.tool == Some(ToolState(es[0].body.info.key, es[0].body.info.detailRef, FirstKind(es), FirstCommand(es), AnyOutput(es)))
  }

  /** The tool entries of a timeline, in order. */
  function Tools(events: seq<TimelineEvent>): seq<TimelineEvent> {
    if events == [] then []
    else Tools(events[..|events| - 1]) + if events[|events| - 1].kind == ToolKind then [events[|events| - 1]] else []
  }

  // ---- One event of one entry ----------------------------------------------

  lemma OwnOk(log: seq<Envelope>, i: nat, n: nat)
    requires i < n <= |log| && Shown(log[i])
    ensures var own := Own(log, i, n);
      && own != [] && own[0] == i && (forall j :: j in own <==> i == j || (i < j < n && GoesTo(log, j, i)))
      && (forall j :: j in own ==> Shown(log[j])) && forall x, y :: 0 <= x < y < |own| ==> own[x] < own[y]
    decreases n
  {
    if n > i + 1 {
      OwnOk(log, i, n - 1);
      var own, before := Own(log, i, n), Own(log, i, n - 1);
      forall x, y | 0 <= x < y < |own| ensures own[x] < own[y] {
        assert x < |before| && before[x] in before;
      }
    }
  }

  lemma {:induction false} KindsConcat(es: seq<Envelope>, e: Envelope)
    requires AllTools(es) && IsTool(e.body)
    ensures AllTools(es + [e])
    ensures FirstKind(es + [e]) == OrElse(FirstKind(es), e.body.info.toolKind)
    ensures FirstCommand(es + [e]) == OrElse(FirstCommand(es), if e.body.ToolOutput? then None else e.body.info.command)
  {
    if es != [] {
      assert (es + [e])[1..] == es[1..] + [e];
      KindsConcat(es[1..], e);
    } else {
      assert es + [e] == [e] && [e][1..] == [];
    }
  }

  lemma FlagsConcat(es: seq<Envelope>, e: Envelope, n: int)
    requires AllTools(es) && IsTool(e.body) && Largest(es, n)
    ensures AllTools(es + [e]) && Largest(es + [e], Max(n, e.seqNo))
    ensures HasCompletion(es + [e]) <==> HasCompletion(es) || e.body.ToolCompleted?
    ensures AnyOutput(es + [e]) <==> AnyOutput(es) || HasOutput(e)
  {
    var all := es + [e];
    assert all[|es|] == e;
    if x :| 0 <= x < |es| && es[x].body.ToolCompleted? { assert all[x].body.ToolCompleted?; }
    if x :| 0 <= x < |es| && HasOutput(es[x]) { assert HasOutput(all[x]); }
    var x :| 0 <= x < |es| && es[x].seqNo == n;
    assert all[x].seqNo == n;
  }

  lemma NotesConcat(es: seq<Envelope>, e: Envelope)
    ensures Notes(es + [e]) == Notes(es) + NoteOf(e)
  {
    assert (es + [e])[..|es|] == es;
  }

  lemma DetailsGrow(text: string, note: string)
    requires note != ""
    ensures AppendOrMergeDetail(Details(text), note) == Details(text + note)
  {
    if text == "" { assert text + note == note; }
  }

  /** What an entry becomes by an event that goes to it. */
  function Grown(item: TimelineEvent, e: Envelope): TimelineEvent
    requires item.tool.Some? && IsTool(e.body)
  {
    var tool := item.tool.value;
    item.(seqEnd := Max(item.seqEnd, e.seqNo),
          status := if e.body.ToolCompleted? then CompletedStatus else item.status,
          details := if NoteOf(e) == "" then item.details else AppendOrMergeDetail(item.details, NoteOf(e)),
          tool := Some(tool.(toolKind := OrElse(tool.toolKind, e.body.info.toolKind),
                             command := OrElse(tool.command, if e.body.ToolOutput? then None else e.body.info.command),
                             hasOutput := tool.hasOutput || HasOutput(e))))
  }

  lemma GrownShows(item: TimelineEvent, es: seq<Envelope>, e: Envelope)
    requires Shows(item, es) && Shown(e) && !e.body.ToolStarted?
    ensures Shows(Grown(item, e), es + [e])
  {
    NotesConcat(es, e);
    if NoteOf(e) != "" { DetailsGrow(Notes(es), NoteOf(e)); } else { assert Notes(es) + NoteOf(e) == Notes(es); }
    KindsConcat(es, e);
    FlagsConcat(es, e, item.seqEnd);
    assert (es + [e])[0] == es[0];
  }

  lemma NewShows(e: Envelope, details: seq<string>, status: Progress, command: Option<string>, hasOutput: bool)
    requires Shown(e) && details == Details(NoteOf(e))
    requires status == if e.body.ToolCompleted? then CompletedStatus else RunningStatus
    requires command == if e.body.ToolOutput? then None else e.body.info.command
    requires hasOutput == HasOutput(e)
    ensures Shows(NewTool(e, e.body.info, details, status, command, hasOutput), [e])
  {
    assert [e][..0] == [] && [e][1..] == [] && e in [e];
    assert Notes([e]) == NoteOf(e);
  }

  // ---- One event of the log ------------------------------------------------

  /** The last of the entries that the event names. */
  ghost predicate Target(tools: seq<TimelineEvent>, info: ToolInfo, t: nat) {
    && t < |tools| && Belongs(tools[t], info) && forall j :: t < j < |tools| ==> !Belongs(tools[j], info)
  }

  lemma {:induction false} ToolAt(current: seq<TimelineEvent>, i: nat, item: TimelineEvent, info: ToolInfo) returns (t: nat)
    requires FindTool(current, info) == i && item.kind == ToolKind
    ensures i < |current| && Target(Tools(current), info, t) && Tools(current)[t] == current[i]
    ensures Tools(current[i := item]) == Tools(current)[t := item]
  {
    var n := |current| - 1;
    var front := current[..n];
    if i == n {
      t := |Tools(front)|;
      assert current[i := item][..n] == front;
    } else {
      t := ToolAt(front, i, item, info);
      assert current[i := item][..n] == front[i := item];
    }
  }

  lemma {:induction false} NoToolAt(current: seq<TimelineEvent>, info: ToolInfo)
    requires FindTool(current, info) == -1
    ensures forall j :: 0 <= j < |Tools(current)| ==> !Belongs(Tools(current)[j], info)
  {
    if current != [] { NoToolAt(current[..|current| - 1], info); }
  }

  lemma ToolsAppend(current: seq<TimelineEvent>, item: TimelineEvent)
    ensures Tools(current + [item]) == Tools(current) + if item.kind == ToolKind then [item] else []
  {
    assert (current + [item])[..|current|] == current;
  }

  lemma {:induction false} ToolsSame(a: seq<TimelineEvent>, b: seq<TimelineEvent>)
    requires |a| == |b|
    requires forall i :: 0 <= i < |a| ==> a[i] == b[i] || (a[i].kind != ToolKind && b[i].kind != ToolKind)
    ensures Tools(a) == Tools(b)
  {
    if a != [] { ToolsSame(a[..|a| - 1], b[..|b| - 1]); }
  }

  /** Only tool entries carry the ids of tools. */
  ghost predicate ToolIds(events: seq<TimelineEvent>) {
    forall i :: 0 <= i < |events| && events[i].kind == ToolKind ==> events[i].id.ToolId?
  }

  /** The event opens an entry, goes to the last one it names, or leaves the tools alone. */
  ghost predicate StepShows(tools: seq<TimelineEvent>, next: seq<TimelineEvent>, e: Envelope) {
    if !Shown(e) then next == tools
    else if e.body.ToolStarted? || (forall j :: 0 <= j < |tools| ==> !Belongs(tools[j], e.body.info)) then
      |next| == |tools| + 1 && next[..|tools|] == tools && Shows(next[|tools|], [e])
    else
      exists t: nat :: Target(tools, e.body.info, t) && |next| == |tools| && Updates(tools, next, e, t)
  }

  /** Entry `t` shows the event too, and the others are as before. */
  ghost predicate Updates(tools: seq<TimelineEvent>, next: seq<TimelineEvent>, e: Envelope, t: nat)
    requires t < |tools| == |next|
  {
    && (forall j :: 0 <= j < |tools| && j != t ==> next[j] == tools[j])
    && forall es :: Shows(tools[t], es) ==> Shows(next[t], es + [e])
  }

  lemma FoundStep(current: seq<TimelineEvent>, e: Envelope, i: nat)
    requires Shown(e) && !e.body.ToolStarted? && FindTool(current, e.body.info) == i
    ensures StepShows(Tools(current), Tools(current[i := Grown(current[i], e)]), e)
  {
    var item := Grown(current[i], e);
    var t := ToolAt(current, i, item, e.body.info);
    forall es | Shows(current[i], es) ensures Shows(item, es + [e]) {
      GrownShows(current[i], es, e);
    }
    assert Updates(Tools(current), Tools(current[i := item]), e, t);
  }

  lemma NewStep(current: seq<TimelineEvent>, e: Envelope, item: TimelineEvent)
    requires Shown(e) && (e.body.ToolStarted? || FindTool(current, e.body.info) == -1) && Shows(item, [e])
    ensures StepShows(Tools(current), Tools(current + [item]), e)
  {
    if !e.body.ToolStarted? { NoToolAt(current, e.body.info); }
    ToolsAppend(current, item);
  }

  lemma OutputStep(current: seq<TimelineEvent>, e: Envelope)
    requires Shown(e) && e.body.ToolOutput?
    ensures StepShows(Tools(current), Tools(MergeToolOutput(current, e, e.body.info)), e)
  {
    var info := e.body.info;
    var i := FindTool(current, info);
    if i >= 0 {
      FoundStep(current, e, i);
      assert MergeToolOutput(current, e, info) == current[i := Grown(current[i], e)];
    } else {
      var details := if info.isCommand then [] else Lines(info.output);
      NewShows(e, details, RunningStatus, None, true);
      NewStep(current, e, NewTool(e, info, details, RunningStatus, None, true));
    }
  }

  lemma CompletionStep(current: seq<TimelineEvent>, e: Envelope)
    requires Shown(e) && e.body.ToolCompleted?
    ensures StepShows(Tools(current), Tools(MergeToolCompleted(current, e, e.body.info)), e)
  {
    var info := e.body.info;
    var i := FindTool(current, info);
    if i >= 0 {
      FoundStep(current, e, i);
      assert MergeToolCompleted(current, e, info) == current[i := Grown(current[i], e)];
    } else {
      NewShows(e, Lines(info.completedNote), CompletedStatus, info.command, info.outputAvailable);
      NewStep(current, e, NewTool(e, info, Lines(info.completedNote), CompletedStatus, info.command, info.outputAvailable));
    }
  }

  lemma StartStep(current: seq<TimelineEvent>, e: Envelope)
    requires Shown(e) && e.body.ToolStarted?
    ensures StepShows(Tools(current), Tools(MergeTimelineEvent(current, e)), e)
  {
    var info := e.body.info;
    NewShows(e, [], RunningStatus, info.command, info.outputAvailable);
    NewStep(current, e, NewTool(e, info, [], RunningStatus, info.command, info.outputAvailable));
  }

  lemma GrowKeepsTools(current: seq<TimelineEvent>, title: string, e: Envelope)
    ensures Tools(AppendOrMerge(current, AssistantKind, title, e)) == Tools(current)
    ensures ToolIds(current) ==> ToolIds(AppendOrMerge(current, AssistantKind, title, e))
  {
    var n := |current|;
    var next := AppendOrMerge(current, AssistantKind, title, e);
    if n > 0 && current[n - 1].kind == AssistantKind {
      ToolsSame(current, next);
    } else {
      ToolsAppend(current, next[n]);
    }
  }

  lemma ReasoningKeepsTools(current: seq<TimelineEvent>, e: Envelope, delta: string)
    ensures Tools(MergeReasoning(current, e, delta)) == Tools(current)
    ensures ToolIds(current) ==> ToolIds(MergeReasoning(current, e, delta))
  {
    var n := |current|;
    var next := MergeReasoning(current, e, delta);
    if delta != "" {
      if n > 0 && current[n - 1].kind == ReasoningKind {
        ToolsSame(current, next);
      } else {
        ToolsAppend(current, next[n]);
      }
    }
  }

  lemma ItemKeepsTools(current: seq<TimelineEvent>, e: Envelope, itemId: string, status: Progress)
    requires ToolIds(current)
    ensures Tools(MergeItem(current, e, AssistantItem(itemId), status)) == Tools(current)
    ensures ToolIds(MergeItem(current, e, AssistantItem(itemId), status))
  {
    var next := MergeItem(current, e, AssistantItem(itemId), status);
    if HasId(current, AssistantItem(itemId)) {
      ToolsSame(current, next);
    } else {
      ToolsAppend(current, next[|current|]);
    }
  }

  lemma TurnEndKeepsTools(current: seq<TimelineEvent>, e: Envelope)
    requires ToolIds(current) && !e.ignored && e.body.TurnCompleted?
    ensures Tools(MergeTimelineEvent(current, e)) == Tools(current) && ToolIds(MergeTimelineEvent(current, e))
  {
    var end := Entry(TurnEnd(e.seqNo), EventKind, "Turn Completed", e, [], NoStatus);
    if e.body.version2 {
      PlainAppend(current, end);
    } else {
      GrowKeepsTools(current, "Assistant Message", e);
      PlainAppend(AppendOrMerge(current, AssistantKind, "Assistant Message", e), end);
    }
  }

  lemma PlainAppend(current: seq<TimelineEvent>, item: TimelineEvent)
    requires ToolIds(current) && item.kind != ToolKind
    ensures Tools(current + [item]) == Tools(current) && ToolIds(current + [item])
  {
    ToolsAppend(current, item);
  }

  lemma OtherStep(current: seq<TimelineEvent>, e: Envelope)
    requires ToolIds(current) && !Shown(e)
    ensures Tools(MergeTimelineEvent(current, e)) == Tools(current) && ToolIds(MergeTimelineEvent(current, e))
  {
    if NoOp(current, e) {
      NoOpKeeps(current, e);
    } else {
      match e.body
      case ItemMessage(itemId, completed) => ItemKeepsTools(current, e, itemId, if completed then CompletedStatus else RunningStatus);
      case TurnCompleted(_) => TurnEndKeepsTools(current, e);
      case ReasoningDelta(delta) => ReasoningKeepsTools(current, e, delta);
      case AssistantDelta(_) => GrowKeepsTools(current, "Assistant Message", e);
      case _ => PlainKeepsTools(current, e);
    }
  }

  lemma PlainKeepsTools(current: seq<TimelineEvent>, e: Envelope)
    requires ToolIds(current) && !e.ignored && Appends(current, e) && !e.body.ToolStarted?
    ensures Tools(MergeTimelineEvent(current, e)) == Tools(current) && ToolIds(MergeTimelineEvent(current, e))
  {
    var next := MergeTimelineEvent(current, e);
    assert next == current + [next[|current|]];
    PlainAppend(current, next[|current|]);
  }

  lemma ToolIdsKept(current: seq<TimelineEvent>, e: Envelope)
    requires ToolIds(current) && Shown(e)
    ensures ToolIds(MergeTimelineEvent(current, e))
  {
  }

  lemma OneStep(current: seq<TimelineEvent>, e: Envelope)
    requires ToolIds(current)
    ensures StepShows(Tools(current), Tools(MergeTimelineEvent(current, e)), e) && ToolIds(MergeTimelineEvent(current, e))
  {
    if !Shown(e) {
      OtherStep(current, e);
    } else {
      ToolIdsKept(current, e);
      match e.body
      case ToolStarted(_) => StartStep(current, e);
      case ToolOutput(_) => OutputStep(current, e);
      case ToolCompleted(_) => CompletionStep(current, e);
    }
  }

  // ---- The whole log -------------------------------------------------------

  /** After `n` events, every entry shows its own ones, in the order in which they were opened. */
  ghost predicate ToolsShow(log: seq<Envelope>, tools: seq<TimelineEvent>, n: nat)
    requires n <= |log|
  {
    var starts := Openings(log, n);
    && |tools| == |starts|
    && forall t :: 0 <= t < |tools| ==> ShowsOwn(log, tools[t], starts[t], n)
  }

  ghost predicate ShowsOwn(log: seq<Envelope>, item: TimelineEvent, i: nat, n: nat)
    requires n <= |log|
  {
    i < n && (forall x :: 0 <= x < |Own(log, i, n)| ==> Own(log, i, n)[x] < n) && Shows(item, At(log, Own(log, i, n)))
  }

  lemma {:induction false} OpeningsOk(log: seq<Envelope>, n: nat)
    requires n <= |log|
    ensures forall i: nat :: i in Openings(log, n) <==> i < n && Opens(log, i)
    ensures forall s, t :: 0 <= s < t < |Openings(log, n)| ==> Openings(log, n)[s] < Openings(log, n)[t]
  {
    if n > 0 {
      OpeningsOk(log, n - 1);
      var starts, before := Openings(log, n), Openings(log, n - 1);
      forall s, t | 0 <= s < t < |starts| ensures starts[s] < starts[t] {
        assert s < |before| && before[s] in before;
      }
    }
  }

  lemma NotOwn(log: seq<Envelope>, item: TimelineEvent, i: nat, n: nat)
    requires n < |log| && ShowsOwn(log, item, i, n) && !GoesTo(log, n, i)
    ensures ShowsOwn(log, item, i, n + 1)
  {
    assert Own(log, i, n + 1) == Own(log, i, n);
  }

  lemma NowOwn(log: seq<Envelope>, item: TimelineEvent, next: TimelineEvent, i: nat, n: nat)
    requires n < |log| && ShowsOwn(log, item, i, n) && GoesTo(log, n, i)
    requires Shows(next, At(log, Own(log, i, n)) + [log[n]])
    ensures ShowsOwn(log, next, i, n + 1)
  {
    assert Own(log, i, n + 1) == Own(log, i, n) + [n];
    assert At(log, Own(log, i, n + 1)) == At(log, Own(log, i, n)) + [log[n]];
  }

  /** The test the code makes on entries is the one on the events that opened them. */
  lemma BelongsIsNames(log: seq<Envelope>, item: TimelineEvent, i: nat, n: nat)
    requires n < |log| && ShowsOwn(log, item, i, n) && Shown(log[i]) && Shown(log[n])
    ensures Belongs(item, log[n].body.info) <==> Names(log[n], log[i])
    ensures At(log, Own(log, i, n))[0] == log[i]
  {
    OwnOk(log, i, n);
  }

  /** Entry `t` was opened at this position, and the event belongs to it if it names that one. */
  ghost predicate Matches(log: seq<Envelope>, item: TimelineEvent, i: nat, n: nat)
    requires n < |log|
  {
    i < n && Opens(log, i) && IsTool(log[n].body) && (Belongs(item, log[n].body.info) <==> Names(log[n], log[i]))
  }

  lemma AllMatch(log: seq<Envelope>, tools: seq<TimelineEvent>, n: nat)
    requires n < |log| && ToolsShow(log, tools, n) && Shown(log[n])
    ensures forall t :: 0 <= t < |tools| ==> Matches(log, tools[t], Openings(log, n)[t], n)
  {
    forall t | 0 <= t < |tools| ensures Matches(log, tools[t], Openings(log, n)[t], n) {
      OneMatches(log, tools, n, t);
    }
  }

  lemma OneMatches(log: seq<Envelope>, tools: seq<TimelineEvent>, n: nat, t: nat)
    requires n < |log| && ToolsShow(log, tools, n) && Shown(log[n]) && t < |tools|
    ensures Matches(log, tools[t], Openings(log, n)[t], n)
  {
    var i := Openings(log, n)[t];
    OpeningsOk(log, n);
    assert i in Openings(log, n);
    BelongsIsNames(log, tools[t], i, n);
  }

  lemma NoneOpened(log: seq<Envelope>, tools: seq<TimelineEvent>, next: seq<TimelineEvent>, n: nat)
    requires n < |log| && ToolsShow(log, tools, n) && !Shown(log[n]) && next == tools
    ensures ToolsShow(log, next, n + 1)
  {
    forall t | 0 <= t < |tools| ensures ShowsOwn(log, tools[t], Openings(log, n)[t], n + 1) {
      NotOwn(log, tools[t], Openings(log, n)[t], n);
    }
  }

  lemma OneOpened(log: seq<Envelope>, tools: seq<TimelineEvent>, next: seq<TimelineEvent>, n: nat)
    requires n < |log| && ToolsShow(log, tools, n) && Opens(log, n)
    requires |next| == |tools| + 1 && next[..|tools|] == tools && Shows(next[|tools|], [log[n]])
    ensures ToolsShow(log, next, n + 1)
  {
    OpeningsOk(log, n);
    forall t | 0 <= t < |tools| ensures next[t] == tools[t] && ShowsOwn(log, next[t], Openings(log, n)[t], n + 1) {
      assert next[t] == next[..|tools|][t];
      NotOwn(log, tools[t], Openings(log, n)[t], n);
    }
    assert At(log, Own(log, n, n + 1)) == [log[n]];
  }

  lemma OneGrew(log: seq<Envelope>, tools: seq<TimelineEvent>, next: seq<TimelineEvent>, n: nat, t: nat)
    requires n < |log| && ToolsShow(log, tools, n) && Shown(log[n]) && !log[n].body.ToolStarted?
    requires Target(tools, log[n].body.info, t) && |next| == |tools| && Updates(tools, next, log[n], t)
    ensures ToolsShow(log, next, n + 1)
  {
    var starts := Openings(log, n);
    TargetIs(log, tools, n, t);
    forall s | 0 <= s < |tools| ensures ShowsOwn(log, next[s], starts[s], n + 1) {
      if s == t {
        NowOwn(log, tools[t], next[t], starts[t], n);
      } else {
        NotOwn(log, tools[s], starts[s], n);
      }
    }
  }

  /** The entry that the code finds is the one the event goes to, and the event opens none. */
  lemma TargetIs(log: seq<Envelope>, tools: seq<TimelineEvent>, n: nat, t: nat)
    requires n < |log| && ToolsShow(log, tools, n) && Shown(log[n]) && !log[n].body.ToolStarted?
    requires Target(tools, log[n].body.info, t)
    ensures !Opens(log, n)
    ensures forall s :: 0 <= s < |tools| ==> Openings(log, n)[s] < n && (GoesTo(log, n, Openings(log, n)[s]) <==> s == t)
  {
    AllMatch(log, tools, n);
    OpeningsOk(log, n);
    var starts := Openings(log, n);
    assert Matches(log, tools[t], starts[t], n);
    forall s | 0 <= s < |tools| ensures starts[s] < n && (GoesTo(log, n, starts[s]) <==> s == t) {
      assert Matches(log, tools[s], starts[s], n);
      if s == t {
        forall r | t < r < |tools| ensures !Names(log[n], log[starts[r]]) {
          assert Matches(log, tools[r], starts[r], n);
        }
        LastNamed(log, starts, n, t);
      } else if s < t {
        NotLastNamed(log, starts[s], starts[t], n);
      } else {
        NotNamed(log, starts[s], n);
      }
    }
  }

  lemma LastNamed(log: seq<Envelope>, starts: seq<nat>, n: nat, t: nat)
    requires n < |log| && t < |starts| && Shown(log[n]) && !log[n].body.ToolStarted?
    requires forall i: nat :: i in starts <==> i < n && Opens(log, i)
    requires forall s :: 0 <= s < |starts| ==> starts[s] < n && Opens(log, starts[s])
    requires forall s, u :: 0 <= s < u < |starts| ==> starts[s] < starts[u]
    requires Names(log[n], log[starts[t]]) && forall s :: t < s < |starts| ==> !Names(log[n], log[starts[s]])
    ensures GoesTo(log, n, starts[t])
  {
    forall k: nat | starts[t] < k < n && Opens(log, k) ensures !Names(log[n], log[k]) {
      var r := IndexOf(starts, k);
      assert r > t;
    }
  }

  lemma NotLastNamed(log: seq<Envelope>, i: nat, k: nat, n: nat)
    requires i < k < n < |log| && Opens(log, k) && Names(log[n], log[k])
    ensures !GoesTo(log, n, i)
  {
  }

  lemma NotNamed(log: seq<Envelope>, i: nat, n: nat)
    requires i < n < |log| && !Names(log[n], log[i])
    ensures !GoesTo(log, n, i)
  {
  }

  lemma IndexOf(s: seq<nat>, k: nat) returns (r: nat)
    requires k in s
    ensures r < |s| && s[r] == k
  {
    r :| 0 <= r < |s| && s[r] == k;
  }

  lemma StepKeepsTools(log: seq<Envelope>, tools: seq<TimelineEvent>, next: seq<TimelineEvent>, n: nat)
    requires n < |log| && ToolsShow(log, tools, n) && StepShows(tools, next, log[n])
    ensures ToolsShow(log, next, n + 1)
  {
    var e := log[n];
    if !Shown(e) {
      NoneOpened(log, tools, next, n);
    } else if e.body.ToolStarted? {
      OneOpened(log, tools, next, n);
    } else if forall j :: 0 <= j < |tools| ==> !Belongs(tools[j], e.body.info) {
      OpensNew(log, tools, n);
      OneOpened(log, tools, next, n);
    } else {
      var t: nat :| Target(tools, e.body.info, t) && |next| == |tools| && Updates(tools, next, e, t);
      OneGrew(log, tools, next, n, t);
    }
  }

  lemma OpensNew(log: seq<Envelope>, tools: seq<TimelineEvent>, n: nat)
    requires n < |log| && ToolsShow(log, tools, n) && Shown(log[n])
    requires forall j :: 0 <= j < |tools| ==> !Belongs(tools[j], log[n].body.info)
    ensures Opens(log, n)
  {
    AllMatch(log, tools, n);
    OpeningsOk(log, n);
    forall k: nat | k < n && Opens(log, k) ensures !Names(log[n], log[k]) {
      var r := IndexOf(Openings(log, n), k);
      assert Matches(log, tools[r], Openings(log, n)[r], n);
    }
  }

  lemma {:induction false} ToolsFrom(log: seq<Envelope>, n: nat)
    requires n <= |log|
    ensures ToolIds(Fold([], log[..n])) && ToolsShow(log, Tools(Fold([], log[..n])), n)
    decreases n
  {
    if n > 0 {
      ToolsFrom(log, n - 1);
      FoldNext(log, n - 1);
      OneStep(Fold([], log[..n - 1]), log[n - 1]);
      StepKeepsTools(log, Tools(Fold([], log[..n - 1])), Tools(Fold([], log[..n])), n - 1);
    }
  }

  /**
   The timeline's tool entries, in order, are those that the log opens, and each
   shows its own events and nothing else: every output and completion goes to the
   entry opened last among those it names, by detail reference or by key.
   */
  lemma ToolsAreTold(log: seq<Envelope>)
    ensures |Tools(Fold([], log))| == |Openings(log, |log|)|
    ensures forall t :: 0 <= t < |Openings(log, |log|)| ==>
      ShowsOwn(log, Tools(Fold([], log))[t], Openings(log, |log|)[t], |log|)
  {
    assert log[..|log|] == log;
    ToolsFrom(log, |log|);
  }

  // ---- One tool ------------------------------------------------------------

  /** No tool event has a detail reference, or every one has. */
  predicate Uniform(log: seq<Envelope>) {
    || (forall j :: 0 <= j < |log| && Shown(log[j]) ==> log[j].body.info.detailRef.None?)
    || (forall j :: 0 <= j < |log| && Shown(log[j]) ==> log[j].body.info.detailRef.Some?)
  }

  /** The positions of the shown events of the same tool as the `i`-th, from that one on. */
  function OfTool(log: seq<Envelope>, i: nat, n: nat): (positions: seq<nat>)
    requires i < n <= |log|
    ensures forall x :: 0 <= x < |positions| ==> positions[x] < n
  {
    if n == i + 1 then [i]
    else OfTool(log, i, n - 1) + if Shown(log[n - 1]) && Names(log[n - 1], log[i]) then [n - 1] else []
  }

  /** The tool is not started again later. */
  predicate LastStart(log: seq<Envelope>, i: nat)
    requires i < |log|
  {
    && Shown(log[i]) && log[i].body.ToolStarted?
    && forall j :: i < j < |log| && Shown(log[j]) && log[j].body.ToolStarted? ==> !Names(log[j], log[i])
  }

  /** The event goes to the entry exactly if it is of the same tool. */
  predicate GoesRight(log: seq<Envelope>, j: nat, i: nat)
    requires i < j < |log|
  {
    GoesTo(log, j, i) <==> Shown(log[j]) && Names(log[j], log[i])
  }

  lemma GoesToItsTool(log: seq<Envelope>, j: nat, i: nat)
    requires Uniform(log) && i < j < |log| && LastStart(log, i)
    ensures GoesRight(log, j, i)
  {
    if Shown(log[j]) && Names(log[j], log[i]) {
      forall k: nat | i < k < j && Opens(log, k) ensures !Names(log[j], log[k]) {
        assert Opens(log, i) && !Names(log[k], log[i]);
      }
    }
  }

  lemma {:induction false} OwnAreTheTools(log: seq<Envelope>, i: nat, n: nat)
    requires i < n <= |log| && forall j :: i < j < n ==> GoesRight(log, j, i)
    ensures Own(log, i, n) == OfTool(log, i, n)
    decreases n
  {
    if n > i + 1 {
      OwnAreTheTools(log, i, n - 1);
      assert GoesRight(log, n - 1, i);
    }
  }

  /** The entry carries the event's detail reference, or its key if it has no reference. */
  predicate SameTool(item: TimelineEvent, e: Envelope)
    requires IsTool(e.body)
  {
    && item.tool.Some?
    && if e.body.info.detailRef.Some? then item.tool.value.detailRef == e.body.info.detailRef
       else item.tool.value.key == e.body.info.key
  }

  lemma EntryOf(log: seq<Envelope>, item: TimelineEvent, k: nat, n: nat, i: nat)
    requires i < n <= |log| && ShowsOwn(log, item, k, n) && Opens(log, k) && Uniform(log) && Shown(log[i])
    ensures SameTool(item, log[i]) <==> Names(log[k], log[i])
  {
    OwnOk(log, k, n);
    assert At(log, Own(log, k, n))[0] == log[k];
  }

  lemma LaterAreOthers(log: seq<Envelope>, i: nat, k: nat)
    requires Uniform(log) && i < k < |log| && LastStart(log, i) && Opens(log, k)
    ensures !Names(log[k], log[i])
  {
    assert Opens(log, i);
  }

  /**
   Where no tool event has a detail reference, or every one has: the last entry
   of a tool, by its key or by its reference, shows exactly the tool's events
   since it was last started; it is the only one if nothing of the tool came before.
   */
  lemma ToolIsTold(log: seq<Envelope>, i: nat) returns (t: nat)
    requires Uniform(log) && i < |log| && LastStart(log, i)
    ensures var tools := Tools(Fold([], log));
      && t < |tools| && Shows(tools[t], At(log, OfTool(log, i, |log|))) && SameTool(tools[t], log[i])
      && (forall u :: t < u < |tools| ==> !SameTool(tools[u], log[i]))
      && ((forall j :: 0 <= j < i && Shown(log[j]) ==> !Names(log[j], log[i])) ==>
           forall u :: 0 <= u < |tools| && SameTool(tools[u], log[i]) ==> u == t)
  {
    var tools, starts := Tools(Fold([], log)), Openings(log, |log|);
    ToolsAreTold(log);
    OpeningsOk(log, |log|);
    forall j | i < j < |log| ensures GoesRight(log, j, i) {
      GoesToItsTool(log, j, i);
    }
    OwnAreTheTools(log, i, |log|);
    assert Opens(log, i);
    t := IndexOf(starts, i);
    assert ShowsOwn(log, tools[t], i, |log|);
    EntryOf(log, tools[t], i, |log|, i);
    forall u | 0 <= u < |tools|
      ensures SameTool(tools[u], log[i]) <==> Names(log[starts[u]], log[i])
      ensures starts[u] < |log| && Shown(log[starts[u]]) && (u > t ==> !SameTool(tools[u], log[i]))
    {
      TheEntry(log, tools, starts, t, i, u);
    }
  }

  lemma TheEntry(log: seq<Envelope>, tools: seq<TimelineEvent>, starts: seq<nat>, t: nat, i: nat, u: nat)
    requires Uniform(log) && i < |log| && LastStart(log, i) && |tools| == |starts| && u < |tools| && t < |tools|
    requires starts[t] == i && ShowsOwn(log, tools[u], starts[u], |log|) && starts[u] < |log| && Opens(log, starts[u])
    requires u > t ==> starts[u] > i
    ensures SameTool(tools[u], log[i]) <==> Names(log[starts[u]], log[i])
    ensures Shown(log[starts[u]]) && (u > t ==> !SameTool(tools[u], log[i]))
  {
    EntryOf(log, tools[u], starts[u], |log|, i);
    if u > t { LaterAreOthers(log, i, starts[u]); }
  }
}
