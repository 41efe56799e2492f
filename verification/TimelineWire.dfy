/**
 The wire form of a stored event: message snapshots lose what the enclosing
 event already says, and tool, approval and diff payloads keep only listed
 scalar fields.
 */
module TimelineWire {
  import opened Json
  import opened MessageHistory

  const MAX_TIMELINE_METADATA_LENGTH := 4096

  predicate IsScalar(v: Value) {
    v.Str? || v.Num? || v.Bool?
  }

  function TimelineScalar(v: Value): Value {
    if v.Str? && |v.s| > MAX_TIMELINE_METADATA_LENGTH
    then Str(v.s[..MAX_TIMELINE_METADATA_LENGTH] + "\U{2026}")
    else v
  }

  function CopyFields(r: Record, keys: set<Field>): (copy: Record)
    ensures copy.Keys <= keys
  {
    map k | k in keys && k in r && IsScalar(r[k]) :: TimelineScalar(r[k])
  }

  const APPROVAL_FIELDS: set<Field> := {
    OtherKey("requestId"), OtherKey("kind"), OtherKey("reason"), KeyItemId, OtherKey("approvalId"),
    OtherKey("autoApproveAt"), OtherKey("pausedAt"), OtherKey("pausedRemainingMs") }

  const TOOL_FIELDS: set<Field> := {
    KeyPhase, OtherKey("toolCallId"), OtherKey("tool_call_id"), OtherKey("toolId"), KeyItemId,
    OtherKey("item_id"), OtherKey("callId"), KeyId, OtherKey("title"), OtherKey("kind"),
    OtherKey("status"), OtherKey("command"), OtherKey("cwd"), OtherKey("path"), OtherKey("summary"),
    OtherKey("result"), OtherKey("outcome"), OtherKey("exitCode"), OtherKey("durationMs"),
    OtherKey("outputAvailable"), OtherKey("outputBytes") }

  const OUTPUT_FIELDS: set<Field> := {
    OtherKey("toolCallId"), OtherKey("tool_call_id"), OtherKey("toolId"), KeyItemId,
    OtherKey("item_id"), OtherKey("callId"), KeyId, OtherKey("title"), OtherKey("kind"),
    OtherKey("stream"), OtherKey("taskId"), OtherKey("outputAvailable"), OtherKey("outputBytes") }

  function SummarizeDiff(r: Record): Record {
    var text := StringOr(Get(r, KeyUnifiedDiff), StringOr(Get(r, KeyDiff), ""));
    map[KeyDiffAvailable := Bool(Get(r, KeyDiffAvailable) == Bool(true) || text != ""),
        KeySnapshotAvailable := Bool(Get(r, KeySnapshotAvailable) != Bool(false))]
  }

  function SummarizeSnapshot(m: Record, itemId: Value): Record {
    var summary := m - {KeySessionId, KeyTokenCount, KeyTurnId};
    if itemId.Str? && Get(summary, KeyBackendItemId) == itemId then summary - {KeyBackendItemId} else summary
  }

  function SummarizeEntry(v: Value): Value {
    if v.Obj? then Obj(SummarizeSnapshot(v.fields, Undefined)) else v
  }

  function SummarizeMessage(kind: EventType, r: Record): Record {
    var message := Get(r, KeyMessage);
    if message.Obj? && Get(message.fields, KeyId).Str? then
      var content := Get(message.fields, KeyContent);
      var summary := r[KeyMessage := Obj(SummarizeSnapshot(message.fields, Get(r, KeyItemId)))];
      if kind.AssistantCompleted? && StrictEquals(Get(r, KeyText), content) then summary - {KeyText}
      else if kind.UserAccepted? && StrictEquals(Get(r, KeyContent), content) then summary - {KeyContent}
      else summary
    else r
  }

  function SummarizeMessages(r: Record): Record {
    var messages := Get(r, KeyMessages);
    if messages.Arr? then
      r[KeyMessages := Arr(seq(|messages.items|, i requires 0 <= i < |messages.items| => SummarizeEntry(messages.items[i])))]
    else r
  }

  function Summarize(kind: EventType, r: Record): Record {
    match kind
    case DiffUpdated => SummarizeDiff(r)
    case ToolOutput => CopyFields(r, OUTPUT_FIELDS)
    case ToolStarted => CopyFields(r, TOOL_FIELDS)
    case ToolCompleted => CopyFields(r, TOOL_FIELDS)
    case ApprovalRequested => CopyFields(r, APPROVAL_FIELDS)
    case _ => SummarizeMessages(SummarizeMessage(kind, r))
  }
}
