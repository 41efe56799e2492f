/** What the browser is told: the wire form of diffs, tools, approvals and messages. */
module WireForm {
  import opened Json
  import opened MessageHistory
  import opened TimelineWire
  import opened DiffCompaction

  // ---- Diffs ---------------------------------------------------------------

  /** The diff's text is read from one field only: the second is not looked at if the first is a text, be it empty. */
  predicate ReadsText(r: Record) {
    if Get(r, KeyUnifiedDiff).Str? then Get(r, KeyUnifiedDiff) != Str("")
    else Get(r, KeyDiff).Str? && Get(r, KeyDiff) != Str("")
  }

  /** The wire form tells whether there is a diff, and whether its snapshot can be had, and nothing else. */
  lemma DiffTells(r: Record)
    ensures var wire := Summarize(EventType.DiffUpdated, r);
      && wire.Keys == {KeyDiffAvailable, KeySnapshotAvailable}
      && Get(wire, KeyDiffAvailable) == Bool(Get(r, KeyDiffAvailable) == Bool(true) || ReadsText(r))
      && Get(wire, KeySnapshotAvailable) == Bool(Get(r, KeySnapshotAvailable) != Bool(false))
  {
  }

  /** The first text is empty, the second is not, and nothing else says that there is a diff. */
  predicate Overlooked(full: Value) {
    && full.Obj? && Get(full.fields, KeyDiffAvailable) != Bool(true)
    && Get(full.fields, KeyUnifiedDiff) == Str("") && Get(full.fields, KeyDiff).Str? && Get(full.fields, KeyDiff).s != ""
  }

  /**
   Stored whole or as its summary, a diff is told to the browser alike, as it
   arrived, exactly if its second text is not overlooked.
   */
  lemma ToldAsItArrived(full: Record)
    ensures var whole, short := Summarize(EventType.DiffUpdated, full), SummarizeDiffPayload(Obj(full));
      && short.Obj?
      && Get(Summarize(EventType.DiffUpdated, short.fields), KeyDiffAvailable) == Bool(HasDiff(Obj(full)))
      && (Get(whole, KeyDiffAvailable) == Bool(HasDiff(Obj(full))) <==> !Overlooked(Obj(full)))
  {
    SummaryTells(Obj(full));
    DiffTells(full);
    DiffTells(SummarizeDiffPayload(Obj(full)).fields);
  }

  // ---- Tools and approvals -------------------------------------------------

  /** The kinds of events of which only listed fields are sent. */
  predicate SendsFields(kind: EventType) {
    kind.ToolStarted? || kind.ToolOutput? || kind.ToolCompleted? || kind.ApprovalRequested?
  }

  /** A value as it is sent: texts of more than 4096 units are cut there, and anything but texts, numbers and flags is left out. */
  ghost predicate SentAs(v: Value, sent: Value) {
    match v
    case Str(s) =>
      if |s| <= 4096 then sent == v else sent.Str? && |sent.s| == 4097 && sent.s[..4096] == s[..4096] && sent.s[4096] == '\U{2026}'
    case Num(_) => sent == v
    case Bool(_) => sent == v
    case _ => sent == Undefined
  }

  /** The fields that a kind of event sends, whatever is in them. */
  function FieldsOf(kind: EventType): set<Field>
    requires SendsFields(kind)
  {
    if kind.ApprovalRequested? then APPROVAL_FIELDS else if kind.ToolOutput? then OUTPUT_FIELDS else TOOL_FIELDS
  }

  /** Each of these fields is sent as it is stored, and no other one is. */
  lemma FieldsAreSent(kind: EventType, r: Record, k: Field)
    requires SendsFields(kind)
    ensures if k in FieldsOf(kind) then SentAs(Get(r, k), Get(Summarize(kind, r), k)) else k !in Summarize(kind, r)
  {
    Copied(r, FieldsOf(kind), k);
  }

  lemma Copied(r: Record, keys: set<Field>, k: Field)
    ensures if k in keys then SentAs(Get(r, k), Get(CopyFields(r, keys), k)) else k !in CopyFields(r, keys)
  {
  }

  /** What names a tool is always sent: its call, its item, its title and its kind. */
  lemma NamesAreSent(kind: EventType, r: Record, k: Field)
    requires kind.ToolStarted? || kind.ToolOutput? || kind.ToolCompleted?
    requires k in [OtherKey("toolCallId"), OtherKey("tool_call_id"), OtherKey("toolId"), KeyItemId, OtherKey("item_id"),
                   OtherKey("callId"), KeyId, OtherKey("title"), OtherKey("kind"), OtherKey("outputAvailable")]
    ensures SentAs(Get(r, k), Get(Summarize(kind, r), k))
  {
  }

  /** What was sent once is sent again as it is. */
  lemma SentOnce(kind: EventType, r: Record)
    requires SendsFields(kind) || kind.DiffUpdated?
    ensures Summarize(kind, Summarize(kind, r)) == Summarize(kind, r)
  {
  }

  // ---- Messages ------------------------------------------------------------

  /** A text that is not sent is that of the message in the same event. */
  predicate SentInside(wire: Record, v: Value) {
    Get(wire, KeyMessage).Obj? && Get(Get(wire, KeyMessage).fields, KeyContent) == v
  }

  /** Every other event keeps all its fields but the messages in it; a completed or accepted text may be left to its message. */
  lemma NothingIsLost(kind: EventType, r: Record, k: Field)
    requires !SendsFields(kind) && !kind.DiffUpdated? && k != KeyMessage && k != KeyMessages
    ensures var wire := Summarize(kind, r);
      || Get(wire, k) == Get(r, k)
      || (k !in wire && SentInside(wire, Get(r, k))
          && ((kind.AssistantCompleted? && k == KeyText) || (kind.UserAccepted? && k == KeyContent)))
  {
    MessageKeeps(kind, r, k);
    ListKeeps(SummarizeMessage(kind, r), k);
  }

  lemma MessageKeeps(kind: EventType, r: Record, k: Field)
    requires k != KeyMessage
    ensures var wire := SummarizeMessage(kind, r);
      || Get(wire, k) == Get(r, k)
      || (k !in wire && SentInside(wire, Get(r, k))
          && ((kind.AssistantCompleted? && k == KeyText) || (kind.UserAccepted? && k == KeyContent)))
  {
  }

  lemma ListKeeps(r: Record, k: Field)
    requires k != KeyMessages
    ensures Get(SummarizeMessages(r), k) == Get(r, k) && (k in SummarizeMessages(r) <==> k in r)
    ensures Get(SummarizeMessages(r), KeyMessage) == Get(r, KeyMessage)
  {
  }
}
