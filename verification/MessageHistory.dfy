/**
 Durable message history: how one stored turn event changes the message,
 input and outbox rows of its session, and the payload stored back for it.

 `Project` states the effect of the transaction on values; the class
 `HistoryTables` performs it row by row and is proved equal to it.
 */
module MessageHistory {
  import opened Prelude
  import opened Json
  import opened Text

  datatype Role = User | Assistant | System

  datatype State = Streaming | Completed | Interrupted

  datatype Message = Message(
    id: string,
    sessionId: string,
    role: Role,
    content: string,
    tokenCount: Option<int>,
    createdAt: string,
    turnId: Option<string>,
    backendItemId: Option<string>,
    historySeq: int,
    state: State,
    phase: Option<string>,
    startEventSeq: Option<int>,
    endEventSeq: Option<int>,
    timelineStartSeq: Option<int>)

  datatype Turn = Turn(
    id: string,
    sessionId: string,
    userMessageId: Option<string>,
    historyVersion: int,
    status: string,
    endedAt: Option<string>,
    failureCode: Option<string>,
    failureMessage: Option<string>)

  datatype InputStatus = InputQueued | InputAccepted | InputFailed | InputUnconfirmed

  datatype TurnInput = TurnInput(
    id: string,
    turnId: string,
    clientRequestId: string,
    content: string,
    status: InputStatus,
    messageId: Option<string>,
    backendItemId: Option<string>,
    acceptedAt: Option<string>,
    errorMessage: Option<string>)

  datatype OutboxRow = OutboxRow(
    messageId: string,
    sessionId: string,
    turnId: string,
    phase: Option<string>,
    state: State,
    historySeq: int,
    content: string)

  /** The rows of one session that a turn's events can touch. `messages` is in storage order. */
  datatype Db = Db(
    messages: seq<Message>,
    turn: Turn,
    inputs: seq<TurnInput>,
    outbox: map<string, OutboxRow>)

  datatype EventType =
    | AssistantStarted | AssistantCompleted | AssistantDelta | UserAccepted
    | TurnCompleted | TurnFailed | TurnCancelled
    | DiffUpdated | ToolStarted | ToolOutput | ToolCompleted | ApprovalRequested
    | OtherEvent(name: string)

  /** An event being stored. `newId` and `now` are what the database and the clock supply. */
  datatype Event = Event(seqNo: int, kind: EventType, payload: Record, newId: string, now: string)

  /** Either the changed rows and the payload to store, or a rolled-back transaction. */
  datatype Outcome = Projected(db: Db, payload: Record) | Rejected

  // ---- Reading the payload -------------------------------------------------

  predicate IsAssistant(e: Event) {
    || e.kind.AssistantStarted?
    || e.kind.AssistantCompleted?
    || (e.kind.AssistantDelta? && Get(e.payload, KeyItemId).Str?)
  }

  predicate IsTerminal(kind: EventType) {
    kind.TurnCompleted? || kind.TurnFailed? || kind.TurnCancelled?
  }

  /** The part of a terminal event's name after "turn." */
  function StatusName(kind: EventType): string {
    match kind
    case TurnCompleted => "completed"
    case TurnFailed => "failed"
    case _ => "cancelled"
  }

  function ItemId(p: Record): string {
    StringOr(Get(p, KeyItemId), "")
  }

  // ---- Rows ----------------------------------------------------------------

  function FindById(rows: seq<Message>, id: string): Option<Message> {
    if rows == [] then None
    else if rows[0].id == id then Some(rows[0])
    else FindById(rows[1..], id)
  }

  predicate IsItem(m: Message, turnId: string, itemId: string) {
    m.turnId == Some(turnId) && m.backendItemId == Some(itemId)
  }

  function FindItem(rows: seq<Message>, turnId: string, itemId: string): Option<Message> {
    if rows == [] then None
    else if IsItem(rows[0], turnId, itemId) then Some(rows[0])
    else FindItem(rows[1..], turnId, itemId)
  }

  /** Update the row with this id, if there is one. */
  function Replace(rows: seq<Message>, m: Message): seq<Message> {
    seq(|rows|, i requires 0 <= i < |rows| => if rows[i].id == m.id then m else rows[i])
  }

  function MaxHistorySeq(rows: seq<Message>): int {
    if rows == [] then 0 else Max(rows[0].historySeq, MaxHistorySeq(rows[1..]))
  }

  predicate EndedIn(m: Message, turnId: string) {
    m.turnId == Some(turnId) && m.role == Assistant && m.endEventSeq.Some?
  }

  /** The largest `endEventSeq` of the turn's assistant messages, or 0. */
  function MaxEnd(rows: seq<Message>, turnId: string): int {
    if rows == [] then 0
    else if EndedIn(rows[0], turnId) then Max(rows[0].endEventSeq.value, MaxEnd(rows[1..], turnId))
    else MaxEnd(rows[1..], turnId)
  }

  predicate Unfinished(m: Message, turnId: string) {
    m.turnId == Some(turnId) && m.role == Assistant && m.state == Streaming
  }

  function UnfinishedRows(rows: seq<Message>, turnId: string): seq<Message> {
    if rows == [] then []
    else (if Unfinished(rows[0], turnId) then [rows[0]] else []) + UnfinishedRows(rows[1..], turnId)
  }

  function Close(m: Message, seqNo: int): Message {
    m.(state := Interrupted, endEventSeq := Some(seqNo))
  }

  /** Every unfinished row of the turn, interrupted at `seqNo`; other rows as they are. */
  function CloseRows(rows: seq<Message>, turnId: string, seqNo: int): seq<Message> {
    seq(|rows|, i requires 0 <= i < |rows| =>
      if Unfinished(rows[i], turnId) then Close(rows[i], seqNo) else rows[i])
  }

  function FindInput(inputs: seq<TurnInput>, turnId: string, clientId: string): Option<TurnInput> {
    if inputs == [] then None
    else if inputs[0].turnId == turnId && inputs[0].clientRequestId == clientId then Some(inputs[0])
    else FindInput(inputs[1..], turnId, clientId)
  }

  function ReplaceInput(inputs: seq<TurnInput>, input: TurnInput): seq<TurnInput> {
    seq(|inputs|, i requires 0 <= i < |inputs| => if inputs[i].id == input.id then input else inputs[i])
  }

  const UNCONFIRMED_MESSAGE := "Turn ended before input acceptance was confirmed."

  function ExpireInputs(inputs: seq<TurnInput>, turnId: string): seq<TurnInput> {
    seq(|inputs|, i requires 0 <= i < |inputs| =>
      if inputs[i].turnId == turnId && inputs[i].status == InputQueued
      then inputs[i].(status := InputUnconfirmed, errorMessage := Some(UNCONFIRMED_MESSAGE))
      else inputs[i])
  }

  // ---- Outbox --------------------------------------------------------------

  /** Upsert with an empty update: a message that already has an outbox row keeps it. */
  function Enqueue(outbox: map<string, OutboxRow>, turn: Turn, m: Message): map<string, OutboxRow> {
    if IsBlank(m.content) || m.id in outbox then outbox
    else outbox[m.id := OutboxRow(m.id, turn.sessionId, turn.id, m.phase, m.state, m.historySeq, m.content)]
  }

  function EnqueueAll(outbox: map<string, OutboxRow>, turn: Turn, rows: seq<Message>): map<string, OutboxRow> {
    if rows == [] then outbox
    else Enqueue(EnqueueAll(outbox, turn, rows[..|rows| - 1]), turn, rows[|rows| - 1])
  }

  // ---- Snapshots -----------------------------------------------------------

  function StringOrNull(o: Option<string>): Value {
    if o.Some? then Str(o.value) else Null
  }

  function NumberOrNull(o: Option<int>): Value {
    if o.Some? then Num(o.value) else Null
  }

  function RoleValue(r: Role): Value {
    Str(match r case User => "user" case Assistant => "assistant" case System => "system")
  }

  function StateValue(s: State): Value {
    Str(match s case Streaming => "streaming" case Completed => "completed" case Interrupted => "interrupted")
  }

  /** The row as JSON: every column, absent ones as null. */
  function Snapshot(m: Message): Record {
    map[
      KeyId := Str(m.id),
      KeySessionId := Str(m.sessionId),
      KeyRole := RoleValue(m.role),
      KeyContent := Str(m.content),
      KeyTokenCount := NumberOrNull(m.tokenCount),
      KeyCreatedAt := Str(m.createdAt),
      KeyTurnId := StringOrNull(m.turnId),
      KeyBackendItemId := StringOrNull(m.backendItemId),
      KeyHistorySeq := Num(m.historySeq),
      KeyState := StateValue(m.state),
      KeyPhase := StringOrNull(m.phase),
      KeyStartEventSeq := NumberOrNull(m.startEventSeq),
      KeyEndEventSeq := NumberOrNull(m.endEventSeq),
      KeyTimelineStartSeq := NumberOrNull(m.timelineStartSeq)]
  }

  function Snapshots(rows: seq<Message>): seq<Value> {
    seq(|rows|, i requires 0 <= i < |rows| => Obj(Snapshot(rows[i])))
  }

  // ---- The transaction -----------------------------------------------------

  function NewMessage(db: Db, e: Event, role: Role, content: string, itemId: string): Message {
    Message(e.newId, db.turn.sessionId, role, content, None, e.now, Some(db.turn.id), Some(itemId),
            MaxHistorySeq(db.messages) + 1, Completed, None, Some(e.seqNo), None, None)
  }

  function EndTurn(turn: Turn, e: Event): Turn {
    var ended := turn.(status := StatusName(e.kind), endedAt := Some(e.now));
    if e.kind.TurnFailed? then
      ended.(failureCode := Some(StringOr(Get(e.payload, KeyCode), "RUNNER_FAILED")),
             failureMessage := Some(StringOr(Get(e.payload, KeyMessage), "Runner failed")))
    else ended
  }

  function ClosedRows(rows: seq<Message>, seqNo: int): seq<Message> {
    seq(|rows|, i requires 0 <= i < |rows| => Close(rows[i], seqNo))
  }

  function ProjectTerminal(db: Db, e: Event): Outcome {
    if db.turn.historyVersion != 2 then Projected(db, e.payload)
    else
      var closed := ClosedRows(UnfinishedRows(db.messages, db.turn.id), e.seqNo);
      Projected(
        Db(CloseRows(db.messages, db.turn.id, e.seqNo),
           EndTurn(db.turn, e),
           ExpireInputs(db.inputs, db.turn.id),
           EnqueueAll(db.outbox, db.turn, closed)),
        (e.payload - {KeyContent}) + map[KeyHistoryVersion := Num(2), KeyMessages := Arr(Snapshots(closed))])
  }

  function InputFor(db: Db, e: Event): Option<TurnInput> {
    var clientId := StringOr(Get(e.payload, KeyClientId), "");
    if clientId == "" then None else FindInput(db.inputs, db.turn.id, clientId)
  }

  /** Record the acceptance of `input`, if there is one, as message `m`. */
  function AcceptInput(inputs: seq<TurnInput>, input: Option<TurnInput>, m: Message, itemId: string, now: string): seq<TurnInput> {
    if input.None? then inputs
    else ReplaceInput(inputs, input.value.(
      status := InputAccepted,
      messageId := Some(m.id),
      backendItemId := Some(itemId),
      acceptedAt := if input.value.acceptedAt.Some? then input.value.acceptedAt else Some(now),
      errorMessage := None))
  }

  function FinishUser(db: Db, e: Event, itemId: string, rows: seq<Message>, m: Message): Outcome {
    var input := InputFor(db, e);
    Projected(
      db.(messages := rows, inputs := AcceptInput(db.inputs, input, m, itemId, e.now)),
      e.payload + map[KeyMessage := Obj(Snapshot(m)),
                      KeyClientRequestId := if input.Some? then Str(input.value.clientRequestId) else Null])
  }

  function UserContent(db: Db, e: Event): string {
    var input := InputFor(db, e);
    StringOr(Get(e.payload, KeyContent), if input.Some? then input.value.content else "")
  }

  function ProjectUser(db: Db, e: Event, itemId: string): Outcome {
    var existing := FindItem(db.messages, db.turn.id, itemId);
    if existing.Some? then FinishUser(db, e, itemId, db.messages, existing.value)
    else if Get(e.payload, KeyInitial) == Bool(true) && db.turn.userMessageId.Some? then
      var initial := FindById(db.messages, db.turn.userMessageId.value);
      if initial.None? then Rejected
      else
        var m := initial.value.(turnId := Some(db.turn.id), backendItemId := Some(itemId),
                                startEventSeq := Some(e.seqNo), endEventSeq := Some(e.seqNo));
        FinishUser(db, e, itemId, Replace(db.messages, m), m)
    else
      var m := NewMessage(db, e, User, UserContent(db, e), itemId).(endEventSeq := Some(e.seqNo));
      FinishUser(db, e, itemId, db.messages + [m], m)
  }

  function StartMessage(db: Db, e: Event, itemId: string): Message {
    NewMessage(db, e, Assistant, "", itemId).(
      state := Streaming, timelineStartSeq := Some(MaxEnd(db.messages, db.turn.id)))
  }

  /** The assistant row after this event: a completion replaces the text, a delta extends it. */
  function Advance(m: Message, e: Event): Message {
    var text := StringOr(Get(e.payload, KeyText), "");
    var phase := Get(e.payload, KeyPhase);
    m.(content := if e.kind.AssistantCompleted? then text
                  else if e.kind.AssistantDelta? then m.content + text
                  else m.content,
       phase := if phase.Str? then Some(phase.s) else m.phase,
       state := if e.kind.AssistantCompleted? then Completed else m.state,
       endEventSeq := if e.kind.AssistantCompleted? then Some(e.seqNo) else m.endEventSeq)
  }

  function ProjectAssistant(db: Db, e: Event, itemId: string): Outcome {
    var turn := db.turn.(historyVersion := 2);
    var existing := FindItem(db.messages, db.turn.id, itemId);
    if existing.Some? && existing.value.state != Streaming then
      Projected(db.(turn := turn),
                map[KeyItemId := Str(itemId), KeyMessageId := Str(existing.value.id), KeyIgnored := Bool(true)])
    else
      var m := Advance(if existing.Some? then existing.value else StartMessage(db, e, itemId), e);
      Projected(
        db.(turn := turn,
            messages := if existing.Some? then Replace(db.messages, m) else db.messages + [m],
            outbox := if e.kind.AssistantCompleted? then Enqueue(db.outbox, turn, m) else db.outbox),
        e.payload + map[KeyMessageId := Str(m.id)]
          + if existing.None? || !e.kind.AssistantDelta? then map[KeyMessage := Obj(Snapshot(m))] else map[])
  }

  function Project(db: Db, e: Event): Outcome {
    if IsTerminal(e.kind) then ProjectTerminal(db, e)
    else if !IsAssistant(e) && !e.kind.UserAccepted? then Projected(db, e.payload)
    else
      var itemId := ItemId(e.payload);
      if itemId == "" then Rejected
      else if e.kind.UserAccepted? then ProjectUser(db, e, itemId)
      else ProjectAssistant(db, e, itemId)
  }
}
