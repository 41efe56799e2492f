# AgentWaypoint: what server and clients agree on

A Dafny model of the protocols that keep coding-agent runs, terminals and
outbound messages in agreement between the AgentWaypoint server, its runner and
its browser clients, with proofs of what they promise over whole runs.

`dafny verify dfyconfig.toml` checks everything.

## How the model is built

Each protocol has a specification by values: a state, one function per operation
or transaction, and a run of such steps in any order the program allows. The
theorems are about all such runs. Where the program changes things in place,
a class or a method with loops is proved to do exactly what those functions say.

| part | files |
|---|---|
| Message history: projection on the server, wire form, browser copy | MessageHistory, HistoryTables, HistoryInvariants, HistoryContent, HistoryInputs, HistoryStored, TimelineWire, WireForm, HistoryClient, Replication, CleanPayloads, Settling, UnreliableDelivery, TimelineRanges, QueuedInputs, ListOrder |
| Event stream framing | EventStream |
| Terminal hub | TerminalHub, TerminalInvariants, TerminalReplica, TerminalGreetings, TerminalOutput, TerminalIdle, TerminalOrphans, TerminalControl, TerminalEntry |
| Creating against deleting | TerminalLifecycle, CreateDelete, DeleteEffect, LifecycleTable |
| Provider switch | ProviderSwitch, ProviderUpdate |
| Approvals | ApprovalQueue, ApprovalTimers, ApprovalRestart, ApprovalDecisions, ApprovalService |
| Timeline panel | Timeline, TimelineGuard, TimelinePaging, TimelinePanel, TimelineText, TimelineTools, TimelineEntries, TimelineRefs |
| Runner stream | RunnerStream, RunnerDelivery, RunnerGuarantee, RunnerClash, RunnerExact, RunnerTurn |
| Outbox dispatcher | Dispatcher, OutboxDrain |
| Diff compaction | DiffCompaction, DiffLoop, DiffScript |
| Shared | Prelude, Json, Text |

## What is taken from the outside

- Ids, times and the next event number come in as parameters: ids are new, a
  clock never goes back, event numbers of a turn rise, and a time stamp that was
  read before a transaction may be older than the clock but not ahead of it.
- A database transaction is one step; a rejected one changes nothing. A public
  operation of the approval queue is one step too.
- A timer does not run out before its due time. A connection's `send` does not
  throw. A failing switch command changes nothing.
- An xterm is any emulator whose serialized form restores its screen exactly;
  a task that writes to it is one step, because only its end lets the next begin.
- Nothing is appended to a runner stream behind its terminal event: a turn is
  taken off the active ones before that event, and backends append for active
  turns. Of the append itself, `RunnerTurn` proves that it is a step of the runs
  until then.
- A live event is in the database before it is streamed, and one browser stream
  delivers its events in rising order.

## Where the code promises less than it seems to

- A delta may change `phase` on the server only; the client sees it with the
  next snapshot. `StepInSync` gives the exact condition.
- Raw payloads that use the names the projection publishes can mislead the
  client; `CleanIsExact` gives the exact condition.
- The comment in the approval queue calls its timers restart-safe; an immediate
  approval (timeout zero) is not (`RestartKeepsIff`).
- A terminal closed while it is starting leaves its process running and listed
  nowhere, if the spawn succeeds after that; whether it does so before or after
  the closing ends makes no difference (`OrphanIff`).
- Appends to a runner stream may overlap. Only the first listener can rely on
  getting every event; any other may be done without the last ones, and a
  consumer whose `sinceSeq` is ahead of the log gets events that are not later
  than it (`AlwaysRightIff`, `ClashLoses`).
- A consumer that is slow to replay a full buffer misses an event for each one
  evicted meanwhile, and they need not be the evicted ones (`SkipsOnePerEviction`,
  `EvictionSkips`).
- A connection that attaches to a terminal whose spawn returned while it was being
  closed may be dropped without the exit message (`ExitReachesAll`).
- A diff whose `unifiedDiff` is an empty text and whose `diff` is not is told to
  the browser as no diff while it is stored whole, and as one once it is
  summarised (`ToldAsItArrived`).
- The 120 seconds of a renewal count from the stamp it wrote, not from the moment
  the caller learns of its success.

## Model

| member | source | states |
|---|---|---|
| `Replication.HistoryReplication` | apps/web/src/app/history-messages.ts:34-103 | For every log of a version-2 turn and every point of it: the history loaded there plus the events published afterwards, as summarised for the wire, give exactly the server's messages in history order, on every field but `phase`; `phase` agrees too as long as no event makes it drift |
| `Replication.PublishedSplits` | apps/api/src/modules/turns/turns.service.ts:1353-1362 | What is published after a point of the log is the rest of what is published altogether |
| `Replication.StepInSync` | apps/api/src/modules/turns/message-history.ts:191-237 | One stored event keeps a synchronised client synchronised; `phase` stays equal if and only if the event is not a delta that changes the phase of an existing message |
| `Replication.NamesAgree` | apps/web/src/app/history-messages.ts:34-43 | What the browser reads off a synchronised entry: role, state, turn, item and bounds of the row, by their names |
| `CleanPayloads.CleanIsExact` | apps/web/src/app/history-messages.ts:63-103 | The client stays in step in every turn if and only if the raw payload does not use the reserved names `ignored`, `message`, `messages` in a way the client acts on; for every other payload a turn is given that diverges |
| `UnreliableDelivery.UnreliableDelivery` | apps/web/src/app/history-messages.ts:45-103 | Any reordering, repetition and loss of published events in which each message was final when loaded or its closing snapshot arrives once ends with the server's messages, in history order, on every field with `phase` |
| `Settling.SettlesAt` | apps/api/src/modules/turns/message-history.ts:191-194 | A closed row that looks final is final at every later point of the log |
| `HistoryClient.MergeHistoryMessages` | apps/web/src/app/history-messages.ts:45-61 | The merge loop over an insertion-ordered map computes the specified merge |
| `HistoryTables.HistoryTables.ProjectMessageEvent` | apps/api/src/modules/turns/message-history.ts:54-237 | The in-place transaction has exactly the effect of the projection the theorems are about, and none at all when it is rolled back |
| `HistoryTables.HistoryTables.CloseUnfinished` | apps/api/src/modules/turns/message-history.ts:81-92 | The loop over unfinished messages closes all of them and queues each non-blank one once |
| `HistoryTables.HistoryTables.CreateHistoryMessage` | apps/api/src/modules/turns/message-history.ts:4-15 | A new message gets the next history number |
| `HistoryTables.HistoryTables.EnqueueAssistantMessage` | apps/api/src/modules/turns/message-history.ts:21-51 | Upsert without update: a message that already has an outbox row keeps it |
| `HistoryTables.HistoryTables.AcceptUserMessage` | apps/api/src/modules/turns/message-history.ts:129-189 | A user message is linked, created or recognised, and its input accepted; without its row the transaction fails and changes nothing |
| `HistoryTables.HistoryTables.ExtendAssistantMessage` | apps/api/src/modules/turns/message-history.ts:191-237 | A delta or completion extends, closes or ignores the message of its item |
| `HistoryInvariants.RunKeepsOk` | apps/api/src/modules/turns/message-history.ts:54-237 | Over every log: unique ids, rising history numbers, one row per backend item, states and ends that fit, and the outbox |
| `HistoryInvariants.ClosedStaysClosed` | apps/api/src/modules/turns/message-history.ts:191-194 | A completed or interrupted message never changes state or content again |
| `HistoryInvariants.NothingStreamsAfterTerminal` | apps/api/src/modules/turns/message-history.ts:79-121 | Right after a terminal event no message is streaming |
| `HistoryInvariants.OutboxFollowsClosing` | apps/api/src/modules/turns/message-history.ts:21-51 | An assistant message has an outbox row if and only if it is closed with non-blank content, with its session, turn, phase, state, place and content, forever |
| `HistoryContent.ContentIsWhatArrived` | apps/api/src/modules/turns/message-history.ts:195-227 | A message's stored text is its item's deltas joined in order, or its completion's text, up to the first event that closed it, which also tells its state and its bounds; it exists exactly if an event spoke of it |
| `HistoryInputs.InputsAreWhatArrived` | apps/api/src/modules/turns/message-history.ts:93-181 | A queued input is accepted if and only if a stored acceptance of its turn carried its request, and then points at the message row of the last such event's item and keeps the time of the first; otherwise it is unconfirmed if and only if the turn ended; it is never failed |
| `HistoryInputs.TurnIsAsItEnded` | apps/api/src/modules/turns/message-history.ts:100-118 | The turn's row is that of its last terminal event: completed, failed or cancelled, with its time, and with the code and message of the last failure |
| `HistoryInputs.UserMessageIsWhatArrived` | apps/api/src/modules/turns/message-history.ts:125-169 | The first stored acceptance of an item leaves a completed user row with the event's own text or else its request's, the turn's linked message if it is the initial one; later ones change no message |
| `HistoryStored.AcceptanceTells` | apps/api/src/modules/turns/message-history.ts:182-186 | The stored acceptance names the request exactly if an input of the turn has it; its other fields are as they came |
| `HistoryStored.AssistantTells` | apps/api/src/modules/turns/message-history.ts:191-237 | A stored assistant event names the row of its item; one that comes after the row was closed is marked as ignored and carries nothing else |
| `HistoryStored.VersionFollows` | apps/api/src/modules/turns/message-history.ts:189 | In any log a turn is of the second version afterwards exactly if it was before or an assistant event was stored |
| `HistoryStored.FirstVersionKeeps` | apps/api/src/modules/turns/message-history.ts:79-80 | Until then no log changes the turn's row or the outbox, not even the turn's end |
| `TimelineRanges.RangesCover` | apps/api/src/modules/turns/message-history.ts:195-225 | The ranges (timelineStartSeq, endEventSeq] of closed assistant messages cover every number up to the largest end, in every run |
| `TimelineRanges.DisjointIffOneAtATime` | apps/api/src/modules/turns/message-history.ts:195-225 | They are pairwise disjoint if and only if no message started while another was streaming |
| `TimelineRanges.SameRange` | apps/web/src/app/history-messages.ts:166-175 | The browser's range test on its copy is the server's interval |
| `QueuedInputs.InputsConverge` | apps/web/src/app/history-messages.ts:105-164 | For any order and repetition of acknowledgements and events: an input shows as accepted exactly if something said so, is listed once exactly if anything was said, is settled exactly if something said so or its turn ended after it was first heard of, and never goes back |
| `QueuedInputs.MergeEntries` | apps/web/src/app/history-messages.ts:105-127 | One merge leaves the entry as the update tells it, or as it was if that would take it back, raises its standing to the larger of the two, and leaves all other entries alone |
| `QueuedInputs.InputsAreTold` | apps/web/src/app/history-messages.ts:105-164 | The whole entry of an input is told from the events about it alone: the last one that could still be heard, with the error kept where it is silent, and unconfirmed if its turn ended while it was queued |
| `ListOrder.InputsInOrder` | apps/web/src/app/history-messages.ts:123-126 | Whatever came in what order, the waiting inputs are listed by time of creation, then by id |
| `ListOrder.SortOrders` | apps/web/src/app/history-messages.ts:56-60 | Sorting messages that all have history numbers, or that all have none, only reorders them: by number, or by time of creation and then by id |
| `EventStream.ConsumeTurnEvents` | apps/api/src/modules/runner/http-runner.adapter.ts:99-148 | The chunk-by-chunk decoder hands on exactly what decoding the joined text gives, for every way of cutting it, and stops at the first payload that does not parse |
| `EventStream.FlushEvent` | apps/api/src/modules/runner/http-runner.adapter.ts:105-119 | The end of an event: nothing for an empty or keepalive event, else the parsed payload |
| `EventStream.SplitConcat` | apps/api/src/modules/runner/http-runner.adapter.ts:127-143 | Splitting a text into lines after it was cut anywhere gives the same lines |
| `EventStream.DecodeInvertsEncode` | apps/api/src/modules/turns/turns.controller.ts:142-159 | Decoding the id/event/data framing, with keepalive comments and the retry hint in between, gives back the payloads in order (sections 9.2.5 and 9.2.6 of the WHATWG HTML Standard) |
| `EventStream.BrokenStream` | apps/api/src/modules/runner/http-runner.adapter.ts:122-148 | A stream that breaks off anywhere yields a beginning of the events, never a damaged one |
| `TerminalReplica.TerminalReplication` | apps/web/src/components/terminal/TerminalView.tsx:119-173 | In every interleaving of output, resizes, attaches, detaches and closing: each connection with its snapshot shows the server's number, screen and size, and nobody ever sees a gap |
| `TerminalReplica.NeverAGap` | apps/web/src/components/terminal/TerminalView.tsx:141-158 | The `sequence + 1` check never fails, wherever a connection stands in its messages, also after it was detached |
| `TerminalReplica.WriterAgreement` | apps/api/src/modules/terminals/terminals.service.ts:307-384 | The keyboard is live exactly on the connection whose input the server accepts |
| `TerminalOutput.NoOutputLost` | apps/api/src/modules/terminals/terminals.service.ts:284-301 | What the process printed is what was written followed by what is queued; the screen is exactly the writes and effective resizes, and the sequence number counts them |
| `TerminalInvariants.LifeKeepsServer` | apps/api/src/modules/terminals/terminals.service.ts:307-425 | In every reachable state: the writer is nobody or an attached connection of a running terminal, at most eight connections, a running terminal has an unattached time exactly when nobody is attached and one that ended has none, a process with more than a megabyte of queued output is paused, and a listed running terminal has a live process |
| `TerminalInvariants.StepKeepsServer` | apps/api/src/modules/terminals/terminals.service.ts:278-462 | Every single step keeps these invariants |
| `TerminalInvariants.PausedHasOutput` | apps/api/src/modules/terminals/terminals.service.ts:284-298 | The process is paused only while queued output is left that will resume it |
| `TerminalOrphans.OrphanIff` | apps/api/src/modules/terminals/terminals.service.ts:250-272 | Over whole runs: a process is alive with its terminal in no list exactly if a close for good began while the terminal was starting, the spawn succeeded after that, before or after the closing ended, and the process has not ended on its own |
| `TerminalOrphans.OrphanHappens` | apps/api/src/modules/terminals/terminals.service.ts:407-419 | Two runs in which that happens, one in each order: a user closes a terminal while it is starting |
| `TerminalOrphans.OrphanStays` | apps/api/src/modules/terminals/terminals.service.ts:135-139 | Nothing but the process's own end reaches it |
| `TerminalOrphans.UserCloseSticks` | apps/api/src/modules/terminals/terminals.service.ts:392-425 | After a user's close, also one during another close, a terminal is gone or being closed for good in every later state, unless the process refuses to close |
| `TerminalOrphans.UserCloseEnds` | apps/api/src/modules/terminals/terminals.service.ts:392-425 | From every such state some steps of the process, the queue and the closing alone remove the terminal |
| `TerminalGreetings.GreetedOnce` | apps/api/src/modules/terminals/terminals.service.ts:319-341 | Every connection gets at most one ready message and one snapshot, before any live message |
| `TerminalGreetings.ExitReachesAll` | apps/api/src/modules/terminals/terminals.service.ts:410-419 | When closing finishes, exactly the attached connections that have their snapshot get the exit message; all of them have it unless a spawn returned during the closing |
| `TerminalGreetings.ExitMissed` | apps/api/src/modules/terminals/terminals.service.ts:319-342 | The exception: a run in which a connection attached after such a spawn gets nothing |
| `TerminalControl.ControlIsGiven` | apps/api/src/modules/terminals/terminals.service.ts:379-384 | A connection that takes control, or attaches to a running terminal that nobody controls, is from that step on the only one whose input is accepted, until it detaches, another one takes control or the terminal stops running |
| `TerminalControl.ControlWasGiven` | apps/api/src/modules/terminals/terminals.service.ts:307-342 | and whose input is accepted was given control at some step and has not lost it since |
| `TerminalControl.Announced` | apps/api/src/modules/terminals/terminals.service.ts:303-305 | Every change of control, every beginning of a close with its reason, and the exit are told at that step to exactly the attached connections that have their snapshot |
| `TerminalControl.ClosingTakesControl` | apps/api/src/modules/terminals/terminals.service.ts:403-407 | When a close begins nobody controls the terminal any more |
| `TerminalControl.GreetingTells` | apps/api/src/modules/terminals/terminals.service.ts:319-341 | A connection's first messages are the state, the controlling connection, and the screen at that moment, and the exit if the terminal has ended |
| `TerminalControl.ExitIsKnown` | apps/api/src/modules/terminals/terminals.service.ts:336-341 | In every reachable state, whoever is attached to a terminal that ended and has its snapshot was told of the exit |
| `TerminalControl.AttachedIff` | apps/api/src/modules/terminals/terminals.service.ts:307-355 | A connection is attached exactly if it joined and neither detached nor was dropped since |
| `TerminalControl.QueueIsFifo` | apps/api/src/modules/terminals/terminals.service.ts:284-301 | The queue holds exactly the tasks that were asked for and not run yet, in the order in which they were asked for |
| `TerminalControl.StaysListed` | apps/api/src/modules/terminals/terminals.service.ts:392-418 | A terminal stays listed, after its end too, until a user, a shutdown or a failed spawn removes it |
| `TerminalIdle.SweepClosesOnlyIdle` | apps/api/src/modules/terminals/terminals.service.ts:427-454 | The sweep begins to close only a terminal that had no connection in any state of the last twelve hours |
| `TerminalIdle.NoneLingers` | apps/api/src/modules/terminals/terminals.service.ts:23-24 | Looked at hourly, no terminal stays running, unattached and not being closed for thirteen hours |
| `TerminalIdle.FailedCloseRetried` | apps/api/src/modules/terminals/terminals.service.ts:427-454 | Swept hourly, an idle close that failed is tried again within the hour, in every run |
| `TerminalIdle.AloneAllTheTime` | apps/api/src/modules/terminals/terminals.service.ts:344-355 | The unattached time marks an uninterrupted stretch without a connection |
| `TerminalEntry.Terminal.Perform` | apps/api/src/modules/terminals/terminals.service.ts:250-454 | Every step of the runs, done in place, is the specified one and keeps the invariants |
| `TerminalEntry.Terminal.AttachPeer` | apps/api/src/modules/terminals/terminals.service.ts:307-342 | The in-place attach is the specified one and refuses exactly closing terminals and a ninth connection |
| `TerminalEntry.Terminal.DetachPeer` | apps/api/src/modules/terminals/terminals.service.ts:344-355 | The in-place detach is the specified one |
| `TerminalEntry.Terminal.NextTask` | apps/api/src/modules/terminals/terminals.service.ts:287-377 | Running the head of the task queue in place |
| `TerminalEntry.Terminal.BeginClose` | apps/api/src/modules/terminals/terminals.service.ts:392-408 | Closing starts at most once at a time; a user's close during another waits for it |
| `TerminalEntry.Terminal.CloseResumes` | apps/api/src/modules/terminals/terminals.service.ts:394-398 | The close that waited disposes of the terminal |
| `TerminalEntry.Terminal.EndClose` | apps/api/src/modules/terminals/terminals.service.ts:409-419 | The end of closing: exit to everybody, connections dropped, removal for a user or a shutdown |
| `TerminalEntry.Terminal.Sweep` | apps/api/src/modules/terminals/terminals.service.ts:427-454 | One terminal's turn in the sweep |
| `TerminalEntry.Terminal.SendAll` | apps/api/src/modules/terminals/terminals.service.ts:303-305 | The broadcast loop reaches exactly the connections that got their snapshot |
| `TerminalLifecycle.AlwaysSerial` | apps/api/src/modules/terminals/terminal-lifecycle.ts:16-26 | At most one action per project runs, in arrival order |
| `CreateDelete.CreateVersusDelete` | apps/api/src/modules/terminals/terminals.service.ts:141-276 | In every interleaving: both tables agree, each starting, running or closing terminal belongs to an existing session, and a session has at most sixteen |
| `DeleteEffect.SessionExistsIff` | apps/api/src/modules/sessions/sessions.service.ts:483-487 | In every run a session exists exactly if it was made and no deletion in whose scope it is deleted its row since |
| `DeleteEffect.DeletedForGood` | apps/api/src/modules/sessions/sessions.service.ts:422-430 | From the step on that deletes the rows, no session of the call's scope exists in any later state |
| `DeleteEffect.TerminalExistsIff` | apps/api/src/modules/terminals/terminals.service.ts:148-276 | A terminal is in both tables exactly if a creation put it there and nothing removed it since: a close for good, a failed spawn, or a deletion |
| `DeleteEffect.DiscardedAll` | apps/api/src/modules/terminals/terminal-lifecycle.ts:44-51 | The discarding step leaves no terminal of the call's scope in either table, and all others as they were |
| `DeleteEffect.NoneOfDeleted` | apps/api/src/modules/sessions/sessions.service.ts:425-429 | After a deletion has discarded, no terminal of a deleted session is in either table in any later state |
| `DeleteEffect.Decides` | apps/api/src/modules/terminals/terminals.service.ts:141-170 | Under the lock a creation goes on exactly if its session exists and has fewer than sixteen terminals, a deletion exactly if none in its scope is starting, running or closing |
| `DeleteEffect.Proceeds` | apps/api/src/modules/terminals/terminals.service.ts:141-276 | Each other step of a call takes it to the next phase, and no other call |
| `DeleteEffect.LocksAreTold` | apps/api/src/modules/terminals/terminal-lifecycle.ts:16-26 | A project has a promise in the table exactly if its last call has not cleaned up after itself, and it is that call's |
| `LifecycleTable.Lifecycle.WithProject` | apps/api/src/modules/terminals/terminal-lifecycle.ts:16-21 | A call lines up behind the last one of its project |
| `LifecycleTable.Lifecycle.LeaveProject` | apps/api/src/modules/terminals/terminal-lifecycle.ts:22-25 | The promise is removed unless a later call replaced it |
| `LifecycleTable.Lifecycle.FindActive` | apps/api/src/modules/terminals/terminal-lifecycle.ts:28-36 | The ids in the conflict are exactly the active terminals in scope |
| `LifecycleTable.Lifecycle.CheckDeletable` | apps/api/src/modules/sessions/sessions.service.ts:425-427 | Deletion goes on exactly if no terminal in scope is active |
| `LifecycleTable.Lifecycle.ChangeState` | apps/api/src/modules/terminals/terminals.service.ts:278-282 | A state change reaches both tables |
| `LifecycleTable.Lifecycle.DiscardTerminals` | apps/api/src/modules/terminals/terminal-lifecycle.ts:44-51 | The loop disposes of exactly the terminals in scope |
| `ProviderSwitch.RenewedMeansAlone` | apps/api/src/modules/settings/settings.service.ts:199-257 | From a successful renewal stamped s until s + 120000 ms, unless the owner releases: it holds the row and no turn is active, whatever any process does |
| `ProviderSwitch.AcquiredMeansAlone` | apps/api/src/modules/settings/settings.service.ts:148-183 | The same from the acquisition on |
| `ProviderSwitch.RowAlwaysOk` | apps/api/src/modules/settings/settings.service.ts:41-65 | In every run a row in progress means that no turn is active and one acquired owner holds it |
| `ProviderSwitch.LostForGood` | apps/api/src/modules/settings/settings.service.ts:207-226 | An owner that lost the row can never renew again, so at most one owner's renewals succeed |
| `ProviderSwitch.LostIff` | apps/api/src/modules/settings/settings.service.ts:210-231 | A heartbeat counts its lease as lost exactly if one of its renewals failed or found the row in other hands |
| `ProviderSwitch.RenewalIff` | apps/api/src/modules/settings/settings.service.ts:203-233 | A renewal with this stamp is under way exactly if a heartbeat that was neither stopped nor lost began it at that time and it has no outcome yet |
| `ProviderSwitch.StopEndsRenewals` | apps/api/src/modules/settings/settings.service.ts:203-206 | A stopped heartbeat begins no renewal |
| `ProviderSwitch.RefusedIff` | apps/api/src/modules/settings/settings.service.ts:41-65 | Over whole runs: a turn is refused exactly while the row was last written by an acquisition or renewal stamped less than 120000 ms ago, and another switch exactly then or while a turn is active |
| `ProviderSwitch.RuntimeControl.AssertProviderSwitchAllowsTurn` | apps/api/src/modules/settings/settings.service.ts:41-65 | The check and the clearing of an expired lease in place |
| `ProviderSwitch.RuntimeControl.AcquireLease` | apps/api/src/modules/settings/settings.service.ts:148-183 | The acquisition in place |
| `ProviderSwitch.RuntimeControl.StartTurn` | apps/api/src/modules/turns/turns.service.ts:226-245 | The check and the creation are one transaction, rolled back together |
| `ProviderSwitch.RuntimeControl.ReleaseLease` | apps/api/src/modules/settings/settings.service.ts:185-197 | The release in place |
| `ProviderSwitch.RuntimeControl.Renew` | apps/api/src/modules/settings/settings.service.ts:203-234 | A renewal in place; the caller goes on only if the lease is still held |
| `ProviderUpdate.UpdateProviders` | apps/api/src/modules/settings/settings.service.ts:109-133 | All requested providers are in place, or, where the rollback commands work, exactly the selection from before; every forward command follows a successful renewal; workers are reset only after a codex switch |
| `ProviderUpdate.Forward` | apps/api/src/modules/settings/settings.service.ts:111-119 | The forward loop succeeds exactly if every needed command does, and `switched` is exactly what changed |
| `ProviderUpdate.RollBack` | apps/api/src/modules/settings/settings.service.ts:120-127 | The rollback loop undoes the switched ones in reverse order; failing ones stay |
| `ApprovalTimers.AcceptsOnlyOnTime` | apps/api/src/modules/turns/approval-queue.service.ts:277-305 | An automatic approval is forwarded only in a turn that approves automatically, and only once published and un-paused time reaches the configured time, over any pauses, resumes and restarts |
| `ApprovalTimers.SpentAndRemaining` | apps/api/src/modules/turns/approval-queue.service.ts:110-168 | Time spent and time shown always add up to the configured time, until it is used up |
| `ApprovalTimers.AlwaysCovered` | apps/api/src/modules/turns/approval-queue.service.ts:358-378 | A running countdown always has its timer or attempt, also after a restart |
| `ApprovalRestart.RestartKeepsIff` | apps/api/src/modules/turns/approval-queue.service.ts:358-383 | After a restart a published, undecided approval, paused or not, is approved automatically in some continuation if and only if its turn approves automatically with a timeout other than zero; with zero, no continuation ever forwards it |
| `ApprovalRestart.ZeroTimeoutLost` | apps/api/src/modules/turns/approval-queue.service.ts:253-260 | A run in which a request with timeout zero can be approved automatically before a restart, and in no continuation after it |
| `ApprovalRestart.LostForGood` | apps/api/src/modules/turns/approval-queue.service.ts:277-305 | A published approval without countdown, timer and attempt stays so, undecided by the queue, in every continuation |
| `ApprovalQueue.AlwaysSerial` | apps/api/src/modules/turns/approval-queue.service.ts:81-98 | In every run at most one approval per turn is published, and while the turn goes on the queue never stalls |
| `ApprovalQueue.AlwaysInOrder` | apps/api/src/modules/turns/approval-queue.service.ts:81-98 | With fresh ids, requests are published in creation order |
| `ApprovalQueue.PublishedIffOldest` | apps/api/src/modules/turns/approval-queue.service.ts:45-98 | In every run with fresh ids: while a turn goes on, the published approval is exactly its oldest undecided one |
| `ApprovalDecisions.DecidedIff` | apps/api/src/modules/turns/turns.service.ts:899-908 | In every run an approval is approved exactly if, since it was last requested, an acceptance arrived while it was published in a turn that went on, and rejected exactly if a refusal did or its turn had ended when its place in the queue came |
| `ApprovalDecisions.DecidedForwardsNothing` | apps/api/src/modules/turns/approval-queue.service.ts:277-305 | No attempt goes through for an approval that is decided |
| `ApprovalDecisions.PauseHolds` | apps/api/src/modules/turns/approval-queue.service.ts:110-140 | From a pause until it is resumed, decided or requested again, an approval stays published, shows the time that was left, and no attempt goes through, over restarts too |
| `ApprovalService.ApprovalQueueService.EnqueueApprovalRequest` | apps/api/src/modules/turns/approval-queue.service.ts:45-75 | The in-place upsert and publication |
| `ApprovalService.ApprovalQueueService.PublishRow` | apps/api/src/modules/turns/approval-queue.service.ts:172-265 | Publication in place: deadline, timer, immediate attempt, or the silent drop in an ended turn |
| `ApprovalService.ApprovalQueueService.PauseTimer` | apps/api/src/modules/turns/approval-queue.service.ts:110-140 | Pause in place, with its two refusals |
| `ApprovalService.ApprovalQueueService.ResumeTimer` | apps/api/src/modules/turns/approval-queue.service.ts:142-168 | Resume in place |
| `ApprovalService.ApprovalQueueService.ApprovalResolved` | apps/api/src/modules/turns/approval-queue.service.ts:101-108 | A decision in place: settled, its timer gone, and the next one published |
| `ApprovalService.ApprovalQueueService.FireAutoApprove` | apps/api/src/modules/turns/approval-queue.service.ts:277-305 | The timer callback looks at the row again before it decides |
| `ApprovalService.ApprovalQueueService.RecoverTimers` | apps/api/src/modules/turns/approval-queue.service.ts:358-383 | The recovery loop restores exactly the timers and overdue attempts of the rows |
| `ApprovalService.ApprovalQueueService.OldestQueued` | apps/api/src/modules/turns/approval-queue.service.ts:89-92 | The search finds the oldest queued approval of the turn |
| `TimelinePanel.TimelineRefinement` | apps/web/src/app/page.tsx:1041-1065 | Whatever was loaded, buffered, flushed, reloaded and delivered again, the panel shows exactly one left fold over its range of the covered log |
| `TimelineRefs.TimelineRefs.LoadTimelineSnapshot` | apps/web/src/app/page.tsx:3087-3129 | A whole load in place: pages of any size from a growing log, live events buffered meanwhile, and the panel then shows one fold of its range up to whatever the last page or the stream had |
| `TimelineGuard.LateIsNoOp` | apps/web/src/app/page.tsx:1047 | The guard is sound: an event newer than every end of the timeline that was merged before is still a no-op |
| `TimelineGuard.MergeEnds` | apps/web/src/app/page.tsx:6862-7153 | Merging a newest event keeps all entries in place and leaves one that ends with it, unless it is a no-op |
| `TimelineGuard.MaxEndGrows` | apps/web/src/app/page.tsx:1058-1065 | The largest end never falls and never passes the last event |
| `TimelinePaging.FetchTurnEvents` | apps/web/src/app/page.tsx:3087-3113 | The paging loop ends for every page size while the log grows, and returns exactly the range of the log as of its last request's answer |
| `TimelinePaging.RangeOfSlice` | apps/web/src/app/page.tsx:3115-3129 | A beginning of the log has a beginning of the range, and a stretch of the log that stretch |
| `TimelinePaging.SelectSorted` | apps/web/src/app/page.tsx:3087-3113 | A range is sorted and has exactly the events of the log in it |
| `TimelineText.ReasoningKept` | apps/web/src/app/page.tsx:7020-7050 | No reasoning text is lost, repeated or reordered by the merging |
| `TimelineText.TextsAreTold` | apps/web/src/app/page.tsx:7155-7215 | Every entry of streamed text was opened by a piece of text of its kind, with its number and time |
| `TimelineText.TextIsShown` | apps/web/src/app/page.tsx:6892-6904 | A piece of the assistant's text, or the end of a version-1 turn, leaves an entry of the assistant last, but for the turn's end |
| `TimelineTools.ToolsAreTold` | apps/web/src/app/page.tsx:6906-7018 | For every log, the tool entries in order are those that the log opens, and each shows exactly the events that go to it: every output and completion goes to the entry opened last among those it names, by detail reference if it has one, else by key |
| `TimelineTools.ToolIsTold` | apps/web/src/app/timeline-tool-routing.ts:30-45 | Where no tool event has a detail reference, or every one has: the last entry of a tool that is not started again has exactly the notes and non-command output of that tool's events since its start, in order, is completed exactly if a completion of it came, keeps its key and reference, and is its only entry if nothing of the tool came before |
| `TimelineEntries.EntriesAreTold` | apps/web/src/app/page.tsx:6862-7153 | For every log, the other entries in order are those of the events that open one, messages once however often they are told; each says for good what its event said, and a message of the assistant stands as its last event left it |
| `TimelineRefs.SortedStays` | apps/web/src/app/page.tsx:6823 | Sorting fetched pages again changes nothing |
| `TimelineRefs.BuildTurnEventSnapshot` | apps/web/src/app/page.tsx:6815-6860 | The loop computes the fold of the sorted events and the largest number |
| `TimelineRefs.TimelineRefs.QueueTimelineEvent` | apps/web/src/app/page.tsx:1041-1057 | Buffer, drop or queue, in place |
| `TimelineRefs.TimelineRefs.FlushPendingTimelineEvents` | apps/web/src/app/page.tsx:1021-1034 | The batch is folded into the list |
| `TimelineRefs.TimelineRefs.ReplaceTimelineEvents` | apps/web/src/app/page.tsx:1058-1065 | The guard becomes the largest end |
| `TimelineRefs.TimelineRefs.StartLoad` | apps/web/src/app/page.tsx:3115-3117 | A load begins with an empty buffer |
| `TimelineRefs.TimelineRefs.FinishLoad` | apps/web/src/app/page.tsx:3115-3129 | The buffered newer events are merged behind the fetched ones |
| `RunnerGuarantee.ConsumerGetsAll` | apps/api/src/modules/runner/embedded/embedded-runner.service.ts:166-223 | A consumer that is done and never met a clash (two appends waiting for it, one of them still to call it) got each event later than its `sinceSeq` once and in order, up to the one terminal event, but for those its replay passed over |
| `RunnerExact.SkipsOnePerEviction` | apps/api/src/modules/runner/embedded/embedded-runner.service.ts:176-180 | Which those are: one for each event evicted during its replay, always the one it would have read next |
| `RunnerExact.EvictionSkips` | apps/api/src/modules/runner/embedded/embedded-runner.service.ts:567-573 | A reachable state in which a consumer is done with events 1 and 3, but not 2, though 2 was never evicted |
| `RunnerGuarantee.LaterIs` | apps/api/src/modules/runner/embedded/embedded-runner.service.ts:176-180 | The later events: none too early, none left out but the skipped, in order |
| `RunnerClash.ClashLoses` | apps/api/src/modules/runner/embedded/embedded-runner.service.ts:575-590 | and every clash matters: from every reachable state with one there is a continuation after which the consumer is done and short of an event |
| `RunnerExact.RightIffNoClash` | apps/api/src/modules/runner/embedded/embedded-runner.service.ts:166-223 | For a consumer that listens and never met a clash: it will be right whenever it is done, in every continuation, if and only if no continuation has a clash |
| `RunnerExact.AlwaysRightIff` | apps/api/src/modules/runner/embedded/embedded-runner.service.ts:182-223 | The condition when it begins to listen: it will be right in every continuation if and only if nobody listened before it and its `sinceSeq` is not ahead of the log |
| `RunnerExact.AheadGetsTooMuch` | apps/api/src/modules/runner/embedded/embedded-runner.service.ts:176-202 | A reachable state in which a consumer with `sinceSeq` 5 is done with event 1 |
| `RunnerGuarantee.ExactlyLaterIff` | apps/api/src/modules/runner/embedded/embedded-runner.service.ts:210-219 | For one run without a clash: exactly the later events if and only if `sinceSeq` was not ahead of the log when it began to listen, or nothing came after |
| `RunnerGuarantee.OverlapLosesTheEnd` | apps/api/src/modules/runner/embedded/embedded-runner.service.ts:575-590 | A reachable state in which overlapping appends cost a second consumer the terminal event |
| `RunnerGuarantee.AlwaysGood` | apps/api/src/modules/runner/embedded/embedded-runner.service.ts:166-223 | What a reader has at every point of a run in which it met no clash |
| `RunnerStream.BufferAlwaysOk` | apps/api/src/modules/runner/embedded/embedded-runner.service.ts:528-590 | The buffer is always the contiguous end of the log ending at `nextSeq - 1`, within the limit; the status is what the last event tells, and terminal exactly if it is |
| `RunnerTurn.TurnStream.Perform` | apps/api/src/modules/runner/embedded/embedded-runner.service.ts:166-223 | Every step of the runs, done in place, is the specified one and keeps the buffer right |
| `RunnerTurn.TurnStream.ReplayNext` | apps/api/src/modules/runner/embedded/embedded-runner.service.ts:176-221 | One turn of the replay loop in place, or its end |
| `RunnerTurn.TurnStream.AppendTurnEvent` | apps/api/src/modules/runner/embedded/embedded-runner.service.ts:553-583 | Push, number, evict and call the first listener, in place; before the turn is finished this is a step of the runs |
| `RunnerTurn.TurnStream.ListenerReturned` | apps/api/src/modules/runner/embedded/embedded-runner.service.ts:576-590 | The rest of an append |
| `RunnerTurn.TurnStream.FinalizeTurn` | apps/api/src/modules/runner/embedded/embedded-runner.service.ts:605-627 | A terminal event is appended only by the first to finish the turn |
| `Dispatcher.NoWakeIsLost` | apps/api/src/modules/channels/channels-gateway.service.ts:319-360 | Every wake-up is followed by a pull that starts after it, or held by a running loop; when nothing dispatches, all were |
| `Dispatcher.ClaimedAgain` | apps/api/src/modules/channels/channels.service.ts:269-320 | A message is claimed again only after the earlier lease ran out and nobody reported a result |
| `Dispatcher.ClaimSucceedsIff` | apps/api/src/modules/channels/channels.service.ts:269-298 | A claim succeeds exactly if the message was never claimed or reported, or its last lease ran out without a report |
| `Dispatcher.HeldBetween` | apps/api/src/modules/channels/channels.service.ts:304-320 | Between two claims the message is being sent by the first claimer under its lease, or stands as the last report said |
| `OutboxDrain.PullsFirst` | apps/api/src/modules/channels/channels.service.ts:215-239 | A batch holds the first claimable ones: messages before events, each in order of creation |
| `OutboxDrain.OutboxDispatcher.DispatchLoop` | apps/api/src/modules/channels/channels-gateway.service.ts:327-360 | The drain ends with nothing left to claim; what it handled it handled once, the rest is untouched |
| `OutboxDrain.OutboxDispatcher.DispatchOne` | apps/api/src/modules/channels/channels-gateway.service.ts:409-465 | Claim, send, report; a message that is not claimable is left alone |
| `OutboxDrain.PullOk` | apps/api/src/modules/channels/channels.service.ts:199-239 | A batch is claimable and without repetition, within the limit, has what comes first, and is empty only if nothing is claimable |
| `DiffCompaction.CompactionLosesNothing` | apps/api/src/scripts/compact-diff-events.ts:25-94 | In every interleaving of any number of script runs with new diffs: stored diffs are whole or summaries that tell whether there is a diff, its statistics and nothing of its text; the snapshot holds exactly what arrived, and after a run wrote it, it is the newest diff's |
| `DiffLoop.FinishedScript` | apps/api/src/scripts/compact-diff-events.ts:55-94 | In every interleaving, when a script's loop has ended, every diff is summarised that could be compacted as long as the script ran |
| `DiffLoop.WaitingIsKept` | apps/api/src/scripts/compact-diff-events.ts:66-94 | In every interleaving, a diff whose message waits to be sent stays stored as it is for as long as it waits |
| `DiffCompaction.SummarizeTwice` | apps/api/src/modules/turns/diff-payload.ts:3-20 | Summarising again changes nothing |
| `DiffCompaction.SummaryTells` | apps/api/src/modules/turns/diff-payload.ts:3-20 | A summary says that there is a diff exactly if the payload says so or has a non-empty text, that the snapshot has it, and the payload's statistics if they are a record or list; it has no text |
| `WireForm.ToldAsItArrived` | apps/api/src/modules/turns/timeline-event-payload.ts:15-20 | The browser is told alike of a diff that is stored whole or summarised, exactly if its second text is not overlooked because the first is an empty one |
| `WireForm.NamesAreSent` | apps/api/src/modules/turns/timeline-event-payload.ts:164-222 | What names a tool is sent with every event of it, cut after 4096 units |
| `WireForm.FieldsAreSent` | apps/api/src/modules/turns/timeline-event-payload.ts:273-313 | Of tools and approvals exactly the listed fields are sent, as they are stored |
| `WireForm.SentOnce` | apps/api/src/modules/turns/timeline-event-payload.ts:273-313 | What was sent is the same when it is sent again |
| `WireForm.NothingIsLost` | apps/api/src/modules/turns/timeline-event-payload.ts:43-61 | Every field of a message event is sent as it is stored, or is the text of the message that is sent with it |
| `DiffScript.DiffTable.CompactTurn` | apps/api/src/scripts/compact-diff-events.ts:41-94 | One run: eligible diffs summarised and counted, others left and counted as skipped, snapshot at least as new as the newest diff; a dry run changes nothing |
| `DiffScript.DiffTable.CompactBatches` | apps/api/src/scripts/compact-diff-events.ts:66-94 | The batch loop ends for every batch size and visits every diff exactly once |

## Left out

- Authentication, attach tickets, origin policy, HTTP and WebSocket upgrade, the PTY and its guardian process, Prisma and SQLite.
- Version-1 turns, messages without `historySeq`, and the writers in turns.service.ts that serve them; the mixed comparison of the merge is not a total order there.
- The rest of turns.service.ts (coalescing, ingestion, steering, reconciliation): it appears only as the environment that numbers events and calls the operations.
- The order of text in `localeCompare`: code-unit order stands in for it, as a fallback where history numbers do not decide.
- Derived wire fields of tool events (detail references, command previews, byte counts) and the output text that tools other than commands send along.
- Outbox columns other than those a message determines; recipients and bindings of a message are an outcome.
- `TextDecoder`: chunks are text already, so a character cut in two is not modelled.
- The writer's browser also resizes its own xterm when its window changes, before the server's answer; the replica is the screen built from messages.
- The time a browser's xterm takes to write: a message counts as shown once it was taken.
- A socket that is closed for too much unsent output: the connection simply receives a beginning of its messages.
- The service-wide limit of 128 terminals, request ids of terminal creation and reuse of an active terminal: an action that ends early without a change.
- The sweep over several terminals waits for each close; `NoneLingers` is about the times at which one terminal is looked at.
- Ids in the timeline are taken as distinct for distinct prefixes; texts, plans and titles that the timeline only displays are fields of the event.
- Assistant text, plan and reasoning accumulators of a turn snapshot; rendering, scrolling, batching timers and form state of the page.
- Codex, Claude, Discord and web plugin backends.
- The cleanup of a finished runner stream after its retention time, and a turn id that is started again.
- Approvals whose creation times are equal are taken in list order.
- TimelineRefs.TimelineRefs.LoadTimelineSnapshot: about one load and a range that is fixed when it begins. A message that ends while its range loads, with events behind its end fetched already, and the fresh start of the live view after each completed message are left out; an abandoned load is simply begun again.
- In a round of the outbox drain the pull and the claims share one time, and no other gateway acts meanwhile.
- The end of an orphaned process by the shutdown of the process factory.
- HistoryContent.ContentIsWhatArrived: about item ids that are not used for a user message too.
- TerminalReplica.TerminalReplication: about connections with new ids, as the gateway draws a random one per socket.
- ApprovalTimers.AcceptsOnlyOnTime: about fresh request ids; a request id that is used again starts over while an attempt of the earlier one may be under way.
- DiffScript.DiffTable.CompactTurn: about one turn at rest; what new diffs and other runs do meanwhile is in `CompactionLosesNothing`. Byte totals are left out.
