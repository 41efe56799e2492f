/** The terminal as the service keeps it: fields changed in place, one method per operation. */
module TerminalEntry {
  import opened Prelude
  import opened TerminalHub
  import opened TerminalInvariants

  /** `sent` after the connections `told` got `m`. */
  ghost predicate ToldSome(
    before: map<PeerId, seq<ServerMessage>>, now: map<PeerId, seq<ServerMessage>>,
    peers: map<PeerId, bool>, told: set<PeerId>, m: ServerMessage)
  {
    && now.Keys == before.Keys
    && forall p :: p in before ==>
      now[p] == if p in told && p in peers && peers[p] then before[p] + [m] else before[p]
  }

  class Terminal<S> {
    const emu: Emulator<S>
    var state: TerminalState
    var cols: nat
    var rows: nat
    var screen: S
    var process: Process
    var peers: map<PeerId, bool>
    var writer: Option<PeerId>
    var unattachedSince: Option<int>
    var seqNo: nat
    var queue: seq<Task>
    var pending: nat
    var paused: bool
    var closer: Closer
    var reason: Option<CloseReason>
    var listed: bool
    var sent: map<PeerId, seq<ServerMessage>>

    function Contents(): Entry<S>
      reads this
    {
      Entry(state, cols, rows, screen, process, peers, writer, unattachedSince, seqNo, queue, pending, paused,
            closer, reason, listed, sent)
    }

    constructor (emu: Emulator<S>, screen: S, cols: nat, rows: nat)
      ensures Contents() == Create(screen, cols, rows) && this.emu == emu
    {
      this.emu := emu;
      state, this.cols, this.rows, this.screen, process := Starting, cols, rows, screen, NotSpawned;
      peers, writer, unattachedSince, seqNo := map[], None, None, 0;
      queue, pending, paused := [], 0, false;
      closer, reason, listed, sent := NotClosing, None, true, map[];
    }

    method SendAll(m: ServerMessage)
      requires peers.Keys <= sent.Keys
      modifies this`sent
      ensures Contents() == Broadcast(old(Contents()), m)
    {
      var todo := peers.Keys;
      while todo != {}
        invariant todo <= peers.Keys
        invariant ToldSome(old(sent), sent, peers, peers.Keys - todo, m)
        decreases |todo|
      {
        var p :| p in todo;
        todo := todo - {p};
        if peers[p] { sent := sent[p := sent[p] + [m]]; }
      }
      assert sent == Deliver(peers, old(sent), m);
    }

    method SpawnReturned(now: int)
      modifies this
      ensures Contents() == Spawned(old(Contents()), now)
    {
      process, state := Alive, Running;
      unattachedSince := Some(now);
    }

    method SpawnFails()
      modifies this
      ensures Contents() == Dispose(old(Contents()).(process := Gone))
    {
      process := Gone;
      DisposeEntry();
    }

    method OnData(data: string, bytes: nat)
      modifies this
      ensures Contents() == Produce(old(Contents()), data, bytes)
    {
      pending := pending + bytes;
      if pending > PAUSE_ABOVE { paused := true; }
      queue := queue + [WriteTask(data, bytes)];
    }

    method OccupyBy(p: PeerId)
      modifies this`unattachedSince, this`writer
      ensures Contents() == Occupy(old(Contents()), p)
    {
      unattachedSince := None;
      if writer == None { writer := Some(p); }
    }

    /** `false` stands for the conflict the caller is told about. */
    method AttachPeer(p: PeerId) returns (ok: bool)
      modifies this
      ensures Contents() == Attach(old(Contents()), p)
      ensures ok == old(listed && (state == Running || state == Exited) && |peers| < MAX_PEERS)
    {
      if !listed || (state != Running && state != Exited) { return false; }
      if |peers| >= MAX_PEERS { return false; }
      if state == Running { OccupyBy(p); }
      peers, sent := peers[p := false], sent[p := []];
      queue := queue + [AttachTask(p)];
      ok := true;
    }

    method DetachPeer(p: PeerId, now: int)
      requires peers.Keys <= sent.Keys
      modifies this
      ensures Contents() == Detach(old(Contents()), p, now)
    {
      if !listed || p !in peers { return; }
      peers := peers - {p};
      if writer == Some(p) {
        writer := None;
        SendAll(ControlChanged(None));
      }
      if |peers| == 0 && state == Running {
        unattachedSince := Some(now);
      }
    }

    method ResizeBy(p: PeerId, c: nat, r: nat)
      modifies this
      ensures Contents() == RequestResize(old(Contents()), p, c, r)
    {
      if !listed || state != Running || writer != Some(p) { return; }
      queue := queue + [ResizeTask(p, c, r)];
    }

    method GiveControl(p: PeerId)
      requires peers.Keys <= sent.Keys
      modifies this
      ensures Contents() == TakeControl(old(Contents()), p)
    {
      if !listed || state != Running || p !in peers { return; }
      writer := Some(p);
      SendAll(ControlChanged(Some(p)));
    }

    method Account(bytes: nat)
      modifies this`pending, this`paused, this`seqNo
      ensures Contents() == Written(old(Contents()), bytes)
    {
      pending := if bytes <= pending then pending - bytes else 0;
      if pending < RESUME_BELOW { paused := false; }
      seqNo := seqNo + 1;
    }

    method Write(data: string, bytes: nat)
      requires peers.Keys <= sent.Keys
      modifies this
      ensures Contents() == RunWrite(emu, old(Contents()), data, bytes)
    {
      screen := emu.write(screen, data);
      Account(bytes);
      SendAll(Output(seqNo, data));
    }

    method ChangeSize(c: nat, r: nat)
      modifies this`screen, this`cols, this`rows, this`seqNo
      ensures Contents() == AtSize(emu, old(Contents()), c, r)
    {
      screen := emu.resize(screen, c, r);
      cols, rows := c, r;
      seqNo := seqNo + 1;
    }

    method ResizeScreen(p: PeerId, c: nat, r: nat, ok: bool)
      requires peers.Keys <= sent.Keys
      modifies this
      ensures Contents() == RunResize(emu, old(Contents()), p, c, r, ok)
    {
      if state != Running || writer != Some(p) || !ok { return; }
      ChangeSize(c, r);
      SendAll(Resized(seqNo, c, r));
    }

    method Greet(p: PeerId)
      requires peers.Keys <= sent.Keys
      modifies this
      ensures Contents() == RunAttach(emu, old(Contents()), p)
    {
      if p !in peers { return; }
      var ready, shot := Ready(state, writer, p), Snapshot(seqNo, cols, rows, emu.serialize(screen));
      var log := sent[p] + [ready, shot];
      if state == Exited { log := log + [Exit(state)]; }
      peers := peers[p := true];
      assert log == sent[p] + ([ready, shot] + if state == Exited then [Exit(state)] else []);
      sent := sent[p := log];
    }

    /** Run the task at the head of the queue. */
    method NextTask(ok: bool)
      requires queue != [] && peers.Keys <= sent.Keys
      modifies this
      ensures Contents() == RunTask(emu, old(Contents()), ok)
    {
      var task := queue[0];
      queue := queue[1..];
      if closer.Draining? && closer.left > 0 { closer := closer.(left := closer.left - 1); }
      match task {
        case WriteTask(data, bytes) => Write(data, bytes);
        case ResizeTask(p, c, r) => ResizeScreen(p, c, r, ok);
        case AttachTask(p) => Greet(p);
      }
    }

    method DisposeEntry()
      modifies this
      ensures Contents() == Dispose(old(Contents()))
    {
      peers := map[];
      listed := false;
    }

    method StartClosing(why: CloseReason)
      modifies this`state, this`reason, this`writer, this`closer
      ensures Contents() == MarkClosing(old(Contents()), why)
    {
      state, reason, writer := Closing, Some(why), None;
      closer := if process.NotSpawned? then Draining(|queue|, false) else ProcessClosing(false);
    }

    method BeginClose(why: CloseReason)
      requires peers.Keys <= sent.Keys
      modifies this
      ensures Contents() == Close(old(Contents()), why)
    {
      if !listed { return; }
      if closer.ProcessClosing? || closer.Draining? {
        if why == ByUser { closer := closer.(awaited := true); }
        return;
      }
      if closer.Closed? || state == Exited {
        if why == ByUser { DisposeEntry(); }
        return;
      }
      StartClosing(why);
      SendAll(ClosingNow(why));
    }

    method ProcessEnds()
      requires peers.Keys <= sent.Keys
      modifies this
      ensures Contents() == ProcessExits(old(Contents()))
    {
      process := Gone;
      if state == Running { BeginClose(ProcessExit); }
    }

    /** `process.close()` is done; what is queued is waited for next. */
    method ProcessIsClosed()
      requires closer.ProcessClosing?
      modifies this`closer, this`process
      ensures Contents() == ProcessClosed(old(Contents()))
    {
      closer, process := Draining(|queue|, closer.awaited), Gone;
    }

    /** The process could not be closed. */
    method ClosingFails()
      requires closer.ProcessClosing?
      modifies this`closer
      ensures Contents() == CloseFailed(old(Contents()))
    {
      closer := NotClosing;
    }

    /** What a user's close does after the closing it waited for. */
    method CloseResumes()
      requires closer == Closed(true)
      modifies this
      ensures Contents() == WaiterResumes(old(Contents()))
    {
      closer := Closed(false);
      DisposeEntry();
    }

    method NoteExit()
      requires closer.Draining?
      modifies this`state, this`unattachedSince, this`closer
      ensures Contents() == MarkExited(old(Contents()))
    {
      state, unattachedSince, closer := Exited, None, Closed(closer.awaited);
    }

    /** What the `closing` promise does once the process and the waiting tasks are done. */
    method EndClose()
      requires closer.Draining? && closer.left == 0 && peers.Keys <= sent.Keys
      modifies this
      ensures Contents() == FinishClose(old(Contents()))
    {
      NoteExit();
      SendAll(Exit(Exited));
      peers := map[];
      if reason == Some(ByUser) || reason == Some(ApiShutdown) { DisposeEntry(); }
    }

    method Sweep(now: int)
      requires peers.Keys <= sent.Keys
      modifies this
      ensures Contents() == Examine(old(Contents()), now)
    {
      if !listed { return; }
      var retry := state == Closing && reason == Some(UnattachedTimeout) && closer == NotClosing;
      if retry || (state == Running && |peers| == 0 && unattachedSince.Some?
                   && now - unattachedSince.value >= UNATTACHED_TIMEOUT_MS) {
        BeginClose(UnattachedTimeout);
      }
    }

    /**
     Whatever can happen to a terminal happens in place as the runs say, so every
     theorem about runs is one about this object.
     */
    method Perform(now: int, step: Step)
      requires Enabled(Contents(), step) && ServerOk(Contents())
      modifies this
      ensures Contents() == Next(emu, old(Contents()), now, step) && ServerOk(Contents())
    {
      StepKeepsServer(emu, Contents(), now, step);
      match step {
        case DoSpawned => SpawnReturned(now);
        case DoSpawnFailed => SpawnFails();
        case DoProduce(data, bytes) => OnData(data, bytes);
        case DoRunTask(ok) => NextTask(ok);
        case DoAttach(p) => var _ := AttachPeer(p);
        case DoDetach(p) => DetachPeer(p, now);
        case DoResize(p, c, r) => ResizeBy(p, c, r);
        case DoTakeControl(p) => GiveControl(p);
        case DoClose(why) => BeginClose(why);
        case DoProcessExit => ProcessEnds();
        case DoProcessClosed => ProcessIsClosed();
        case DoCloseFailed => ClosingFails();
        case DoFinishClose => EndClose();
        case DoWaiterResumes => CloseResumes();
        case DoExamine => Sweep(now);
      }
    }
  }
}
