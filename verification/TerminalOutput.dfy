/** What becomes of the process's output, and what each operation of a connection achieves. */
module TerminalOutput {
  import opened Prelude
  import opened TerminalHub

  datatype ScreenOp = WriteOp(data: string) | ResizeOp(cols: nat, rows: nat)

  function Replay<S>(emu: Emulator<S>, screen: S, ops: seq<ScreenOp>): S
    decreases |ops|
  {
    if ops == [] then screen
    else
      var before := Replay(emu, screen, ops[..|ops| - 1]);
      match ops[|ops| - 1]
      case WriteOp(data) => emu.write(before, data)
      case ResizeOp(cols, rows) => emu.resize(before, cols, rows)
  }

  /** What the process printed up to state `n`. */
  function Printed(steps: seq<Timed>, n: nat): seq<string>
    requires n <= |steps|
  {
    if n == 0 then []
    else Printed(steps, n - 1) + if steps[n - 1].step.DoProduce? then [steps[n - 1].step.data] else []
  }

  /** A resize counts only if its connection still controls the running terminal and the process takes it. */
  function Effect<S>(e: Entry<S>, step: Step): seq<ScreenOp> {
    if !step.DoRunTask? || e.queue == [] then []
    else
      match e.queue[0]
      case WriteTask(data, _) => [WriteOp(data)]
      case ResizeTask(p, cols, rows) =>
        if e.state == Running && e.writer == Some(p) && step.ok then [ResizeOp(cols, rows)] else []
      case AttachTask(_) => []
  }

  /** What was done to the screen up to state `n`. */
  function Done<S>(es: seq<Entry<S>>, steps: seq<Timed>, n: nat): seq<ScreenOp>
    requires n <= |steps| && n <= |es|
  {
    if n == 0 then [] else Done(es, steps, n - 1) + Effect(es[n - 1], steps[n - 1].step)
  }

  function WrittenData(ops: seq<ScreenOp>): seq<string> {
    if ops == [] then []
    else WrittenData(ops[..|ops| - 1]) + if ops[|ops| - 1].WriteOp? then [ops[|ops| - 1].data] else []
  }

  function QueuedData(queue: seq<Task>): seq<string> {
    if queue == [] then []
    else (if queue[0].WriteTask? then [queue[0].data] else []) + QueuedData(queue[1..])
  }

  lemma {:induction false} QueuedAppend(queue: seq<Task>, task: Task)
    ensures QueuedData(queue + [task]) == QueuedData(queue) + if task.WriteTask? then [task.data] else []
  {
    if queue == [] {
      assert [] + [task] == [task] && [task][1..] == [];
    } else {
      var tail := queue[1..];
      var head := if queue[0].WriteTask? then [queue[0].data] else [];
      var last := if task.WriteTask? then [task.data] else [];
      QueuedAppend(tail, task);
      assert (queue + [task])[0] == queue[0] && (queue + [task])[1..] == tail + [task];
      assert head + (QueuedData(tail) + last) == (head + QueuedData(tail)) + last;
    }
  }

  /** The queue is as it was, or one task longer; printing makes it longer by what was printed. */
  predicate Lengthened(before: seq<Task>, now: seq<Task>, step: Step) {
    if step.DoProduce? then now == before + [WriteTask(step.data, step.bytes)]
    else now == before || (|now| == |before| + 1 && now[..|before|] == before && !now[|before|].WriteTask?)
  }

  /** One step moves at most one piece of output, from the process to the queue or from the queue to the screen. */
  lemma QueueMoves<S>(emu: Emulator<S>, e: Entry<S>, now: int, step: Step)
    requires Enabled(e, step)
    ensures step.DoRunTask? ==> e.queue != [] && Next(emu, e, now, step).queue == e.queue[1..]
    ensures !step.DoRunTask? ==> Lengthened(e.queue, Next(emu, e, now, step).queue, step)
  {
    if step.DoRunTask? {
      TaskTaken(emu, e, step.ok);
    }
  }

  lemma TaskTaken<S>(emu: Emulator<S>, e: Entry<S>, ok: bool)
    requires e.queue != []
    ensures RunTask(emu, e, ok).queue == e.queue[1..]
  {
    match e.queue[0]
    case WriteTask(_, _) =>
    case ResizeTask(_, _, _) =>
    case AttachTask(_) =>
  }

  lemma ScreenMoves<S>(emu: Emulator<S>, e: Entry<S>, now: int, step: Step, start: S, ops: seq<ScreenOp>)
    requires Enabled(e, step) && e.screen == Replay(emu, start, ops) && e.seqNo == |ops|
    ensures var f := Next(emu, e, now, step); var more := ops + Effect(e, step);
      f.screen == Replay(emu, start, more) && f.seqNo == |more|
  {
    if step.DoRunTask? {
      var effect := Effect(e, step);
      if effect != [] {
        assert (ops + effect)[..|ops|] == ops;
      } else {
        assert ops + effect == ops;
      }
      TaskScreen(emu, e, step.ok);
    } else {
      assert ops + Effect(e, step) == ops;
      QuietScreen(emu, e, now, step);
    }
  }

  lemma TaskScreen<S>(emu: Emulator<S>, e: Entry<S>, ok: bool)
    requires e.queue != []
    ensures var f := RunTask(emu, e, ok); var effect := Effect(e, DoRunTask(ok));
      && f.screen == (if effect == [] then e.screen
                      else if effect[0].WriteOp? then emu.write(e.screen, effect[0].data)
                      else emu.resize(e.screen, effect[0].cols, effect[0].rows))
      && f.seqNo == e.seqNo + |effect|
  {
    match e.queue[0]
    case WriteTask(_, _) =>
    case ResizeTask(_, _, _) =>
    case AttachTask(_) =>
  }

  lemma QuietScreen<S>(emu: Emulator<S>, e: Entry<S>, now: int, step: Step)
    requires Enabled(e, step) && !step.DoRunTask?
    ensures Next(emu, e, now, step).screen == e.screen && Next(emu, e, now, step).seqNo == e.seqNo
  {
    match step
    case DoExamine =>
    case DoProcessExit =>
    case DoClose(_) =>
    case DoFinishClose =>
    case _ =>
  }

  lemma DataMoves<S>(emu: Emulator<S>, e: Entry<S>, now: int, step: Step, printed: seq<string>, ops: seq<ScreenOp>)
    requires Enabled(e, step) && printed == WrittenData(ops) + QueuedData(e.queue)
    ensures printed + (if step.DoProduce? then [step.data] else []) ==
      WrittenData(ops + Effect(e, step)) + QueuedData(Next(emu, e, now, step).queue)
  {
    QueueMoves(emu, e, now, step);
    if step.DoRunTask? {
      TaskData(e, step, ops);
    } else {
      assert ops + Effect(e, step) == ops;
      LongerData(e.queue, Next(emu, e, now, step).queue, step);
    }
  }

  lemma TaskData<S>(e: Entry<S>, step: Step, ops: seq<ScreenOp>)
    requires step.DoRunTask? && e.queue != []
    ensures WrittenData(ops) + QueuedData(e.queue) == WrittenData(ops + Effect(e, step)) + QueuedData(e.queue[1..])
  {
    var effect := Effect(e, step);
    if effect == [] {
      assert ops + effect == ops;
    } else {
      WrittenMore(ops, effect[0]);
      assert ops + effect == ops + [effect[0]];
    }
  }

  lemma WrittenMore(ops: seq<ScreenOp>, op: ScreenOp)
    ensures WrittenData(ops + [op]) == WrittenData(ops) + if op.WriteOp? then [op.data] else []
  {
    assert (ops + [op])[..|ops|] == ops;
  }

  lemma LongerData(before: seq<Task>, now: seq<Task>, step: Step)
    requires Lengthened(before, now, step)
    ensures QueuedData(now) == QueuedData(before) + if step.DoProduce? then [step.data] else []
  {
    if now != before {
      assert now == before + [now[|before|]];
      QueuedAppend(before, now[|before|]);
    }
  }

  /**
   No output is lost, repeated or reordered: at every moment, what the process
   printed is what was written to the screen followed by what is still queued;
   the screen is the result of exactly the writes and effective resizes done, and
   the sequence number counts them.
   */
  lemma {:induction false} NoOutputLost<S(!new)>(emu: Emulator<S>, es: seq<Entry<S>>, steps: seq<Timed>, n: nat)
    requires Life(emu, es, steps) && n < |es|
    ensures Printed(steps, n) == WrittenData(Done(es, steps, n)) + QueuedData(es[n].queue)
    ensures es[n].screen == Replay(emu, es[0].screen, Done(es, steps, n))
    ensures es[n].seqNo == |Done(es, steps, n)|
    decreases n
  {
    if n > 0 {
      NoOutputLost(emu, es, steps, n - 1);
      var e, now, step := es[n - 1], steps[n - 1].now, steps[n - 1].step;
      ScreenMoves(emu, e, now, step, es[0].screen, Done(es, steps, n - 1));
      DataMoves(emu, e, now, step, Printed(steps, n - 1), Done(es, steps, n - 1));
    }
  }
}
