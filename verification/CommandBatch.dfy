/** The server's loop over the commands of a response: it grows the events to append
    and remembers, per activity and timer, the index of its event. */
module CommandBatch {
  import opened Events
  import opened Store
  import opened Continuations

  /** The indexes, into the events, of the commands that `f` picks. */
  function IndexesOf(cmds: seq<Command>, f: Command -> bool): (r: seq<nat>)
    ensures forall j :: 0 <= j < |r| ==> 1 <= r[j] <= |cmds| && f(cmds[r[j] - 1])
  {
    if cmds == [] then []
    else IndexesOf(cmds[..|cmds| - 1], f) + if f(cmds[|cmds| - 1]) then [|cmds|] else []
  }

  predicate IsActivity(c: Command) { c.ScheduleActivityTask? }
  predicate IsTimer(c: Command) { c.StartTimer? }

  datatype Batch = Batch(
    events: seq<Attributes>, activityIndex: seq<nat>, timerIndex: seq<nat>,
    terminals: nat, schedulings: nat, closing: Option<Command>)

  lemma {:induction false} CommandNext(cmds: seq<Command>, i: nat, f: Command -> bool)
    requires i < |cmds|
    ensures Count(cmds[..i + 1], f) == Count(cmds[..i], f) + if f(cmds[i]) then 1 else 0
    ensures IndexesOf(cmds[..i + 1], f) == IndexesOf(cmds[..i], f) + if f(cmds[i]) then [i + 1] else []
    ensures TerminalOf(cmds[..i + 1]) == if Terminal(cmds[i]) then Some(cmds[i]) else TerminalOf(cmds[..i])
  {
    assert cmds[..i + 1][..i] == cmds[..i];
  }

  lemma EventsNext(cmds: seq<Command>, i: nat, run: Run, newRunId: Uuid)
    requires i < |cmds| && Unsupported !in cmds[..i] && cmds[i] != Unsupported
    ensures Unsupported !in cmds[..i + 1]
    ensures EventsOf(cmds[..i + 1], run, newRunId) == EventsOf(cmds[..i], run, newRunId) + [EventOf(cmds[i], run, newRunId)]
  {
  }

  /** One pass over the commands; none if some command is not recognised. */
  method ReadCommands(cmds: seq<Command>, run: Run, newRunId: Uuid) returns (r: Option<Batch>)
    ensures r.None? <==> Unsupported in cmds
    ensures r.Some? ==>
      && r.value.events == [WorkflowTaskCompleted] + EventsOf(cmds, run, newRunId)
      && r.value.activityIndex == IndexesOf(cmds, IsActivity) && r.value.timerIndex == IndexesOf(cmds, IsTimer)
      && r.value.terminals == Count(cmds, Terminal) && r.value.schedulings == Count(cmds, Scheduling)
      && r.value.closing == TerminalOf(cmds)
  {
    hide EventsOf, Count, IndexesOf, TerminalOf, EventOf;
    var events: seq<Attributes> := [WorkflowTaskCompleted];
    var activityIndex, timerIndex: seq<nat>, terminals: nat, schedulings: nat, closing: Option<Command> := [], [], 0, 0, None;
    NothingRead(run, newRunId);
    assert cmds[..0] == [];
    for i := 0 to |cmds|
      invariant Unsupported !in cmds[..i] && events == [WorkflowTaskCompleted] + EventsOf(cmds[..i], run, newRunId)
      invariant activityIndex == IndexesOf(cmds[..i], IsActivity) && timerIndex == IndexesOf(cmds[..i], IsTimer)
      invariant terminals == Count(cmds[..i], Terminal) && schedulings == Count(cmds[..i], Scheduling)
      invariant closing == TerminalOf(cmds[..i]) && |events| == i + 1
    {
      var c := cmds[i];
      if c == Unsupported { return None; }
      EventsNext(cmds, i, run, newRunId);
      CommandNext(cmds, i, IsActivity);
      CommandNext(cmds, i, IsTimer);
      CommandNext(cmds, i, Terminal);
      CommandNext(cmds, i, Scheduling);
      var event := EventAttributes(c, run, newRunId);
      events := events + [event];
      match c {
        case ScheduleActivityTask(_) =>
          schedulings := schedulings + 1;
          activityIndex := activityIndex + [|events| - 1];
        case StartTimer(_, _) =>
          schedulings := schedulings + 1;
          timerIndex := timerIndex + [|events| - 1];
        case CompleteWorkflowExecution(_) => terminals, closing := terminals + 1, Some(c);
        case FailWorkflowExecution(_) => terminals, closing := terminals + 1, Some(c);
        case ContinueAsNewWorkflowExecution(_) => terminals, closing := terminals + 1, Some(c);
      }
    }
    assert cmds[..|cmds|] == cmds;
    r := Some(Batch(events, activityIndex, timerIndex, terminals, schedulings, closing));
  }

  lemma NothingRead(run: Run, newRunId: Uuid)
    ensures EventsOf([], run, newRunId) == [] && TerminalOf([]) == None
    ensures IndexesOf([], IsActivity) == [] && IndexesOf([], IsTimer) == []
    ensures Count([], Terminal) == 0 && Count([], Scheduling) == 0
  {
  }

  /** The event for one command. */
  method EventAttributes(c: Command, run: Run, newRunId: Uuid) returns (a: Attributes)
    requires c != Unsupported
    ensures a == EventOf(c, run, newRunId)
  {
    match c {
      case ScheduleActivityTask(s) => a := ActivityTaskScheduled(s);
      case StartTimer(id, d) => a := TimerStarted(id, d);
      case CompleteWorkflowExecution(r) => a := WorkflowExecutionCompleted(r);
      case FailWorkflowExecution(f) => a := WorkflowExecutionFailed(f);
      case ContinueAsNewWorkflowExecution(k) =>
        var workflowType, taskQueue := k.workflowType, k.taskQueue;
        if workflowType == "" { workflowType := run.workflowType; }
        if taskQueue == "" { taskQueue := run.taskQueue; }
        a := WorkflowExecutionContinuedAsNew(newRunId, workflowType, taskQueue, k.input);
    }
  }

  /** FailActivityTask's scan of the types that must not be retried. */
  method IsRetryable(row: ActivityTask, failure: Failure) returns (retryable: bool)
    ensures retryable <==> (row.maxAttempts == 0 || row.attempt < row.maxAttempts) && failure.kind !in row.nonRetryable
    ensures retryable == Retryable(row, failure)
  {
    retryable := row.maxAttempts == 0 || row.attempt < row.maxAttempts;
    for i := 0 to |row.nonRetryable|
      invariant failure.kind !in row.nonRetryable[..i]
    {
      if row.nonRetryable[i] == failure.kind {
        retryable := false;
        break;
      }
    }
  }

  /** The checks that follow the loop. */
  method CheckCommands(cmds: seq<Command>, run: Run, newRunId: Uuid) returns (err: Option<Error>, batch: Batch)
    ensures err == Rejection(cmds)
    ensures err == None ==>
      && Unsupported !in cmds && batch.events == [WorkflowTaskCompleted] + EventsOf(cmds, run, newRunId)
      && batch.activityIndex == IndexesOf(cmds, IsActivity) && batch.timerIndex == IndexesOf(cmds, IsTimer)
      && batch.closing == TerminalOf(cmds)
  {
    hide EventsOf, Count, IndexesOf, TerminalOf;
    batch := Batch([], [], [], 0, 0, None);
    var read := ReadCommands(cmds, run, newRunId);
    if read.None? { return Some(UnsupportedCommand), batch; }
    batch := read.value;
    if batch.terminals > 1 { return Some(ManyTerminals), batch; }
    LastTerminal(cmds);
    if batch.closing.Some? && batch.closing.value.ContinueAsNewWorkflowExecution? && batch.schedulings > 0 {
      return Some(MixedContinuation), batch;
    }
    err := None;
  }

  /** With at most one terminal command, the closing command is a continue-as-new
      exactly when there is one. */
  lemma LastTerminal(cmds: seq<Command>)
    requires Count(cmds, Terminal) <= 1
    ensures (exists c :: c in cmds && c.ContinueAsNewWorkflowExecution?) <==>
      TerminalOf(cmds).Some? && TerminalOf(cmds).value.ContinueAsNewWorkflowExecution?
  {
    var j := ContinuationAt(cmds);
    if c :| c in cmds && c.ContinueAsNewWorkflowExecution? {
      var i :| 0 <= i < |cmds| && cmds[i] == c;
    }
  }
}
