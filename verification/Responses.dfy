/** What an accepted workflow task response does, in terms of its commands. */
module Responses {
  import opened Events
  import opened Store
  import opened Soundness
  import opened Continuations
  import opened Transactions

  /** The event that records a command, with all the command says. */
  ghost predicate EventFor(c: Command, run: Run, newRunId: Uuid, a: Attributes)
  {
    match c
    case ScheduleActivityTask(s) => a == ActivityTaskScheduled(s)
    case StartTimer(id, d) => a == TimerStarted(id, d)
    case CompleteWorkflowExecution(v) => a == WorkflowExecutionCompleted(v)
    case FailWorkflowExecution(f) => a == WorkflowExecutionFailed(f)
    case ContinueAsNewWorkflowExecution(k) =>
      a == WorkflowExecutionContinuedAsNew(newRunId, Given(k.workflowType, run.workflowType), Given(k.taskQueue, run.taskQueue), k.input)
    case Unsupported => false
  }

  /** A field left empty is the closing run's. */
  function Given(v: string, inherited: string): string
  {
    if |v| > 0 then v else inherited
  }

  function GivenTimeout(v: Option<int>, inherited: Option<int>): Option<int>
  {
    match v
    case None => inherited
    case Some(d) => Timeout(d)
  }

  /** How a run is closed by a terminal command. */
  ghost predicate ClosedBy(c: Command, run: Run, run': Run, now: int)
  {
    && run'.closeTime == Some(now) && run'.stickyWorker == run.stickyWorker && run'.stickyExpires == run.stickyExpires
    && match c
      case CompleteWorkflowExecution(_) => run'.status == COMPLETED
      case FailWorkflowExecution(_) => run'.status == FAILED
      case ContinueAsNewWorkflowExecution(_) => run'.status == CONTINUED_AS_NEW
      case _ => false
  }

  predicate Ends(c: Command)
  {
    c.CompleteWorkflowExecution? || c.FailWorkflowExecution? || c.ContinueAsNewWorkflowExecution?
  }

  /** A run that goes on: only its stickiness is written, to what the response asks
      for or to nothing. */
  ghost predicate GoesOn(run: Run, run': Run, sticky: Option<Sticky>, now: int)
  {
    && run'.status == run.status && run'.closeTime == run.closeTime
    && (if sticky.Some? && |sticky.value.worker| > 0
        then run'.stickyWorker == Some(sticky.value.worker) && run'.stickyExpires == Some(now + sticky.value.scheduleToStart)
        else run'.stickyWorker == None && run'.stickyExpires == None)
  }

  /** The run that takes over, and its first task. */
  ghost predicate TakenOver(db': Db, key: RunKey, run: Run, id: Uuid, k: Continuation, now: int)
  {
    var next, queue := RunKey(key.workflow, id), Given(k.taskQueue, run.taskQueue);
    && next in db'.runs && key.workflow in db'.currents && db'.currents[key.workflow] == Current(id, Synthetic(id + 1))
    && NewRow(db'.runs[next], WorkflowExecutionStarted(Given(k.workflowType, run.workflowType), queue, k.input, k.retryPolicy, Some(key.runId)),
              run.executionTimeout, GivenTimeout(k.runTimeout, run.runTimeout), GivenTimeout(k.taskTimeout, run.taskTimeout), now)
    && db'.nextTaskId - 1 in db'.workflowTasks
    && db'.workflowTasks[db'.nextTaskId - 1] == WorkflowTask(next, queue, 2, now, None, None, false, None, None)
  }

  // --------------------------------------------------------------------- the parts

  lemma EventMeans(c: Command, run: Run, newRunId: Uuid)
    requires c != Unsupported
    ensures EventFor(c, run, newRunId, EventOf(c, run, newRunId))
  {
  }

  lemma TerminalIs(cmds: seq<Command>, i: nat)
    requires i < |cmds| && Ends(cmds[i]) && Count(cmds, Terminal) <= 1
    ensures TerminalOf(cmds) == Some(cmds[i])
  {
    assert cmds[i] in cmds;
    var c := TerminalOf(cmds).value;
    var j :| 0 <= j < |cmds| && cmds[j] == c;
    OneTerminal(cmds, i, j);
  }

  lemma NoTerminal(cmds: seq<Command>)
    requires forall i :: 0 <= i < |cmds| ==> !Ends(cmds[i])
    ensures TerminalOf(cmds) == None
  {
  }

  lemma CloseMeans(db: Db, key: RunKey, run: Run, c: Command, newRunId: Uuid, now: int)
    requires key in db.runs && RunKey(key.workflow, newRunId) !in db.runs && Ends(c)
    ensures var db' := CloseWith(db, key, run, c, newRunId, now);
      && key in db'.runs && ClosedBy(c, db.runs[key], db'.runs[key], now)
      && (c.ContinueAsNewWorkflowExecution? ==> TakenOver(db', key, run, newRunId, c.continuation, now))
      && (!c.ContinueAsNewWorkflowExecution? ==> db'.currents == db.currents && db'.workflowTasks == db.workflowTasks)
  {
    var closed := CloseRun(db, key, StatusOf(c), now);
    if c.ContinueAsNewWorkflowExecution? {
      var k := c.continuation;
      CreateMeans(closed.(nextUuid := newRunId + 2), RunKey(key.workflow, newRunId), Synthetic(newRunId + 1),
        StringOrFallback(k.workflowType, run.workflowType), StringOrFallback(k.taskQueue, run.taskQueue),
        k.input, k.retryPolicy, run.executionTimeout,
        DurationOrFallback(k.runTimeout, run.runTimeout), DurationOrFallback(k.taskTimeout, run.taskTimeout),
        Some(key.runId), now);
    }
    hide CreateRun, NewRow;
  }

  lemma ConcludeMeans(db: Db, key: RunKey, run: Run, cmds: seq<Command>, newRunId: Uuid, sticky: Option<Sticky>, now: int)
    requires key in db.runs && RunKey(key.workflow, newRunId) !in db.runs && Count(cmds, Terminal) <= 1
    ensures var db' := Conclude(db, key, run, cmds, newRunId, sticky, now);
      && key in db'.runs
      && (forall i :: 0 <= i < |cmds| && Ends(cmds[i]) ==>
            && ClosedBy(cmds[i], db.runs[key], db'.runs[key], now)
            && (cmds[i].ContinueAsNewWorkflowExecution? ==> TakenOver(db', key, run, newRunId, cmds[i].continuation, now)))
      && ((forall i :: 0 <= i < |cmds| ==> !Ends(cmds[i])) ==> GoesOn(db.runs[key], db'.runs[key], sticky, now))
      && ((forall i :: 0 <= i < |cmds| ==> !cmds[i].ContinueAsNewWorkflowExecution?) ==>
            db'.currents == db.currents && db'.workflowTasks == db.workflowTasks)
  {
    hide CloseWith, TakenOver, ClosedBy, Count;
    forall i | 0 <= i < |cmds| && Ends(cmds[i]) ensures TerminalOf(cmds) == Some(cmds[i]) { TerminalIs(cmds, i); }
    if forall i :: 0 <= i < |cmds| ==> !Ends(cmds[i]) {
      NoTerminal(cmds);
    } else {
      var i :| 0 <= i < |cmds| && Ends(cmds[i]);
      TerminalIs(cmds, i);
      CloseMeans(db, key, run, cmds[i], newRunId, now);
    }
  }

  // ------------------------------------------------------------------ the whole

  /** The events of the response: WorkflowTaskCompleted and one for each command,
      under the next ids and stamped with its time. */
  ghost predicate ResponseRecorded(run: Run, h': seq<HistoryEvent>, cmds: seq<Command>, newRunId: Uuid, now: int)
  {
    var n := |run.history|;
    && |h'| == n + 1 + |cmds| && run.history <= h' && h'[n] == HistoryEvent(run.nextEventId, now, WorkflowTaskCompleted)
    && (forall i :: 0 <= i < |cmds| ==>
          && EventFor(cmds[i], run, newRunId, h'[n + 1 + i].attributes)
          && h'[n + 1 + i].eventId == run.nextEventId + 1 + i && h'[n + 1 + i].eventTime == now)
  }

  lemma CommandRecorded(run: Run, cmds: seq<Command>, newRunId: Uuid, now: int, i: nat)
    requires Unsupported !in cmds && i < |cmds|
    ensures var h', n := Extended(run, [WorkflowTaskCompleted] + EventsOf(cmds, run, newRunId), now).history, |run.history|;
      && n + 1 + i < |h'| && EventFor(cmds[i], run, newRunId, h'[n + 1 + i].attributes)
      && h'[n + 1 + i].eventId == run.nextEventId + 1 + i && h'[n + 1 + i].eventTime == now
  {
    hide Extended, EventsOf, EventOf, EventFor;
    var attrs := [WorkflowTaskCompleted] + EventsOf(cmds, run, newRunId);
    ExtendedMeans(run, attrs, now);
    EventMeans(cmds[i], run, newRunId);
    assert attrs[1 + i] == EventOf(cmds[i], run, newRunId);
    assert Extended(run, attrs, now).history[|run.history| + (1 + i)] == HistoryEvent(run.nextEventId + (1 + i), now, attrs[1 + i]);
  }

  lemma RecordedMeans(run: Run, cmds: seq<Command>, newRunId: Uuid, now: int)
    requires Unsupported !in cmds
    ensures ResponseRecorded(run, Extended(run, [WorkflowTaskCompleted] + EventsOf(cmds, run, newRunId), now).history, cmds, newRunId, now)
  {
    hide Extended, EventsOf, EventOf, EventFor;
    var attrs := [WorkflowTaskCompleted] + EventsOf(cmds, run, newRunId);
    ExtendedMeans(run, attrs, now);
    assert Extended(run, attrs, now).history[|run.history| + 0] == HistoryEvent(run.nextEventId + 0, now, attrs[0]);
    forall i | 0 <= i < |cmds| ensures
      var h', n := Extended(run, attrs, now).history, |run.history|;
      && n + 1 + i < |h'| && EventFor(cmds[i], run, newRunId, h'[n + 1 + i].attributes)
      && h'[n + 1 + i].eventId == run.nextEventId + 1 + i && h'[n + 1 + i].eventTime == now
    {
      CommandRecorded(run, cmds, newRunId, now, i);
    }
  }

  /** Of every accepted response, by its commands alone: the run has the event of each,
      with its result, failure or fields; a terminal command closes it as COMPLETED,
      FAILED or CONTINUED_AS_NEW, the last with a replacement run; without one it goes
      on, with the stickiness the response asks for. */
  lemma ResponseMeans(db: Db, token: TaskToken, cmds: seq<Command>, sticky: Option<Sticky>, now: int)
    requires Sound(db) && CompleteWorkflowTask(db, token, cmds, sticky, now).Commit?
    ensures token.key in db.runs
    ensures var db', run := CompleteWorkflowTask(db, token, cmds, sticky, now).db, db.runs[token.key];
      && token.key in db'.runs
      && ResponseRecorded(run, db'.runs[token.key].history, cmds, db.nextUuid, now)
      && (forall i :: 0 <= i < |cmds| && Ends(cmds[i]) ==>
            && ClosedBy(cmds[i], run, db'.runs[token.key], now)
            && (cmds[i].ContinueAsNewWorkflowExecution? ==> TakenOver(db', token.key, run, db.nextUuid, cmds[i].continuation, now)))
      && ((forall i :: 0 <= i < |cmds| ==> !Ends(cmds[i])) ==> GoesOn(run, db'.runs[token.key], sticky, now))
      && ((forall i :: 0 <= i < |cmds| ==> !cmds[i].ContinueAsNewWorkflowExecution?) ==>
            db'.currents == db.currents && db'.workflowTasks == db.workflowTasks - {token.taskId})
  {
    hide Sound, CompleteWorkflowTask, Conclude, Extended, EventsOf, TakenOver, ResponseRecorded, Count;
    var mid := AcceptedResponse(db, token, cmds, sticky, now);
    var run, key := db.runs[token.key], token.key;
    var attrs := [WorkflowTaskCompleted] + EventsOf(cmds, run, db.nextUuid);
    FreshRun(mid, key.workflow);
    ExtendedMeans(run, attrs, now);
    RecordedMeans(run, cmds, db.nextUuid, now);
    ConcludeMeans(mid, key, run, cmds, db.nextUuid, sticky, now);
    ConcludeRuns(mid, key, run, cmds, db.nextUuid, sticky, now);
  }

  // --------------------------------------------------------------- activity rows

  /** The row a schedule command becomes, for every policy and timeout it may carry. */
  lemma ActivityRowMeans(key: RunKey, queue: string, a: ActivityCommand, scheduled: int, now: int)
    ensures var t := ActivityRow(key, queue, a, scheduled, now);
      && t.key == key && t.taskQueue == queue && t.scheduledEventId == scheduled
      && t.activityId == a.activityId && t.activityType == a.activityType && t.input == a.input
      && t.attempt == 1 && t.visibleAt == now && !t.started && t.lease == None && t.leaseExpiry == None
      && (a.startToClose.Some? && a.startToClose.value > 0 ==> t.startToClose == a.startToClose.value)
      && (a.startToClose.None? || a.startToClose.value <= 0 ==> t.startToClose == 30_000_000_000)
      && t.scheduleToStart == (match a.scheduleToStart case Some(d) => d case None => 0)
      && (a.retryPolicy.None? ==>
            t.initialInterval == 0 && t.maxInterval == 0 && t.coefficient == 2.0 && t.maxAttempts == 0 && t.nonRetryable == [])
      && (a.retryPolicy.Some? ==>
            var p := a.retryPolicy.value;
            && t.maxAttempts == p.maxAttempts && t.nonRetryable == p.nonRetryable
            && t.coefficient == (if p.coefficient > 0.0 then p.coefficient else 2.0)
            && t.initialInterval == (match p.initialInterval case Some(d) => d case None => 0)
            && t.maxInterval == (match p.maxInterval case Some(d) => d case None => 0))
  {
  }
}
