/** When each transaction commits and what it then does to the tables, row by row. */
module Transactions {
  import opened Events
  import opened Store
  import opened Soundness

  /** The run has these further events, under the next ids, stamped with this time. */
  ghost predicate Appended(run: Run, run': Run, attrs: seq<Attributes>, now: int)
  {
    && run' == run.(nextEventId := run.nextEventId + |attrs|, history := run'.history)
    && |run'.history| == |run.history| + |attrs| && run.history <= run'.history
    && forall i :: 0 <= i < |attrs| ==> run'.history[|run.history| + i] == HistoryEvent(run.nextEventId + i, now, attrs[i])
  }

  /** No run but this one has changed. */
  ghost predicate OnlyRun(db: Db, db': Db, key: RunKey)
  {
    && key in db.runs && key in db'.runs && db'.runs.Keys == db.runs.Keys
    && forall k :: k in db.runs && k != key ==> db'.runs[k] == db.runs[k]
  }

  /** One workflow task row more. */
  ghost predicate TaskAdded(db: Db, db': Db, row: WorkflowTask)
  {
    db'.workflowTasks == db.workflowTasks[db.nextTaskId := row] && db'.nextTaskId == db.nextTaskId + 1
  }

  lemma ExtendedMeans(run: Run, attrs: seq<Attributes>, now: int)
    ensures Appended(run, Extended(run, attrs, now), attrs, now)
  {
  }

  /** An append commits exactly when there is nothing to append or the counter is the
      expected one; then the events are there, and nothing else has changed. */
  lemma AppendMeans(db: Db, key: RunKey, expected: int, attrs: seq<Attributes>, now: int)
    ensures var tx := AppendHistory(db, key, expected, attrs, now);
      && (tx.Commit? <==> attrs == [] || (key in db.runs && db.runs[key].nextEventId == expected))
      && (tx.Rollback? ==> tx.error == ConcurrentModification)
      && (attrs == [] ==> tx == Commit(db, []))
      && (tx.Commit? && attrs != [] ==>
            && OnlyRun(db, tx.db, key) && Appended(db.runs[key], tx.db.runs[key], attrs, now)
            && tx.db == db.(runs := tx.db.runs) && |tx.value| == |attrs|
            && forall i :: 0 <= i < |attrs| ==> tx.value[i] == expected + i)
  {
    if key in db.runs { ExtendedMeans(db.runs[key], attrs, now); }
    hide Extended;
  }

  // --------------------------------------------------------------------- wake-ups

  /** The run has the cause and a scheduled task in its history, and a pending task row
      for the latter, reserved for the run's sticky worker while that registration
      lasts. */
  ghost predicate Woke(db: Db, db': Db, key: RunKey, cause: Attributes, now: int)
  {
    && OnlyRun(db, db', key)
    && var run := db.runs[key];
      var reserved := run.stickyWorker.Some? && run.stickyExpires.Some? && run.stickyExpires.value >= now;
      && Appended(run, db'.runs[key], [cause, WorkflowTaskScheduled(run.taskQueue)], now)
      && TaskAdded(db, db', WorkflowTask(key, run.taskQueue, run.nextEventId + 1, now,
                                         if reserved then run.stickyWorker else None,
                                         if reserved then run.stickyExpires else None, false, None, None))
      && db' == db.(runs := db'.runs, workflowTasks := db'.workflowTasks, nextTaskId := db'.nextTaskId)
  }

  lemma WakeMeans(db: Db, key: RunKey, cause: Attributes, now: int)
    requires key in db.runs
    ensures Woke(db, Wake(db, key, cause, now), key, cause, now)
  {
    ExtendedMeans(db.runs[key], [cause, WorkflowTaskScheduled(db.runs[key].taskQueue)], now);
    hide Extended, Appended;
  }

  /** The token's activity row is there and still holds its lease. */
  ghost predicate Leased(db: Db, token: TaskToken)
  {
    token.taskId in db.activityTasks && db.activityTasks[token.taskId].lease == Some(token.lease)
  }

  /** A completed activity: its row must hold the token's lease. */
  lemma CompleteActivityMeans(db: Db, token: TaskToken, result: Payload, now: int)
    ensures var tx := CompleteActivityTask(db, token, result, now);
      && (tx.Commit? <==> Leased(db, token) && token.key in db.runs)
      && (tx.Rollback? ==> tx.error == if Leased(db, token) then NotFound else LeaseExpired)
      && (tx.Commit? ==> Woke(db.(activityTasks := db.activityTasks - {token.taskId}), tx.db, token.key,
                              ActivityTaskCompleted(db.activityTasks[token.taskId].activityId, result), now))
  {
    hide Wake, Woke;
    if token.key in db.runs && token.taskId in db.activityTasks {
      WakeMeans(db.(activityTasks := db.activityTasks - {token.taskId}), token.key,
                ActivityTaskCompleted(db.activityTasks[token.taskId].activityId, result), now);
    }
  }

  /** An activity failed for good, by the row that was read. */
  lemma FailActivityMeans(db: Db, token: TaskToken, row: ActivityTask, failure: Failure, now: int)
    ensures var tx := FailActivityTerminally(db, token, row, failure, now);
      && (tx.Commit? <==> Leased(db, token) && token.key in db.runs)
      && (tx.Rollback? ==> tx.error == if Leased(db, token) then NotFound else LeaseExpired)
      && (tx.Commit? ==> Woke(db.(activityTasks := db.activityTasks - {token.taskId}), tx.db, token.key,
                              ActivityTaskFailed(row.activityId, failure, row.attempt), now))
  {
    hide Wake, Woke;
    if token.key in db.runs {
      WakeMeans(db.(activityTasks := db.activityTasks - {token.taskId}), token.key,
                ActivityTaskFailed(row.activityId, failure, row.attempt), now);
    }
  }

  /** A retry puts the row back, one attempt on, out of sight for the delay. */
  lemma RetryMeans(db: Db, token: TaskToken, delay: int, now: int)
    ensures var tx := RetryActivityTask(db, token, delay, now);
      && (tx.Commit? <==> Leased(db, token)) && (tx.Rollback? ==> tx.error == LeaseExpired)
      && (tx.Commit? ==>
            var t, t' := db.activityTasks[token.taskId], tx.db.activityTasks[token.taskId];
            && tx.db == db.(activityTasks := db.activityTasks[token.taskId := t'])
            && !t'.started && t'.lease == None && t'.leaseExpiry == None
            && t'.attempt == t.attempt + 1 && t'.visibleAt == now + delay
            && t' == t.(started := t'.started, lease := t'.lease, leaseExpiry := t'.leaseExpiry, attempt := t'.attempt, visibleAt := t'.visibleAt))
  {
  }

  /** A timer fires exactly when it is pending and due and its run exists. */
  lemma FireMeans(db: Db, tk: TimerKey, now: int)
    ensures var tx := FireTimer(db, tk, now);
      && (tx.Commit? <==> tk in db.timers && db.timers[tk].fireAt <= now && tk.run in db.runs)
      && (tx.Rollback? ==> tx.error == if tk in db.timers && db.timers[tk].fireAt <= now then NotFound else NoTaskAvailable)
      && (tx.Commit? ==> Woke(db.(timers := db.timers - {tk}), tx.db, tk.run, TimerFired(tk.timerId), now))
  {
    hide Wake, Woke;
    if tk.run in db.runs { WakeMeans(db.(timers := db.timers - {tk}), tk.run, TimerFired(tk.timerId), now); }
  }

  // -------------------------------------------------------------- outside requests

  /** The run a request is for: the one it names, or the workflow's current run. */
  ghost predicate IsTarget(db: Db, wk: WorkflowKey, runId: Option<Uuid>, key: RunKey)
  {
    && key.workflow == wk && key in db.runs
    && (runId.Some? ==> key.runId == runId.value)
    && (runId.None? ==> wk in db.currents && key.runId == db.currents[wk].runId)
  }

  /** A request commits exactly when its run exists, and wakes that run and no other. */
  ghost predicate Reaches(db: Db, wk: WorkflowKey, runId: Option<Uuid>, cause: Attributes, now: int, tx: Tx<()>)
  {
    && (tx.Commit? <==> exists key :: IsTarget(db, wk, runId, key))
    && (tx.Rollback? ==> tx.error == NotFound)
    && (forall key :: IsTarget(db, wk, runId, key) ==> tx.Commit? && Woke(db, tx.db, key, cause, now))
  }

  lemma TargetMeans(db: Db, wk: WorkflowKey, runId: Option<Uuid>)
    ensures match ResolveRun(db, wk, runId)
      case Some(key) => IsTarget(db, wk, runId, key) && forall k :: IsTarget(db, wk, runId, k) ==> k == key
      case None => forall k :: !IsTarget(db, wk, runId, k)
  {
  }

  lemma SignalMeans(db: Db, wk: WorkflowKey, runId: Option<Uuid>, name: string, input: Payload, now: int)
    ensures Reaches(db, wk, runId, WorkflowExecutionSignaled(name, input), now, SignalWorkflow(db, wk, runId, name, input, now))
  {
    hide ResolveRun, IsTarget, Wake, Woke;
    TargetMeans(db, wk, runId);
    match ResolveRun(db, wk, runId) {
      case Some(key) => TargetExists(db, wk, runId, key); WakeMeans(db, key, WorkflowExecutionSignaled(name, input), now);
      case None =>
    }
  }

  lemma CancelMeans(db: Db, wk: WorkflowKey, runId: Option<Uuid>, reason: string, now: int)
    ensures Reaches(db, wk, runId, WorkflowExecutionCancelRequested(reason), now, RequestCancel(db, wk, runId, reason, now))
  {
    hide ResolveRun, IsTarget, Wake, Woke;
    TargetMeans(db, wk, runId);
    match ResolveRun(db, wk, runId) {
      case Some(key) => TargetExists(db, wk, runId, key); WakeMeans(db, key, WorkflowExecutionCancelRequested(reason), now);
      case None =>
    }
  }

  lemma TargetExists(db: Db, wk: WorkflowKey, runId: Option<Uuid>, key: RunKey)
    requires IsTarget(db, wk, runId, key)
    ensures key in db.runs
  {
  }

  /** A termination is recorded in its run, which is closed; nothing else changes. */
  lemma TerminateMeans(db: Db, wk: WorkflowKey, runId: Option<Uuid>, reason: string, now: int)
    ensures var tx := Terminate(db, wk, runId, reason, now);
      && (tx.Commit? <==> exists key :: IsTarget(db, wk, runId, key))
      && (tx.Rollback? ==> tx.error == NotFound)
      && (forall key :: IsTarget(db, wk, runId, key) && tx.Commit? ==>
            && OnlyRun(db, tx.db, key) && tx.db == db.(runs := tx.db.runs)
            && tx.db.runs[key].status == TERMINATED && tx.db.runs[key].closeTime == Some(now)
            && Appended(db.runs[key].(status := TERMINATED, closeTime := Some(now)), tx.db.runs[key], [WorkflowExecutionTerminated(reason)], now))
  {
    hide ResolveRun, IsTarget, Extended;
    TargetMeans(db, wk, runId);
    match ResolveRun(db, wk, runId) {
      case Some(key) => TargetExists(db, wk, runId, key); TerminatedRun(db, key, reason, now);
      case None =>
    }
  }

  lemma TerminatedRun(db: Db, key: RunKey, reason: string, now: int)
    requires key in db.runs
    ensures var db' := CloseRun(Append(db, key, [WorkflowExecutionTerminated(reason)], now), key, TERMINATED, now);
      && OnlyRun(db, db', key) && db' == db.(runs := db'.runs)
      && db'.runs[key].status == TERMINATED && db'.runs[key].closeTime == Some(now)
      && Appended(db.runs[key].(status := TERMINATED, closeTime := Some(now)), db'.runs[key], [WorkflowExecutionTerminated(reason)], now)
  {
  }

  // -------------------------------------------------------------------- dispatch

  /** A poll leases a workflow task exactly when the row is of its queue and namespace,
      pending and visible, and not reserved for another worker; that row alone
      changes. */
  lemma DequeueWorkflowMeans(db: Db, id: nat, ns: int, queue: string, worker: string, now: int)
    ensures var tx := DequeueWorkflowTask(db, id, ns, queue, worker, now);
      && (tx.Commit? <==>
            && id in db.workflowTasks
            && var t := db.workflowTasks[id];
              && t.taskQueue == queue && t.key.workflow.ns == ns && !t.started && t.visibleAt <= now
              && (|| t.preferredWorker == None
                  || (worker != "" && t.preferredWorker == Some(worker))
                  || (t.stickyDeadline.Some? && t.stickyDeadline.value < now)))
      && (tx.Rollback? ==> tx.error == NoTaskAvailable)
      && (tx.Commit? ==>
            var t, t' := db.workflowTasks[id], tx.db.workflowTasks[id];
            && tx.db == db.(workflowTasks := db.workflowTasks[id := t'], nextUuid := db.nextUuid + 1)
            && t'.started && t'.lease == Some(db.nextUuid) && t'.leaseExpiry == Some(now + 10_000_000_000)
            && t' == t.(started := t'.started, lease := t'.lease, leaseExpiry := t'.leaseExpiry)
            && tx.value == TaskToken(t.key, id, db.nextUuid))
  {
  }

  lemma DequeueActivityMeans(db: Db, id: nat, ns: int, queue: string, now: int)
    ensures var tx := DequeueActivityTask(db, id, ns, queue, now);
      && (tx.Commit? <==>
            && id in db.activityTasks
            && var t := db.activityTasks[id]; t.taskQueue == queue && t.key.workflow.ns == ns && !t.started && t.visibleAt <= now)
      && (tx.Rollback? ==> tx.error == NoTaskAvailable)
      && (tx.Commit? ==>
            var t, t' := db.activityTasks[id], tx.db.activityTasks[id];
            && tx.db == db.(activityTasks := db.activityTasks[id := t'], nextUuid := db.nextUuid + 1)
            && t'.started && t'.lease == Some(db.nextUuid) && t'.leaseExpiry == Some(now + t.startToClose)
            && t' == t.(started := t'.started, lease := t'.lease, leaseExpiry := t'.leaseExpiry)
            && tx.value == (TaskToken(t.key, id, db.nextUuid), t'))
  {
  }

  /** Recording that a task or an attempt has started adds just that event. */
  lemma RecordStartedMeans(db: Db, key: RunKey, activityId: int, attempt: int, now: int)
    ensures var tx := RecordWorkflowTaskStarted(db, key, now);
      && (tx.Commit? <==> key in db.runs) && (tx.Rollback? ==> tx.error == NotFound)
      && (tx.Commit? ==> OnlyRun(db, tx.db, key) && tx.db == db.(runs := tx.db.runs)
                         && Appended(db.runs[key], tx.db.runs[key], [WorkflowTaskStarted], now))
    ensures var tx := RecordActivityTaskStarted(db, key, activityId, attempt, now);
      && (tx.Commit? <==> key in db.runs) && (tx.Rollback? ==> tx.error == NotFound)
      && (tx.Commit? ==> OnlyRun(db, tx.db, key) && tx.db == db.(runs := tx.db.runs)
                         && Appended(db.runs[key], tx.db.runs[key], [ActivityTaskStarted(activityId, attempt)], now))
  {
    if key in db.runs {
      ExtendedMeans(db.runs[key], [WorkflowTaskStarted], now);
      ExtendedMeans(db.runs[key], [ActivityTaskStarted(activityId, attempt)], now);
    }
    hide Extended, Appended;
  }

  /** The reapers free exactly the rows whose lease has run out. */
  lemma ReapMeans(db: Db, now: int)
    ensures var db' := ReapWorkflowTasks(db, now);
      && db' == db.(workflowTasks := db'.workflowTasks) && db'.workflowTasks.Keys == db.workflowTasks.Keys
      && forall id :: id in db.workflowTasks ==>
        var t := db.workflowTasks[id];
        db'.workflowTasks[id] == if t.started && t.leaseExpiry.Some? && now > t.leaseExpiry.value
                                 then t.(started := false, lease := None, leaseExpiry := None) else t
    ensures var db' := ReapActivityTasks(db, now);
      && db' == db.(activityTasks := db'.activityTasks) && db'.activityTasks.Keys == db.activityTasks.Keys
      && forall id :: id in db.activityTasks ==>
        var t := db.activityTasks[id];
        db'.activityTasks[id] == if t.started && t.leaseExpiry.Some? && now > t.leaseExpiry.value
                                 then t.(started := false, lease := None, leaseExpiry := None) else t
  {
  }

  // ----------------------------------------------------------------------- new runs

  /** A run that did not exist is there: open, current, with these fields in its row
      and its start event, and one pending task for its second event. */
  ghost predicate RunCreated(db: Db, db': Db, key: RunKey, requestId: RequestId, start: Attributes,
    executionTimeout: Option<int>, runTimeout: Option<int>, taskTimeout: Option<int>, now: int)
    requires start.WorkflowExecutionStarted?
  {
    && key !in db.runs && db'.runs.Keys == db.runs.Keys + {key}
    && (forall k :: k in db.runs ==> db'.runs[k] == db.runs[k])
    && db'.currents == db.currents[key.workflow := Current(key.runId, requestId)]
    && TaskAdded(db, db', WorkflowTask(key, start.taskQueue, 2, now, None, None, false, None, None))
    && db'.activityTasks == db.activityTasks && db'.timers == db.timers
    && NewRow(db'.runs[key], start, executionTimeout, runTimeout, taskTimeout, now)
  }

  ghost predicate NewRow(run: Run, start: Attributes, executionTimeout: Option<int>, runTimeout: Option<int>, taskTimeout: Option<int>, now: int)
    requires start.WorkflowExecutionStarted?
  {
    && run.status == RUNNING && run.nextEventId == 3 && run.startTime == now && run.closeTime == None
    && run.workflowType == start.workflowType && run.taskQueue == start.taskQueue
    && run.executionTimeout == executionTimeout && run.runTimeout == runTimeout && run.taskTimeout == taskTimeout
    && run.stickyWorker == None && run.stickyExpires == None
    && run.history == [HistoryEvent(1, now, start), HistoryEvent(2, now, WorkflowTaskScheduled(start.taskQueue))]
  }

  lemma CreateMeans(db: Db, key: RunKey, requestId: RequestId, workflowType: string, taskQueue: string, input: Payload,
    retryPolicy: Option<RetryPolicy>, executionTimeout: Option<int>, runTimeout: Option<int>,
    taskTimeout: Option<int>, continuedFrom: Option<Uuid>, now: int)
    requires key !in db.runs
    ensures RunCreated(db, CreateRun(db, key, requestId, workflowType, taskQueue, input, retryPolicy, executionTimeout,
                                     runTimeout, taskTimeout, continuedFrom, now),
      key, requestId, WorkflowExecutionStarted(workflowType, taskQueue, input, retryPolicy, continuedFrom),
      executionTimeout, runTimeout, taskTimeout, now)
  {
    var run := Run(workflowType, taskQueue, RUNNING, 1, executionTimeout, runTimeout, taskTimeout, None, None, now, None, []);
    var start := WorkflowExecutionStarted(workflowType, taskQueue, input, retryPolicy, continuedFrom);
    var started := [start, WorkflowTaskScheduled(taskQueue)];
    assert Stamp(1, started, now) == [HistoryEvent(1, now, start), HistoryEvent(2, now, WorkflowTaskScheduled(taskQueue))];
    assert Extended(run, started, now).history == [] + Stamp(1, started, now);
    assert NewRow(Extended(run, started, now), start, executionTimeout, runTimeout, taskTimeout, now);
    hide Extended, Stamp, NewRow;
  }

  /** A start repeats an earlier one: the current run was started by the same request. */
  ghost predicate Repeats(db: Db, wk: WorkflowKey, p: StartParams)
  {
    wk in db.currents && db.currents[wk].requestId == Client(p.requestId)
  }

  /** A timeout of zero or less is none. */
  function Timeout(requested: int): Option<int>
  {
    if requested > 0 then Some(requested) else None
  }

  /** A start is accepted exactly when the workflow has no current run, or it repeats
      the start of the current run, or the current run exists and is not RUNNING. A
      repetition changes nothing; otherwise there is a new open, current run with
      exactly the requested type, queue, input, policy and timeouts. */
  lemma StartMeans(db: Db, wk: WorkflowKey, p: StartParams, now: int)
    requires Sound(db)
    ensures var tx := StartWorkflow(db, wk, p, now);
      && (tx.Commit? <==>
            || wk !in db.currents || Repeats(db, wk, p)
            || (var key := RunKey(wk, db.currents[wk].runId); key in db.runs && db.runs[key].status != RUNNING))
      && (tx.Rollback? ==> tx.error == if RunKey(wk, db.currents[wk].runId) in db.runs then AlreadyRunning else NotFound)
      && (Repeats(db, wk, p) ==> tx == Commit(db, db.currents[wk].runId))
      && (tx.Commit? && !Repeats(db, wk, p) ==>
            && tx.value == db.nextUuid && tx.db.nextUuid == db.nextUuid + 1
            && RunCreated(db, tx.db, RunKey(wk, db.nextUuid), Client(p.requestId),
                          WorkflowExecutionStarted(p.workflowType, p.taskQueue, p.input, p.retryPolicy, None),
                          Timeout(p.executionTimeout), Timeout(p.runTimeout), Timeout(p.taskTimeout), now))
  {
    hide SoundRows, CreateRun, RunCreated;
    FreshRun(db, wk);
    var e, r, t := PositiveOrNone(p.executionTimeout), PositiveOrNone(p.runTimeout), PositiveOrNone(p.taskTimeout);
    var key := RunKey(wk, db.nextUuid);
    CreateMeans(db.(nextUuid := db.nextUuid + 1), key, Client(p.requestId), p.workflowType, p.taskQueue, p.input, p.retryPolicy, e, r, t, None, now);
    var created := CreateRun(db.(nextUuid := db.nextUuid + 1), key, Client(p.requestId), p.workflowType, p.taskQueue, p.input, p.retryPolicy, e, r, t, None, now);
    CreatedSince(db, db.(nextUuid := db.nextUuid + 1), created, key, Client(p.requestId),
                 WorkflowExecutionStarted(p.workflowType, p.taskQueue, p.input, p.retryPolicy, None), e, r, t, now);
    CreateSpendsNothing(db.(nextUuid := db.nextUuid + 1), key, Client(p.requestId), p.workflowType, p.taskQueue, p.input, p.retryPolicy, e, r, t, None, now);
  }

  lemma CreatedSince(db: Db, mid: Db, db': Db, key: RunKey, requestId: RequestId, start: Attributes,
    e: Option<int>, r: Option<int>, t: Option<int>, now: int)
    requires start.WorkflowExecutionStarted? && mid == db.(nextUuid := mid.nextUuid) && RunCreated(mid, db', key, requestId, start, e, r, t, now)
    ensures RunCreated(db, db', key, requestId, start, e, r, t, now)
  {
    hide NewRow;
  }

  lemma CreateSpendsNothing(db: Db, key: RunKey, requestId: RequestId, workflowType: string, taskQueue: string, input: Payload,
    retryPolicy: Option<RetryPolicy>, executionTimeout: Option<int>, runTimeout: Option<int>,
    taskTimeout: Option<int>, continuedFrom: Option<Uuid>, now: int)
    ensures CreateRun(db, key, requestId, workflowType, taskQueue, input, retryPolicy, executionTimeout,
                      runTimeout, taskTimeout, continuedFrom, now).nextUuid == db.nextUuid
  {
  }
}
