/** The history store as the object it is: tables updated in place inside
    transactions that commit or roll back, each shown to do what the store's
    functions say. */
module StoreObject {
  import opened Events
  import opened Store
  import opened Backoff
  import opened CommandBatch

  const MAX_CONCURRENT_MODIFICATION_RETRIES: nat := 5

  /** The activity rows made by the enqueue loop, one per remembered event index. */
  function EnqueueAt(db: Db, key: RunKey, queue: string, cmds: seq<Command>, index: seq<nat>, expected: int, now: int): Db
    requires forall j :: 0 <= j < |index| ==> 1 <= index[j] <= |cmds| && cmds[index[j] - 1].ScheduleActivityTask?
  {
    if index == [] then db
    else
      var k := index[|index| - 1];
      EnqueueActivity(EnqueueAt(db, key, queue, cmds, index[..|index| - 1], expected, now), key, queue,
                      cmds[k - 1].activity, expected + k, now)
  }

  lemma {:induction false} EnqueueAtPrefix(db: Db, key: RunKey, queue: string, cmds: seq<Command>, longer: seq<Command>, index: seq<nat>, expected: int, now: int)
    requires cmds <= longer && forall j :: 0 <= j < |index| ==> 1 <= index[j] <= |cmds| && cmds[index[j] - 1].ScheduleActivityTask?
    ensures EnqueueAt(db, key, queue, cmds, index, expected, now) == EnqueueAt(db, key, queue, longer, index, expected, now)
  {
    if index != [] { EnqueueAtPrefix(db, key, queue, cmds, longer, index[..|index| - 1], expected, now); }
  }

  lemma {:induction false} EnqueueAtStep(db: Db, key: RunKey, queue: string, cmds: seq<Command>, index: seq<nat>, k: nat, expected: int, now: int)
    requires forall j :: 0 <= j < |index| ==> 1 <= index[j] <= |cmds| && cmds[index[j] - 1].ScheduleActivityTask?
    requires 1 <= k <= |cmds| && cmds[k - 1].ScheduleActivityTask?
    ensures EnqueueAt(db, key, queue, cmds, index + [k], expected, now) ==
      EnqueueActivity(EnqueueAt(db, key, queue, cmds, index, expected, now), key, queue, cmds[k - 1].activity, expected + k, now)
  {
    hide EnqueueActivity;
    assert (index + [k])[..|index|] == index;
  }

  /** Going through the indexes is going through the commands. */
  lemma {:induction false} EnqueueAtIsAll(db: Db, key: RunKey, queue: string, cmds: seq<Command>, expected: int, now: int)
    ensures EnqueueAt(db, key, queue, cmds, IndexesOf(cmds, IsActivity), expected, now) ==
      EnqueueActivities(db, key, queue, cmds, expected + 1, now)
  {
    hide EnqueueActivity, EnqueueAt;
    if cmds != [] {
      var n := |cmds| - 1;
      var pre := cmds[..n];
      var index := IndexesOf(pre, IsActivity);
      EnqueueAtIsAll(db, key, queue, pre, expected, now);
      EnqueueAtPrefix(db, key, queue, pre, cmds, index, expected, now);
      if IsActivity(cmds[n]) { EnqueueAtStep(db, key, queue, cmds, index, n + 1, expected, now); } else { assert IndexesOf(cmds, IsActivity) == index; }
    } else {
      NoneAt(db, key, queue, cmds, expected, now);
    }
  }

  lemma NoneAt(db: Db, key: RunKey, queue: string, cmds: seq<Command>, expected: int, now: int)
    ensures EnqueueAt(db, key, queue, cmds, [], expected, now) == db
    ensures InsertAt(db.timers, key, cmds, [], expected, now) == Some(db.timers)
  {
  }

  function InsertAt(timers: map<TimerKey, Timer>, key: RunKey, cmds: seq<Command>, index: seq<nat>, expected: int, now: int): Option<map<TimerKey, Timer>>
    requires forall j :: 0 <= j < |index| ==> 1 <= index[j] <= |cmds| && cmds[index[j] - 1].StartTimer?
  {
    if index == [] then Some(timers)
    else
      var k := index[|index| - 1];
      match InsertAt(timers, key, cmds, index[..|index| - 1], expected, now)
      case None => None
      case Some(ts) =>
        var tk := TimerKey(key, cmds[k - 1].timerId);
        if tk in ts then None else Some(ts[tk := Timer(now + cmds[k - 1].duration, expected + k)])
  }

  lemma {:induction false} InsertAtPrefix(timers: map<TimerKey, Timer>, key: RunKey, cmds: seq<Command>, longer: seq<Command>, index: seq<nat>, expected: int, now: int)
    requires cmds <= longer && forall j :: 0 <= j < |index| ==> 1 <= index[j] <= |cmds| && cmds[index[j] - 1].StartTimer?
    ensures InsertAt(timers, key, cmds, index, expected, now) == InsertAt(timers, key, longer, index, expected, now)
  {
    if index != [] { InsertAtPrefix(timers, key, cmds, longer, index[..|index| - 1], expected, now); }
  }

  lemma {:induction false} InsertAtStep(timers: map<TimerKey, Timer>, key: RunKey, cmds: seq<Command>, index: seq<nat>, k: nat, expected: int, now: int)
    requires forall j :: 0 <= j < |index| ==> 1 <= index[j] <= |cmds| && cmds[index[j] - 1].StartTimer?
    requires 1 <= k <= |cmds| && cmds[k - 1].StartTimer?
    ensures InsertAt(timers, key, cmds, index + [k], expected, now) ==
      match InsertAt(timers, key, cmds, index, expected, now)
      case None => None
      case Some(ts) =>
        var tk := TimerKey(key, cmds[k - 1].timerId);
        if tk in ts then None else Some(ts[tk := Timer(now + cmds[k - 1].duration, expected + k)])
  {
    assert (index + [k])[..|index|] == index;
  }

  lemma {:induction false} InsertAtIsAll(timers: map<TimerKey, Timer>, key: RunKey, cmds: seq<Command>, expected: int, now: int)
    ensures InsertAt(timers, key, cmds, IndexesOf(cmds, IsTimer), expected, now) == InsertTimers(timers, key, cmds, expected + 1, now)
  {
    hide InsertAt;
    if cmds != [] {
      var n := |cmds| - 1;
      var pre := cmds[..n];
      var index := IndexesOf(pre, IsTimer);
      InsertAtIsAll(timers, key, pre, expected, now);
      InsertAtPrefix(timers, key, pre, cmds, index, expected, now);
      if IsTimer(cmds[n]) { InsertAtStep(timers, key, cmds, index, n + 1, expected, now); } else { assert IndexesOf(cmds, IsTimer) == index; }
    } else {
      NoneAt(EmptyDb().(timers := timers), key, "", cmds, expected, now);
    }
  }

  lemma {:induction false} InsertAtStaysFailed(timers: map<TimerKey, Timer>, key: RunKey, cmds: seq<Command>, index: seq<nat>, n: nat, expected: int, now: int)
    requires n <= |index| && forall j :: 0 <= j < |index| ==> 1 <= index[j] <= |cmds| && cmds[index[j] - 1].StartTimer?
    requires InsertAt(timers, key, cmds, index[..n], expected, now).None?
    ensures InsertAt(timers, key, cmds, index, expected, now).None?
  {
    if n < |index| {
      assert index[..|index| - 1][..n] == index[..n];
      InsertAtStaysFailed(timers, key, cmds, index[..|index| - 1], n, expected, now);
    } else {
      assert index[..n] == index;
    }
  }

  lemma StampNext(first: int, attrs: seq<Attributes>, i: nat, now: int)
    requires i < |attrs|
    ensures Stamp(first, attrs[..i + 1], now) == Stamp(first, attrs[..i], now) + [HistoryEvent(first + i, now, attrs[i])]
  {
  }

  /** Firing these timers one after the other. */
  function FireAll(db: Db, order: seq<TimerKey>, now: int): Db
  {
    if order == [] then db
    else match FireTimer(FireAll(db, order[..|order| - 1], now), order[|order| - 1], now)
      case Commit(db', _) => db'
      case Rollback(_) => FireAll(db, order[..|order| - 1], now)
  }

  function Members(order: seq<TimerKey>): set<TimerKey>
  {
    set tk | tk in order
  }

  function DueTimers(timers: map<TimerKey, Timer>, now: int): set<TimerKey>
  {
    set tk | tk in timers && timers[tk].fireAt <= now
  }

  lemma FiredNone(db: Db, now: int)
    ensures FireAll(db, [], now) == db && Members([]) == {}
  {
  }

  lemma FiringTakes(db: Db, tk: TimerKey, now: int)
    requires tk in db.timers && db.timers[tk].fireAt <= now
    ensures FireTimer(db, tk, now).Commit? ==> FireTimer(db, tk, now).db.timers == db.timers - {tk}
    ensures FireTimer(db, tk, now).Rollback? ==> tk.run !in db.runs
  {
    hide Extended, StickyFields;
  }

  lemma FiredOne(db: Db, order: seq<TimerKey>, tk: TimerKey, now: int)
    ensures FireTimer(FireAll(db, order, now), tk, now).Commit? ==>
      FireAll(db, order + [tk], now) == FireTimer(FireAll(db, order, now), tk, now).db
    ensures Members(order + [tk]) == Members(order) + {tk}
  {
    assert (order + [tk])[..|order|] == order;
  }

  class HistoryStore {
    var runs: map<RunKey, Run>
    var currents: map<WorkflowKey, Current>
    var workflowTasks: map<nat, WorkflowTask>
    var activityTasks: map<nat, ActivityTask>
    var timers: map<TimerKey, Timer>
    var nextTaskId: nat
    var nextUuid: Uuid

    function Tables(): Db
      reads this
    {
      Db(runs, currents, workflowTasks, activityTasks, timers, nextTaskId, nextUuid)
    }

    constructor ()
      ensures Tables() == EmptyDb()
    {
      runs, currents, workflowTasks, activityTasks, timers, nextTaskId, nextUuid := map[], map[], map[], map[], map[], 0, 0;
    }

    /** What a method did, as the transaction function says: the result and the new
        tables, or the error and the tables as they were. */
    ghost predicate Did<T>(before: Db, tx: Tx<T>, err: Option<Error>)
      reads this
    {
      match tx
      case Commit(db, _) => err == None && Tables() == db
      case Rollback(e) => err == Some(e) && Tables() == before
    }

    /** ROLLBACK: the tables as they were when the transaction began. */
    method Restore(saved: Db)
      modifies this
      ensures Tables() == saved
    {
      runs, currents, workflowTasks, activityTasks := saved.runs, saved.currents, saved.workflowTasks, saved.activityTasks;
      timers, nextTaskId, nextUuid := saved.timers, saved.nextTaskId, saved.nextUuid;
    }

    /** Compare-and-set next_event_id, then insert the events one by one. */
    method AppendHistory(key: RunKey, expected: int, attrs: seq<Attributes>, now: int) returns (err: Option<Error>, ids: seq<int>)
      modifies this
      ensures Did(old(Tables()), Store.AppendHistory(old(Tables()), key, expected, attrs, now), err)
      ensures err == None && attrs != [] ==> ids == seq(|attrs|, i => expected + i)
    {
      if |attrs| == 0 { return None, []; }
      if key !in runs || runs[key].nextEventId != expected { return Some(ConcurrentModification), []; }
      var run := runs[key].(nextEventId := expected + |attrs|);
      runs := runs[key := run];
      err, ids := None, [];
      assert run.history + Stamp(expected, attrs[..0], now) == run.history;
      for i := 0 to |attrs|
        invariant key in runs && runs[key] == run.(history := run.history + Stamp(expected, attrs[..i], now))
        invariant Tables() == old(Tables()).(runs := old(runs)[key := runs[key]])
        invariant ids == seq(i, j => expected + j)
      {
        StampNext(expected, attrs, i, now);
        runs := runs[key := runs[key].(history := runs[key].history + [HistoryEvent(expected + i, now, attrs[i])])];
        ids := ids + [expected + i];
      }
      assert attrs[..|attrs|] == attrs;
    }

    method EnqueueWorkflowTask(key: RunKey, taskQueue: string, scheduledEventId: int, now: int, worker: Option<string>, deadline: Option<int>)
      modifies this
      ensures Tables() == Store.EnqueueWorkflowTask(old(Tables()), key, taskQueue, scheduledEventId, now, worker, deadline)
    {
      workflowTasks := workflowTasks[nextTaskId :=
        WorkflowTask(key, taskQueue, scheduledEventId, now, worker, deadline, false, None, None)];
      nextTaskId := nextTaskId + 1;
    }

    /** The tail that activity completions, firings, signals and cancel requests
        share: record the cause and a scheduled task, and enqueue the task under the
        id the append assigned. */
    method Wake(key: RunKey, cause: Attributes, now: int) returns (err: Option<Error>)
      modifies this
      ensures old(Tables()).runs == old(runs)
      ensures if key in old(runs) then err == None && Tables() == Store.Wake(old(Tables()), key, cause, now)
              else err == Some(NotFound) && Tables() == old(Tables())
    {
      if key !in runs { return Some(NotFound); }
      var run := runs[key];
      var ids;
      err, ids := AppendHistory(key, run.nextEventId, [cause, WorkflowTaskScheduled(run.taskQueue)], now);
      var (worker, deadline) := StickyFields(run, now);
      EnqueueWorkflowTask(key, run.taskQueue, ids[1], now, worker, deadline);
    }

    /** The activity half of an accepted response. */
    method EnqueueActivities(key: RunKey, queue: string, cmds: seq<Command>, index: seq<nat>, expected: int, ids: seq<int>, now: int)
      requires index == IndexesOf(cmds, IsActivity) && ids == seq(|cmds| + 1, i => expected + i)
      modifies this
      ensures Tables() == Store.EnqueueActivities(old(Tables()), key, queue, cmds, expected + 1, now)
    {
      hide EnqueueAt, IndexesOf, ActivityRow;
      NoneAt(Tables(), key, queue, cmds, expected, now);
      assert index[..0] == [];
      for j := 0 to |index|
        invariant Tables() == EnqueueAt(old(Tables()), key, queue, cmds, index[..j], expected, now)
      {
        assert index[..j + 1] == index[..j] + [index[j]];
        EnqueueAtStep(old(Tables()), key, queue, cmds, index[..j], index[j], expected, now);
        var row := ActivityRow(key, queue, cmds[index[j] - 1].activity, ids[index[j]], now);
        activityTasks := activityTasks[nextTaskId := row];
        nextTaskId := nextTaskId + 1;
      }
      assert index[..|index|] == index;
      EnqueueAtIsAll(old(Tables()), key, queue, cmds, expected, now);
    }

    /** The timer half; a pending timer of the same id is a key violation. */
    method InsertTimers(key: RunKey, cmds: seq<Command>, index: seq<nat>, expected: int, ids: seq<int>, now: int) returns (ok: bool)
      requires index == IndexesOf(cmds, IsTimer) && ids == seq(|cmds| + 1, i => expected + i)
      modifies this
      ensures match Store.InsertTimers(old(timers), key, cmds, expected + 1, now)
        case Some(ts) => ok && Tables() == old(Tables()).(timers := ts)
        case None => !ok
    {
      hide InsertAt, IndexesOf, Store.InsertTimers;
      InsertAtIsAll(timers, key, cmds, expected, now);
      NoneAt(Tables(), key, "", cmds, expected, now);
      assert index[..0] == [];
      for j := 0 to |index|
        invariant InsertAt(old(timers), key, cmds, index[..j], expected, now) == Some(timers)
        invariant Tables() == old(Tables()).(timers := timers)
      {
        assert index[..j + 1] == index[..j] + [index[j]];
        InsertAtStep(old(timers), key, cmds, index[..j], index[j], expected, now);
        var c := cmds[index[j] - 1];
        var tk := TimerKey(key, c.timerId);
        if tk in timers {
          InsertAtStaysFailed(old(timers), key, cmds, index, j + 1, expected, now);
          return false;
        }
        timers := timers[tk := Timer(now + c.duration, ids[index[j]])];
      }
      assert index[..|index|] == index;
      return true;
    }

    /** Append the response's events, then make its rows from the assigned ids. */
    method RecordResponse(key: RunKey, cmds: seq<Command>, batch: Batch, newRunId: Uuid, now: int) returns (ok: bool)
      requires key in runs && Unsupported !in cmds
      requires batch.events == [WorkflowTaskCompleted] + EventsOf(cmds, runs[key], newRunId)
      requires batch.activityIndex == IndexesOf(cmds, IsActivity) && batch.timerIndex == IndexesOf(cmds, IsTimer)
      modifies this
      ensures match RecordCommands(old(Tables()), key, cmds, newRunId, now)
        case Some(db) => ok && Tables() == db
        case None => !ok
    {
      hide Store.EnqueueActivities, Store.InsertTimers, EventsOf, IndexesOf, Extended;
      var run := runs[key];
      var err, ids := AppendHistory(key, run.nextEventId, batch.events, now);
      EnqueueActivities(key, run.taskQueue, cmds, batch.activityIndex, run.nextEventId, ids, now);
      ok := InsertTimers(key, cmds, batch.timerIndex, run.nextEventId, ids, now);
    }

    /** The body of CompleteWorkflowTask's transaction: it may have changed anything
        by the time it finds an error. */
    method CompleteInTx(token: TaskToken, cmds: seq<Command>, sticky: Option<Sticky>, now: int) returns (err: Option<Error>)
      modifies this
      ensures match Store.CompleteWorkflowTask(old(Tables()), token, cmds, sticky, now)
        case Commit(db, _) => err == None && Tables() == db
        case Rollback(e) => err == Some(e)
    {
      hide RecordCommands, EventsOf, IndexesOf, CloseWith, TerminalOf, Rejection;
      if !HoldsWorkflowTask(Tables(), token) { return Some(LeaseExpired); }
      workflowTasks := workflowTasks - {token.taskId};
      if token.key !in runs { return Some(NotFound); }
      var run, newRunId := runs[token.key], nextUuid;
      var batch;
      err, batch := CheckCommands(cmds, run, newRunId);
      if err.Some? { return; }
      var recorded := RecordResponse(token.key, cmds, batch, newRunId, now);
      if !recorded { return Some(DuplicateTimer); }
      Close(token.key, run, batch.closing, newRunId, sticky, now);
    }

    /** The run is closed and perhaps replaced, or its stickiness is written. */
    method Close(key: RunKey, run: Run, closing: Option<Command>, newRunId: Uuid, sticky: Option<Sticky>, now: int)
      requires closing.Some? ==> Terminal(closing.value)
      modifies this
      ensures Tables() == match closing
        case Some(c) => CloseWith(old(Tables()), key, run, c, newRunId, now)
        case None => RegisterSticky(old(Tables()), key, sticky, now)
    {
      match closing {
        case Some(c) =>
          if key in runs { runs := runs[key := runs[key].(status := StatusOf(c), closeTime := Some(now))]; }
          if c.ContinueAsNewWorkflowExecution? {
            nextUuid := newRunId + 2;
            ContinueAsNew(key, run, newRunId, newRunId + 1, c.continuation, now);
          }
        case None =>
          var worker: Option<string>, expires: Option<int> := None, None;
          if sticky.Some? && sticky.value.worker != "" {
            worker, expires := Some(sticky.value.worker), Some(now + sticky.value.scheduleToStart);
          }
          if key in runs { runs := runs[key := runs[key].(stickyWorker := worker, stickyExpires := expires)]; }
      }
    }

    /** continueWorkflowAsNew. */
    method ContinueAsNew(key: RunKey, run: Run, newRunId: Uuid, requestId: Uuid, k: Continuation, now: int)
      modifies this
      ensures Tables() == ContinueRun(old(Tables()), key, run, newRunId, requestId, k, now)
    {
      CreateRun(RunKey(key.workflow, newRunId), Synthetic(requestId),
                StringOrFallback(k.workflowType, run.workflowType), StringOrFallback(k.taskQueue, run.taskQueue),
                k.input, k.retryPolicy, run.executionTimeout,
                DurationOrFallback(k.runTimeout, run.runTimeout), DurationOrFallback(k.taskTimeout, run.taskTimeout),
                Some(key.runId), now);
    }

    /** Point current_executions at a new run, insert its row, append its first two
        events and enqueue its first task. */
    method CreateRun(key: RunKey, requestId: RequestId, workflowType: string, taskQueue: string, input: Payload,
      retryPolicy: Option<RetryPolicy>, executionTimeout: Option<int>, runTimeout: Option<int>, taskTimeout: Option<int>,
      continuedFrom: Option<Uuid>, now: int)
      modifies this
      ensures Tables() == Store.CreateRun(old(Tables()), key, requestId, workflowType, taskQueue, input, retryPolicy,
                                          executionTimeout, runTimeout, taskTimeout, continuedFrom, now)
    {
      currents := currents[key.workflow := Current(key.runId, requestId)];
      var run := Run(workflowType, taskQueue, RUNNING, 1, executionTimeout, runTimeout, taskTimeout, None, None, now, None, []);
      runs := runs[key := run];
      var started := [WorkflowExecutionStarted(workflowType, taskQueue, input, retryPolicy, continuedFrom), WorkflowTaskScheduled(taskQueue)];
      var err, ids := AppendHistory(key, 1, started, now);
      EnqueueWorkflowTask(key, taskQueue, ids[1], now, None, None);
    }

    /** RespondWorkflowTaskCompleted: all of it or nothing. */
    method CompleteWorkflowTask(token: TaskToken, cmds: seq<Command>, sticky: Option<Sticky>, now: int) returns (err: Option<Error>)
      modifies this
      ensures Did(old(Tables()), Store.CompleteWorkflowTask(old(Tables()), token, cmds, sticky, now), err)
    {
      hide Store.CompleteWorkflowTask;
      var saved := Tables();
      err := CompleteInTx(token, cmds, sticky, now);
      if err.Some? { Restore(saved); }
    }

    /** StartWorkflowExecution. */
    method StartWorkflow(wk: WorkflowKey, p: StartParams, now: int) returns (err: Option<Error>, runId: Uuid)
      modifies this
      ensures Did(old(Tables()), Store.StartWorkflow(old(Tables()), wk, p, now), err)
      ensures err == None ==> runId == Store.StartWorkflow(old(Tables()), wk, p, now).value
    {
      runId := nextUuid;
      if wk in currents {
        var existing := currents[wk];
        if existing.requestId == Client(p.requestId) { return None, existing.runId; }
        if RunKey(wk, existing.runId) !in runs { return Some(NotFound), runId; }
        if runs[RunKey(wk, existing.runId)].status == RUNNING { return Some(AlreadyRunning), runId; }
      }
      err := None;
      nextUuid := nextUuid + 1;
      CreateRun(RunKey(wk, runId), Client(p.requestId), p.workflowType, p.taskQueue, p.input, p.retryPolicy,
                PositiveOrNone(p.executionTimeout), PositiveOrNone(p.runTimeout), PositiveOrNone(p.taskTimeout), None, now);
    }

    /** DispatchWorkflowTask for the row its poll picked: the lease is committed before
        the start is recorded, so a failure in between leaves the row leased. */
    method DispatchWorkflowTask(taskId: nat, ns: int, taskQueue: string, worker: string, now: int)
      returns (err: Option<Error>, token: TaskToken, history: seq<HistoryEvent>)
      modifies this
      ensures match DequeueWorkflowTask(old(Tables()), taskId, ns, taskQueue, worker, now)
        case Rollback(e) => err == Some(e) && Tables() == old(Tables())
        case Commit(leased, t) =>
          && token == t && Did(leased, RecordWorkflowTaskStarted(leased, t.key, now), err)
          && (err == None ==> t.key in runs && history == Fetch(runs[t.key].history))
    {
      hide Extended, WorkflowTaskVisible;
      history, token := [], TaskToken(RunKey(WorkflowKey(ns, ""), 0), taskId, 0);
      if taskId !in workflowTasks || !WorkflowTaskVisible(workflowTasks[taskId], ns, taskQueue, worker, now) {
        return Some(NoTaskAvailable), token, history;
      }
      var t := workflowTasks[taskId];
      token := TaskToken(t.key, taskId, nextUuid);
      workflowTasks := workflowTasks[taskId :=
        t.(started := true, lease := Some(nextUuid), leaseExpiry := Some(now + WORKFLOW_TASK_LEASE))];
      nextUuid := nextUuid + 1;
      if t.key !in runs { return Some(NotFound), token, history; }
      var ids;
      err, ids := AppendHistory(t.key, runs[t.key].nextEventId, [WorkflowTaskStarted], now);
      history := if |runs[t.key].history| <= MAX_HISTORY_FETCH then runs[t.key].history else runs[t.key].history[..MAX_HISTORY_FETCH];
    }

    /** DispatchActivityTask, in the same two parts. */
    method DispatchActivityTask(taskId: nat, ns: int, taskQueue: string, now: int) returns (err: Option<Error>, token: TaskToken)
      modifies this
      ensures match DequeueActivityTask(old(Tables()), taskId, ns, taskQueue, now)
        case Rollback(e) => err == Some(e) && Tables() == old(Tables())
        case Commit(leased, (t, row)) =>
          token == t && Did(leased, RecordActivityTaskStarted(leased, t.key, row.activityId, row.attempt, now), err)
    {
      hide Extended, ActivityTaskVisible;
      token := TaskToken(RunKey(WorkflowKey(ns, ""), 0), taskId, 0);
      if taskId !in activityTasks || !ActivityTaskVisible(activityTasks[taskId], ns, taskQueue, now) {
        return Some(NoTaskAvailable), token;
      }
      var t := activityTasks[taskId];
      token := TaskToken(t.key, taskId, nextUuid);
      activityTasks := activityTasks[taskId := t.(started := true, lease := Some(nextUuid), leaseExpiry := Some(now + t.startToClose))];
      nextUuid := nextUuid + 1;
      if t.key !in runs { return Some(NotFound), token; }
      var ids;
      err, ids := AppendHistory(t.key, runs[t.key].nextEventId, [ActivityTaskStarted(t.activityId, t.attempt)], now);
    }

    /** FailWorkflowTask without interruption: no transaction holds its statements
        together, so a missing run leaves the row deleted. */
    method FailWorkflowTask(token: TaskToken, now: int) returns (err: Option<Error>)
      modifies this
      ensures match DeleteWorkflowTask(old(Tables()), token)
        case Rollback(e) => err == Some(e) && Tables() == old(Tables())
        case Commit(taken, _) =>
          if token.key !in old(runs) then err == Some(NotFound) && Tables() == taken
          else
            var run := old(runs)[token.key];
            && err == None
            && Tables() == Store.EnqueueWorkflowTask(SetSticky(taken, token.key, None, None), token.key, run.taskQueue,
                                                     run.nextEventId - 1, now, None, None)
    {
      if !HoldsWorkflowTask(Tables(), token) { return Some(LeaseExpired); }
      workflowTasks := workflowTasks - {token.taskId};
      if token.key !in runs { return Some(NotFound); }
      var run := runs[token.key];
      runs := runs[token.key := run.(stickyWorker := None, stickyExpires := None)];
      EnqueueWorkflowTask(token.key, run.taskQueue, run.nextEventId - 1, now, None, None);
      err := None;
    }

    /** TerminateWorkflowExecution: nothing asks whether the run is still open. */
    method Terminate(wk: WorkflowKey, runId: Option<Uuid>, reason: string, now: int) returns (err: Option<Error>)
      modifies this
      ensures Did(old(Tables()), Store.Terminate(old(Tables()), wk, runId, reason, now), err)
    {
      var key;
      match runId {
        case Some(id) => key := RunKey(wk, id);
        case None =>
          if wk !in currents { return Some(NotFound); }
          key := RunKey(wk, currents[wk].runId);
      }
      if key !in runs { return Some(NotFound); }
      var ids;
      err, ids := AppendHistory(key, runs[key].nextEventId, [WorkflowExecutionTerminated(reason)], now);
      runs := runs[key := runs[key].(status := TERMINATED, closeTime := Some(now))];
    }

    method CompleteActivityTask(token: TaskToken, result: Payload, now: int) returns (err: Option<Error>)
      modifies this
      ensures Did(old(Tables()), Store.CompleteActivityTask(old(Tables()), token, result, now), err)
    {
      hide Store.Wake;
      if !HoldsActivityTask(Tables(), token) { return Some(LeaseExpired); }
      var saved, row := Tables(), activityTasks[token.taskId];
      activityTasks := activityTasks - {token.taskId};
      err := Wake(token.key, ActivityTaskCompleted(row.activityId, result), now);
      if err.Some? { Restore(saved); }
    }

    /** FailActivityTask once it has read the row: retry with backoff, or record the
        failure for good. */
    method FailActivityTask(token: TaskToken, row: ActivityTask, failure: Failure, platform: int, now: int) returns (err: Option<Error>)
      modifies this
      ensures Did(old(Tables()),
                  if Retryable(row, failure) then RetryActivityTask(old(Tables()), token, Delay(row, platform), now)
                  else FailActivityTerminally(old(Tables()), token, row, failure, now), err)
    {
      hide Store.Wake, Delay;
      var retryable := IsRetryable(row, failure);
      if !HoldsActivityTask(Tables(), token) { return Some(LeaseExpired); }
      if retryable {
        var t := activityTasks[token.taskId];
        activityTasks := activityTasks[token.taskId :=
          t.(started := false, attempt := t.attempt + 1, visibleAt := now + Delay(row, platform), lease := None, leaseExpiry := None)];
        return None;
      }
      var saved := Tables();
      activityTasks := activityTasks - {token.taskId};
      err := Wake(token.key, ActivityTaskFailed(row.activityId, failure, row.attempt), now);
      if err.Some? { Restore(saved); }
    }

    /** fireDueTimer, for the timer that DequeueDueTimer picked. */
    method FireTimer(tk: TimerKey, now: int) returns (err: Option<Error>)
      modifies this
      ensures Did(old(Tables()), Store.FireTimer(old(Tables()), tk, now), err)
    {
      hide Store.Wake;
      if tk !in timers || timers[tk].fireAt > now { return Some(NoTaskAvailable); }
      var saved := Tables();
      timers := timers - {tk};
      err := Wake(tk.run, TimerFired(tk.timerId), now);
      if err.Some? { Restore(saved); }
    }

    /** The timer firer's inner loop: fire due timers, any order, until none is left
        or one fails. */
    method DrainDueTimers(now: int) returns (err: Option<Error>, ghost fired: seq<TimerKey>)
      modifies this
      ensures Tables() == FireAll(old(Tables()), fired, now)
      ensures timers == old(timers) - Members(fired) && Members(fired) <= DueTimers(old(timers), now)
      ensures if err == None then DueTimers(timers, now) == {} else exists tk :: tk in timers && tk.run !in runs
    {
      hide Store.FireTimer, FireAll, Members;
      err, fired := None, [];
      FiredNone(Tables(), now);
      while DueTimers(timers, now) != {}
        invariant err == None && Tables() == FireAll(old(Tables()), fired, now)
        invariant timers == old(timers) - Members(fired) && Members(fired) <= DueTimers(old(timers), now)
        decreases |timers.Keys|
      {
        var tk :| tk in DueTimers(timers, now);
        assert tk in timers.Keys;
        FiringTakes(Tables(), tk, now);
        FiredOne(old(Tables()), fired, tk, now);
        ghost var before := timers;
        err := FireTimer(tk, now);
        if err.Some? { return; }
        fired := fired + [tk];
        assert timers.Keys == before.Keys - {tk};
      }
    }

    /** withTxRetryOnConflict: `body(i)` is what the transaction does on attempt i,
        given the tables it sees; attempts differ by what others commit in between. */
    method WithTxRetryOnConflict(body: (nat, Db) -> Tx<()>) returns (err: Option<Error>, attempts: nat)
      modifies this
      ensures 1 <= attempts <= MAX_CONCURRENT_MODIFICATION_RETRIES
      ensures forall i: nat :: i < attempts - 1 ==> body(i, old(Tables())) == Rollback(ConcurrentModification)
      ensures Did(old(Tables()), body(attempts - 1, old(Tables())), err)
      ensures err == Some(ConcurrentModification) ==> attempts == MAX_CONCURRENT_MODIFICATION_RETRIES
    {
      err, attempts := None, 0;
      while attempts < MAX_CONCURRENT_MODIFICATION_RETRIES
        invariant attempts <= MAX_CONCURRENT_MODIFICATION_RETRIES && Tables() == old(Tables())
        invariant forall i: nat :: i < attempts ==> body(i, old(Tables())) == Rollback(ConcurrentModification)
        invariant attempts > 0 ==> err == Some(ConcurrentModification)
      {
        attempts := attempts + 1;
        match body(attempts - 1, Tables()) {
          case Commit(db, _) =>
            Restore(db);
            return None, attempts;
          case Rollback(e) =>
            err := Some(e);
            if e != ConcurrentModification { return; }
        }
      }
    }

    /** SignalWorkflowExecution, one attempt that meets no conflict. */
    method SignalWorkflow(wk: WorkflowKey, runId: Option<Uuid>, name: string, input: Payload, now: int) returns (err: Option<Error>)
      modifies this
      ensures Did(old(Tables()), Store.SignalWorkflow(old(Tables()), wk, runId, name, input, now), err)
    {
      hide Store.Wake;
      var key;
      match runId {
        case Some(id) => key := RunKey(wk, id);
        case None =>
          if wk !in currents { return Some(NotFound); }
          key := RunKey(wk, currents[wk].runId);
      }
      err := Wake(key, WorkflowExecutionSignaled(name, input), now);
    }
  }
}
