/** The history store: the tables flowd keeps in Postgres and what each of its
    transactions does to them.  Times are nanoseconds. */
module Store {
  import opened Events

  datatype WorkflowKey = WorkflowKey(ns: int, workflowId: string)
  datatype RunKey = RunKey(workflow: WorkflowKey, runId: Uuid)
  datatype TimerKey = TimerKey(run: RunKey, timerId: int)
  datatype Status = RUNNING | COMPLETED | FAILED | TERMINATED | CONTINUED_AS_NEW

  /** A workflow_executions row together with the history_events rows of its run. */
  datatype Run = Run(
    workflowType: string,
    taskQueue: string,
    status: Status,
    nextEventId: int,
    executionTimeout: Option<int>,
    runTimeout: Option<int>,
    taskTimeout: Option<int>,
    stickyWorker: Option<string>,
    stickyExpires: Option<int>,
    startTime: int,
    closeTime: Option<int>,
    history: seq<HistoryEvent>)

  datatype RequestId = Client(id: string) | Synthetic(uuid: Uuid)
  datatype Current = Current(runId: Uuid, requestId: RequestId)

  datatype WorkflowTask = WorkflowTask(
    key: RunKey,
    taskQueue: string,
    scheduledEventId: int,
    visibleAt: int,
    preferredWorker: Option<string>,
    stickyDeadline: Option<int>,
    started: bool,
    lease: Option<Uuid>,
    leaseExpiry: Option<int>)

  datatype ActivityTask = ActivityTask(
    key: RunKey,
    taskQueue: string,
    activityId: int,
    activityType: string,
    input: Payload,
    scheduledEventId: int,
    started: bool,
    attempt: int,
    visibleAt: int,
    lease: Option<Uuid>,
    leaseExpiry: Option<int>,
    scheduleToStart: int,
    startToClose: int,
    initialInterval: int,
    coefficient: real,
    maxInterval: int,
    maxAttempts: int,
    nonRetryable: seq<string>)

  datatype Timer = Timer(fireAt: int, scheduledEventId: int)

  datatype Db = Db(
    runs: map<RunKey, Run>,
    currents: map<WorkflowKey, Current>,
    workflowTasks: map<nat, WorkflowTask>,
    activityTasks: map<nat, ActivityTask>,
    timers: map<TimerKey, Timer>,
    nextTaskId: nat,
    nextUuid: Uuid)

  function EmptyDb(): Db
  {
    Db(map[], map[], map[], map[], map[], 0, 0)
  }

  datatype Error =
    | ConcurrentModification | LeaseExpired | NoTaskAvailable | AlreadyRunning | NotFound
    | ManyTerminals | MixedContinuation | UnsupportedCommand | DuplicateTimer

  /** A transaction either commits a new database with a result, or rolls back. */
  datatype Tx<+T> = Commit(db: Db, value: T) | Rollback(error: Error)

  /** A signed task token: only dispatch makes one, from the row it leased. */
  datatype TaskToken = TaskToken(key: RunKey, taskId: nat, lease: Uuid)

  const SECOND: int := 1_000_000_000
  const WORKFLOW_TASK_LEASE: int := 10 * SECOND
  const DEFAULT_START_TO_CLOSE: int := 30 * SECOND
  const MAX_HISTORY_FETCH: nat := 100_000

  // ------------------------------------------------------------ history append

  /** Event rows with consecutive ids from `first`. */
  function Stamp(first: int, attrs: seq<Attributes>, now: int): (r: seq<HistoryEvent>)
    ensures |r| == |attrs|
  {
    seq(|attrs|, i requires 0 <= i < |attrs| => HistoryEvent(first + i, now, attrs[i]))
  }

  /** A run with its counter advanced and the new events stored. */
  function Extended(run: Run, attrs: seq<Attributes>, now: int): Run
  {
    run.(nextEventId := run.nextEventId + |attrs|,
         history := run.history + Stamp(run.nextEventId, attrs, now))
  }

  function Append(db: Db, key: RunKey, attrs: seq<Attributes>, now: int): Db
    requires key in db.runs
  {
    db.(runs := db.runs[key := Extended(db.runs[key], attrs, now)])
  }

  /** The append chokepoint with its compare-and-set on next_event_id. */
  function AppendHistory(db: Db, key: RunKey, expected: int, attrs: seq<Attributes>, now: int): Tx<seq<int>>
  {
    if attrs == [] then Commit(db, [])
    else if key !in db.runs || db.runs[key].nextEventId != expected then Rollback(ConcurrentModification)
    else Commit(Append(db, key, attrs, now), seq(|attrs|, i => expected + i))
  }

  // ------------------------------------------------------------- queue plumbing

  function EnqueueWorkflowTask(
    db: Db, key: RunKey, taskQueue: string, scheduledEventId: int, now: int,
    preferredWorker: Option<string>, stickyDeadline: Option<int>): Db
  {
    db.(workflowTasks := db.workflowTasks[db.nextTaskId :=
          WorkflowTask(key, taskQueue, scheduledEventId, now, preferredWorker, stickyDeadline, false, None, None)],
        nextTaskId := db.nextTaskId + 1)
  }

  /** The run's sticky registration, if it is complete and has not expired. */
  function StickyFields(run: Run, now: int): (Option<string>, Option<int>)
  {
    if run.stickyWorker.None? || run.stickyExpires.None? || run.stickyExpires.value < now then (None, None)
    else (run.stickyWorker, run.stickyExpires)
  }

  /** Record `cause`, then WorkflowTaskScheduled, and enqueue a task for the run. */
  function Wake(db: Db, key: RunKey, cause: Attributes, now: int): Db
    requires key in db.runs
  {
    var run := db.runs[key];
    var (worker, deadline) := StickyFields(run, now);
    EnqueueWorkflowTask(Append(db, key, [cause, WorkflowTaskScheduled(run.taskQueue)], now),
                        key, run.taskQueue, run.nextEventId + 1, now, worker, deadline)
  }

  // --------------------------------------------------------------------- start

  datatype StartParams = StartParams(
    workflowType: string, taskQueue: string, input: Payload, retryPolicy: Option<RetryPolicy>,
    executionTimeout: int, runTimeout: int, taskTimeout: int, requestId: string)

  function PositiveOrNone(d: int): Option<int>
  {
    if d <= 0 then None else Some(d)
  }

  function StringOrFallback(v: string, fallback: string): string
  {
    if v != "" then v else fallback
  }

  function DurationOrFallback(v: Option<int>, fallback: Option<int>): Option<int>
  {
    if v.None? then fallback else PositiveOrNone(v.value)
  }

  /** A new run with its two start events and its first workflow task, named as
      the workflow's current run. */
  function CreateRun(
    db: Db, key: RunKey, requestId: RequestId, workflowType: string, taskQueue: string, input: Payload,
    retryPolicy: Option<RetryPolicy>, executionTimeout: Option<int>, runTimeout: Option<int>,
    taskTimeout: Option<int>, continuedFrom: Option<Uuid>, now: int): Db
  {
    var run := Run(workflowType, taskQueue, RUNNING, 1, executionTimeout, runTimeout, taskTimeout, None, None, now, None, []);
    var started := [WorkflowExecutionStarted(workflowType, taskQueue, input, retryPolicy, continuedFrom),
                    WorkflowTaskScheduled(taskQueue)];
    EnqueueWorkflowTask(
      db.(currents := db.currents[key.workflow := Current(key.runId, requestId)],
          runs := db.runs[key := Extended(run, started, now)]),
      key, taskQueue, 2, now, None, None)
  }

  function StartWorkflow(db: Db, wk: WorkflowKey, p: StartParams, now: int): Tx<Uuid>
  {
    var runId := db.nextUuid;
    var created := CreateRun(
      db.(nextUuid := runId + 1), RunKey(wk, runId), Client(p.requestId), p.workflowType, p.taskQueue, p.input,
      p.retryPolicy, PositiveOrNone(p.executionTimeout), PositiveOrNone(p.runTimeout), PositiveOrNone(p.taskTimeout),
      None, now);
    if wk !in db.currents then Commit(created, runId)
    else
      var existing := db.currents[wk];
      if existing.requestId == Client(p.requestId) then Commit(db, existing.runId)
      else if RunKey(wk, existing.runId) !in db.runs then Rollback(NotFound)
      else if db.runs[RunKey(wk, existing.runId)].status == RUNNING then Rollback(AlreadyRunning)
      else Commit(created, runId)
  }

  // ------------------------------------------------------- workflow task dispatch

  predicate WorkflowTaskVisible(t: WorkflowTask, ns: int, taskQueue: string, worker: string, now: int)
  {
    && t.taskQueue == taskQueue && t.key.workflow.ns == ns && !t.started && t.visibleAt <= now
    && (t.preferredWorker.None?
        || (worker != "" && t.preferredWorker == Some(worker))
        || (t.stickyDeadline.Some? && t.stickyDeadline.value < now))
  }

  /** Lease one visible row; SKIP LOCKED lets it be any of them. */
  function DequeueWorkflowTask(db: Db, taskId: nat, ns: int, taskQueue: string, worker: string, now: int): Tx<TaskToken>
  {
    if taskId !in db.workflowTasks || !WorkflowTaskVisible(db.workflowTasks[taskId], ns, taskQueue, worker, now)
    then Rollback(NoTaskAvailable)
    else
      var t := db.workflowTasks[taskId];
      Commit(db.(workflowTasks := db.workflowTasks[taskId :=
                   t.(started := true, lease := Some(db.nextUuid), leaseExpiry := Some(now + WORKFLOW_TASK_LEASE))],
                 nextUuid := db.nextUuid + 1),
             TaskToken(t.key, taskId, db.nextUuid))
  }

  function RecordWorkflowTaskStarted(db: Db, key: RunKey, now: int): Tx<()>
  {
    if key !in db.runs then Rollback(NotFound)
    else Commit(Append(db, key, [WorkflowTaskStarted], now), ())
  }

  /** What dispatch sends a worker: the first MAX_HISTORY_FETCH events. */
  function Fetch(history: seq<HistoryEvent>): seq<HistoryEvent>
  {
    if |history| <= MAX_HISTORY_FETCH then history else history[..MAX_HISTORY_FETCH]
  }

  predicate HoldsWorkflowTask(db: Db, token: TaskToken)
  {
    token.taskId in db.workflowTasks && db.workflowTasks[token.taskId].lease == Some(token.lease)
  }

  /** DELETE ... WHERE task_id and lease_token match. */
  function DeleteWorkflowTask(db: Db, token: TaskToken): Tx<()>
  {
    if HoldsWorkflowTask(db, token)
    then Commit(db.(workflowTasks := db.workflowTasks - {token.taskId}), ())
    else Rollback(LeaseExpired)
  }

  function SetSticky(db: Db, key: RunKey, worker: Option<string>, expires: Option<int>): Db
  {
    if key !in db.runs then db
    else db.(runs := db.runs[key := db.runs[key].(stickyWorker := worker, stickyExpires := expires)])
  }

  // ----------------------------------------------------- workflow task completion

  datatype Sticky = Sticky(worker: string, scheduleToStart: int)

  predicate Terminal(c: Command)
  {
    c.CompleteWorkflowExecution? || c.FailWorkflowExecution? || c.ContinueAsNewWorkflowExecution?
  }

  predicate Scheduling(c: Command)
  {
    c.ScheduleActivityTask? || c.StartTimer?
  }

  function Count(cmds: seq<Command>, f: Command -> bool): nat
  {
    if cmds == [] then 0 else Count(cmds[..|cmds| - 1], f) + if f(cmds[|cmds| - 1]) then 1 else 0
  }

  /** The one event a command is recorded as. */
  function EventOf(c: Command, run: Run, newRunId: Uuid): Attributes
    requires c != Unsupported
  {
    match c
    case ScheduleActivityTask(a) => ActivityTaskScheduled(a)
    case StartTimer(id, d) => TimerStarted(id, d)
    case CompleteWorkflowExecution(r) => WorkflowExecutionCompleted(r)
    case FailWorkflowExecution(f) => WorkflowExecutionFailed(f)
    case ContinueAsNewWorkflowExecution(k) =>
      WorkflowExecutionContinuedAsNew(newRunId, StringOrFallback(k.workflowType, run.workflowType),
                                      StringOrFallback(k.taskQueue, run.taskQueue), k.input)
  }

  function EventsOf(cmds: seq<Command>, run: Run, newRunId: Uuid): (r: seq<Attributes>)
    requires Unsupported !in cmds
    ensures |r| == |cmds|
    ensures forall i :: 0 <= i < |cmds| ==> r[i] == EventOf(cmds[i], run, newRunId)
  {
    seq(|cmds|, i requires 0 <= i < |cmds| => EventOf(cmds[i], run, newRunId))
  }

  function StatusOf(c: Command): Status
    requires Terminal(c)
  {
    match c
    case CompleteWorkflowExecution(_) => COMPLETED
    case FailWorkflowExecution(_) => FAILED
    case ContinueAsNewWorkflowExecution(_) => CONTINUED_AS_NEW
  }

  /** The last terminal command, if there is one. */
  function TerminalOf(cmds: seq<Command>): (r: Option<Command>)
    ensures r.Some? ==> Terminal(r.value) && r.value in cmds
    ensures r.None? ==> forall c :: c in cmds ==> !Terminal(c)
  {
    if cmds == [] then None
    else if Terminal(cmds[|cmds| - 1]) then Some(cmds[|cmds| - 1])
    else TerminalOf(cmds[..|cmds| - 1])
  }

  /** activityEnqueueParams: the row a schedule command becomes. */
  function ActivityRow(key: RunKey, taskQueue: string, a: ActivityCommand, scheduledEventId: int, now: int): ActivityTask
  {
    var (initial, maxInterval, coefficient, maxAttempts, nonRetryable) :=
      match a.retryPolicy
      case None => (0, 0, 2.0, 0, [])
      case Some(p) => (
        if p.initialInterval.Some? then p.initialInterval.value else 0,
        if p.maxInterval.Some? then p.maxInterval.value else 0,
        if p.coefficient > 0.0 then p.coefficient else 2.0,
        p.maxAttempts,
        p.nonRetryable);
    var scheduleToStart := if a.scheduleToStart.Some? then a.scheduleToStart.value else 0;
    var startToClose := if a.startToClose.Some? && a.startToClose.value > 0
                        then a.startToClose.value else DEFAULT_START_TO_CLOSE;
    ActivityTask(key, taskQueue, a.activityId, a.activityType, a.input, scheduledEventId, false, 1, now, None, None,
                 scheduleToStart, startToClose, initial, coefficient, maxInterval, maxAttempts, nonRetryable)
  }

  function EnqueueActivity(db: Db, key: RunKey, taskQueue: string, a: ActivityCommand, scheduledEventId: int, now: int): Db
  {
    db.(activityTasks := db.activityTasks[db.nextTaskId := ActivityRow(key, taskQueue, a, scheduledEventId, now)],
        nextTaskId := db.nextTaskId + 1)
  }

  /** One activity row per schedule command; command i is event first + i. */
  function EnqueueActivities(db: Db, key: RunKey, taskQueue: string, cmds: seq<Command>, first: int, now: int): Db
  {
    if cmds == [] then db
    else
      var n := |cmds| - 1;
      var db' := EnqueueActivities(db, key, taskQueue, cmds[..n], first, now);
      if cmds[n].ScheduleActivityTask?
      then EnqueueActivity(db', key, taskQueue, cmds[n].activity, first + n, now)
      else db'
  }

  /** One timer row per start-timer command; a pending row with the same id is a
      primary-key violation, which fails the transaction. */
  function InsertTimers(timers: map<TimerKey, Timer>, key: RunKey, cmds: seq<Command>, first: int, now: int): Option<map<TimerKey, Timer>>
  {
    if cmds == [] then Some(timers)
    else
      var n := |cmds| - 1;
      match InsertTimers(timers, key, cmds[..n], first, now)
      case None => None
      case Some(ts) =>
        if !cmds[n].StartTimer? then Some(ts)
        else
          var tk := TimerKey(key, cmds[n].timerId);
          if tk in ts then None else Some(ts[tk := Timer(now + cmds[n].duration, first + n)])
  }

  function CloseRun(db: Db, key: RunKey, status: Status, now: int): Db
  {
    if key !in db.runs then db
    else db.(runs := db.runs[key := db.runs[key].(status := status, closeTime := Some(now))])
  }

  /** continueWorkflowAsNew: the replacement run, with every unset field taken
      from the closing run. */
  function ContinueRun(db: Db, key: RunKey, run: Run, newRunId: Uuid, requestId: Uuid, k: Continuation, now: int): Db
  {
    CreateRun(db, RunKey(key.workflow, newRunId), Synthetic(requestId),
              StringOrFallback(k.workflowType, run.workflowType), StringOrFallback(k.taskQueue, run.taskQueue),
              k.input, k.retryPolicy, run.executionTimeout,
              DurationOrFallback(k.runTimeout, run.runTimeout), DurationOrFallback(k.taskTimeout, run.taskTimeout),
              Some(key.runId), now)
  }

  /** The checks on a response's commands, in the order they are made. */
  function Rejection(cmds: seq<Command>): Option<Error>
  {
    if Unsupported in cmds then Some(UnsupportedCommand)
    else if Count(cmds, Terminal) > 1 then Some(ManyTerminals)
    else if (exists c :: c in cmds && c.ContinueAsNewWorkflowExecution?) && Count(cmds, Scheduling) > 0
    then Some(MixedContinuation)
    else None
  }

  /** The run part of an accepted response: WorkflowTaskCompleted and one event per
      command, then the activity and timer rows. */
  function RecordCommands(db: Db, key: RunKey, cmds: seq<Command>, newRunId: Uuid, now: int): Option<Db>
    requires key in db.runs && Unsupported !in cmds
  {
    var run := db.runs[key];
    var db1 := Append(db, key, [WorkflowTaskCompleted] + EventsOf(cmds, run, newRunId), now);
    var db2 := EnqueueActivities(db1, key, run.taskQueue, cmds, run.nextEventId + 1, now);
    match InsertTimers(db2.timers, key, cmds, run.nextEventId + 1, now)
    case None => None
    case Some(ts) => Some(db2.(timers := ts))
  }

  /** Close the run with a terminal command; a continue-as-new also starts the
      replacement, with two fresh identifiers. */
  function CloseWith(db: Db, key: RunKey, run: Run, c: Command, newRunId: Uuid, now: int): Db
    requires Terminal(c)
  {
    var closed := CloseRun(db, key, StatusOf(c), now);
    if c.ContinueAsNewWorkflowExecution?
    then ContinueRun(closed.(nextUuid := newRunId + 2), key, run, newRunId, newRunId + 1, c.continuation, now)
    else closed
  }

  /** Register the worker's stickiness, or clear an earlier one. */
  function RegisterSticky(db: Db, key: RunKey, sticky: Option<Sticky>, now: int): Db
  {
    if sticky.Some? && sticky.value.worker != ""
    then SetSticky(db, key, Some(sticky.value.worker), Some(now + sticky.value.scheduleToStart))
    else SetSticky(db, key, None, None)
  }

  /** What follows the commands. */
  function Conclude(db: Db, key: RunKey, run: Run, cmds: seq<Command>, newRunId: Uuid, sticky: Option<Sticky>, now: int): Db
  {
    match TerminalOf(cmds)
    case Some(c) => CloseWith(db, key, run, c, newRunId, now)
    case None => RegisterSticky(db, key, sticky, now)
  }

  function CompleteWorkflowTask(db: Db, token: TaskToken, cmds: seq<Command>, sticky: Option<Sticky>, now: int): Tx<()>
  {
    if !HoldsWorkflowTask(db, token) then Rollback(LeaseExpired)
    else if token.key !in db.runs then Rollback(NotFound)
    else if Rejection(cmds).Some? then Rollback(Rejection(cmds).value)
    else
      var taken := db.(workflowTasks := db.workflowTasks - {token.taskId});
      match RecordCommands(taken, token.key, cmds, db.nextUuid, now)
      case None => Rollback(DuplicateTimer)
      case Some(db') => Commit(Conclude(db', token.key, db.runs[token.key], cmds, db.nextUuid, sticky, now), ())
  }

  // ------------------------------------------------------------- activity tasks

  predicate ActivityTaskVisible(t: ActivityTask, ns: int, taskQueue: string, now: int)
  {
    t.taskQueue == taskQueue && t.key.workflow.ns == ns && !t.started && t.visibleAt <= now
  }

  function DequeueActivityTask(db: Db, taskId: nat, ns: int, taskQueue: string, now: int): Tx<(TaskToken, ActivityTask)>
  {
    if taskId !in db.activityTasks || !ActivityTaskVisible(db.activityTasks[taskId], ns, taskQueue, now)
    then Rollback(NoTaskAvailable)
    else
      var t := db.activityTasks[taskId];
      var t' := t.(started := true, lease := Some(db.nextUuid), leaseExpiry := Some(now + t.startToClose));
      Commit(db.(activityTasks := db.activityTasks[taskId := t'], nextUuid := db.nextUuid + 1),
             (TaskToken(t.key, taskId, db.nextUuid), t'))
  }

  function RecordActivityTaskStarted(db: Db, key: RunKey, activityId: int, attempt: int, now: int): Tx<()>
  {
    if key !in db.runs then Rollback(NotFound)
    else Commit(Append(db, key, [ActivityTaskStarted(activityId, attempt)], now), ())
  }

  predicate HoldsActivityTask(db: Db, token: TaskToken)
  {
    token.taskId in db.activityTasks && db.activityTasks[token.taskId].lease == Some(token.lease)
  }

  function CompleteActivityTask(db: Db, token: TaskToken, result: Payload, now: int): Tx<()>
  {
    if !HoldsActivityTask(db, token) then Rollback(LeaseExpired)
    else if token.key !in db.runs then Rollback(NotFound)
    else
      var row := db.activityTasks[token.taskId];
      Commit(Wake(db.(activityTasks := db.activityTasks - {token.taskId}), token.key,
                  ActivityTaskCompleted(row.activityId, result), now), ())
  }

  predicate Retryable(row: ActivityTask, failure: Failure)
  {
    (row.maxAttempts == 0 || row.attempt < row.maxAttempts) && failure.kind !in row.nonRetryable
  }

  /** Put the row back in the queue for its next attempt. */
  function RetryActivityTask(db: Db, token: TaskToken, delay: int, now: int): Tx<()>
  {
    if !HoldsActivityTask(db, token) then Rollback(LeaseExpired)
    else
      var t := db.activityTasks[token.taskId];
      Commit(db.(activityTasks := db.activityTasks[token.taskId :=
                   t.(started := false, attempt := t.attempt + 1, visibleAt := now + delay, lease := None, leaseExpiry := None)]), ())
  }

  /** The terminal arm of FailActivityTask; `row` was read before the transaction. */
  function FailActivityTerminally(db: Db, token: TaskToken, row: ActivityTask, failure: Failure, now: int): Tx<()>
  {
    if !HoldsActivityTask(db, token) then Rollback(LeaseExpired)
    else if token.key !in db.runs then Rollback(NotFound)
    else
      Commit(Wake(db.(activityTasks := db.activityTasks - {token.taskId}), token.key,
                  ActivityTaskFailed(row.activityId, failure, row.attempt), now), ())
  }

  // ---------------------------------------------------------- background scans

  /** Every expired lease is taken back. */
  function ReapWorkflowTasks(db: Db, now: int): Db
  {
    db.(workflowTasks := map id | id in db.workflowTasks ::
          var t := db.workflowTasks[id];
          if t.started && t.leaseExpiry.Some? && t.leaseExpiry.value < now
          then t.(started := false, lease := None, leaseExpiry := None) else t)
  }

  function ReapActivityTasks(db: Db, now: int): Db
  {
    db.(activityTasks := map id | id in db.activityTasks ::
          var t := db.activityTasks[id];
          if t.started && t.leaseExpiry.Some? && t.leaseExpiry.value < now
          then t.(started := false, lease := None, leaseExpiry := None) else t)
  }

  /** Fire one due timer; SKIP LOCKED lets it be any of them. */
  function FireTimer(db: Db, tk: TimerKey, now: int): Tx<()>
  {
    if tk !in db.timers || db.timers[tk].fireAt > now then Rollback(NoTaskAvailable)
    else if tk.run !in db.runs then Rollback(NotFound)
    else Commit(Wake(db.(timers := db.timers - {tk}), tk.run, TimerFired(tk.timerId), now), ())
  }

  // ------------------------------------------------------------ outside requests

  function ResolveRun(db: Db, wk: WorkflowKey, runId: Option<Uuid>): Option<RunKey>
  {
    match runId
    case Some(id) => if RunKey(wk, id) in db.runs then Some(RunKey(wk, id)) else None
    case None =>
      if wk in db.currents && RunKey(wk, db.currents[wk].runId) in db.runs
      then Some(RunKey(wk, db.currents[wk].runId)) else None
  }

  function SignalWorkflow(db: Db, wk: WorkflowKey, runId: Option<Uuid>, name: string, input: Payload, now: int): Tx<()>
  {
    match ResolveRun(db, wk, runId)
    case None => Rollback(NotFound)
    case Some(key) => Commit(Wake(db, key, WorkflowExecutionSignaled(name, input), now), ())
  }

  function RequestCancel(db: Db, wk: WorkflowKey, runId: Option<Uuid>, reason: string, now: int): Tx<()>
  {
    match ResolveRun(db, wk, runId)
    case None => Rollback(NotFound)
    case Some(key) => Commit(Wake(db, key, WorkflowExecutionCancelRequested(reason), now), ())
  }

  function Terminate(db: Db, wk: WorkflowKey, runId: Option<Uuid>, reason: string, now: int): Tx<()>
  {
    match ResolveRun(db, wk, runId)
    case None => Rollback(NotFound)
    case Some(key) => Commit(CloseRun(Append(db, key, [WorkflowExecutionTerminated(reason)], now), key, TERMINATED, now), ())
  }
}
