/** The few ways in which a step can change the tables. */
module Effects {
  import opened Events
  import opened Store
  import opened Backoff
  import opened World

  datatype Effect =
    | Quiet
    | Requeued(key: RunKey, taskQueue: string, scheduledEventId: int, now: int)
    | Noted(key: RunKey, event: Attributes, now: int)
    | Closed(key: RunKey, reason: string, now: int)
    | Woken(key: RunKey, cause: Attributes, now: int, activities: set<nat>, timers: set<TimerKey>)
    | Created(wk: WorkflowKey, params: StartParams, now: int)
    | Responded(token: TaskToken, commands: seq<Command>, sticky: Option<Sticky>, now: int)

  ghost predicate SameWorkflowRow(a: WorkflowTask, b: WorkflowTask)
  {
    a.key == b.key && a.scheduledEventId == b.scheduledEventId
  }

  /** Leasing, reaping and retrying never touch what identifies an activity row. */
  ghost predicate SameActivityRow(a: ActivityTask, b: ActivityTask)
  {
    && a.key == b.key && a.activityId == b.activityId && a.activityType == b.activityType && a.input == b.input
    && a.scheduledEventId == b.scheduledEventId && a.maxAttempts == b.maxAttempts
  }

  ghost predicate SameRun(a: Run, b: Run)
  {
    b == a.(stickyWorker := b.stickyWorker, stickyExpires := b.stickyExpires)
  }

  /** Leases move, stickiness changes, workflow tasks may go; nothing else. */
  ghost predicate QuietChange(db: Db, db': Db)
  {
    && db'.currents == db.currents && db'.timers == db.timers && db'.nextTaskId == db.nextTaskId
    && db.nextUuid <= db'.nextUuid
    && db'.runs.Keys == db.runs.Keys && (forall k :: k in db.runs ==> SameRun(db.runs[k], db'.runs[k]))
    && db'.workflowTasks.Keys <= db.workflowTasks.Keys
    && (forall id :: id in db'.workflowTasks ==> SameWorkflowRow(db.workflowTasks[id], db'.workflowTasks[id]))
    && db'.activityTasks.Keys == db.activityTasks.Keys
    && (forall id :: id in db.activityTasks ==> SameActivityRow(db.activityTasks[id], db'.activityTasks[id]))
  }

  ghost predicate Changes(db: Db, db': Db, e: Effect)
  {
    match e
    case Quiet => QuietChange(db, db')
    case Requeued(key, queue, scheduled, now) => db' == EnqueueWorkflowTask(db, key, queue, scheduled, now, None, None)
    case Noted(key, event, now) => key in db.runs && db' == Append(db, key, [event], now)
    case Closed(key, reason, now) =>
      key in db.runs && db' == CloseRun(Append(db, key, [WorkflowExecutionTerminated(reason)], now), key, TERMINATED, now)
    case Woken(key, cause, now, acts, timers) =>
      key in db.runs &&
      db' == Wake(db.(activityTasks := db.activityTasks - acts, timers := db.timers - timers), key, cause, now)
    case Created(wk, p, now) =>
      StartWorkflow(db, wk, p, now).Commit? && db' == StartWorkflow(db, wk, p, now).db
    case Responded(token, cmds, sticky, now) =>
      CompleteWorkflowTask(db, token, cmds, sticky, now).Commit? &&
      db' == CompleteWorkflowTask(db, token, cmds, sticky, now).db
  }

  /** What a step amounts to in the state it is taken in. */
  ghost function EffectOf(w: World, s: Step): Effect
  {
    if Apply(w, s).db == w.db then Quiet
    else match s
      case Start(wk, params, now) => Created(wk, params, now)
      case RecordStarted(lease, now) =>
        if lease in w.tickets then Noted(w.tickets[lease].token.key, WorkflowTaskStarted, now) else Quiet
      case Complete(lease, cmds, sticky, now) =>
        if lease in w.tickets then Responded(w.tickets[lease].token, cmds, sticky, now) else Quiet
      case FailEnqueue(lease, now) =>
        if lease in w.failing && w.failing[lease].read.Some? then
          Requeued(w.failing[lease].token.key, w.failing[lease].read.value.taskQueue,
                   w.failing[lease].read.value.nextEventId - 1, now)
        else Quiet
      case RecordActivityStarted(lease, now) =>
        if lease in w.activityTickets then
          var t := w.activityTickets[lease];
          Noted(t.token.key, ActivityTaskStarted(t.row.activityId, t.row.attempt), now)
        else Quiet
      case CompleteActivity(lease, result, now) =>
        if lease in w.activityTickets && w.activityTickets[lease].token.taskId in w.db.activityTasks then
          var token := w.activityTickets[lease].token;
          Woken(token.key, ActivityTaskCompleted(w.db.activityTasks[token.taskId].activityId, result), now, {token.taskId}, {})
        else Quiet
      case FailActivity(lease, failure, _, now) =>
        if lease in w.activityTickets && lease in w.failReads && !Retryable(w.failReads[lease], failure) then
          var token, row := w.activityTickets[lease].token, w.failReads[lease];
          Woken(token.key, ActivityTaskFailed(row.activityId, failure, row.attempt), now, {token.taskId}, {})
        else Quiet
      case Fire(timer, now) => Woken(timer.run, TimerFired(timer.timerId), now, {}, {timer})
      case Signal(wk, runId, name, input, now) =>
        if ResolveRun(w.db, wk, runId).Some?
        then Woken(ResolveRun(w.db, wk, runId).value, WorkflowExecutionSignaled(name, input), now, {}, {}) else Quiet
      case Cancel(wk, runId, reason, now) =>
        if ResolveRun(w.db, wk, runId).Some?
        then Woken(ResolveRun(w.db, wk, runId).value, WorkflowExecutionCancelRequested(reason), now, {}, {}) else Quiet
      case Terminated(wk, runId, reason, now) =>
        if ResolveRun(w.db, wk, runId).Some? then Closed(ResolveRun(w.db, wk, runId).value, reason, now) else Quiet
      case _ => Quiet
  }

  lemma RemoveNothing<K, V>(m: map<K, V>)
    ensures m - {} == m
  {
  }

  lemma WorkflowRowQuiet(db: Db, id: nat, t: WorkflowTask, uuid: Uuid)
    requires id in db.workflowTasks && SameWorkflowRow(db.workflowTasks[id], t) && db.nextUuid <= uuid
    ensures QuietChange(db, db.(workflowTasks := db.workflowTasks[id := t], nextUuid := uuid))
  {
  }

  lemma ActivityRowQuiet(db: Db, id: nat, t: ActivityTask, uuid: Uuid)
    requires id in db.activityTasks && SameActivityRow(db.activityTasks[id], t) && db.nextUuid <= uuid
    ensures QuietChange(db, db.(activityTasks := db.activityTasks[id := t], nextUuid := uuid))
  {
  }

  lemma UnchangedEffect(w: World, s: Step)
    requires Apply(w, s).db == w.db
    ensures Changes(w.db, Apply(w, s).db, EffectOf(w, s))
  {
  }

  lemma LeaseEffect(w: World, s: Step)
    requires (s.Dequeue? || s.DequeueActivity?) && Apply(w, s).db != w.db
    ensures Changes(w.db, Apply(w, s).db, EffectOf(w, s))
  {
    hide QuietChange;
    var db := Apply(w, s).db;
    if s.Dequeue? {
      WorkflowRowQuiet(w.db, s.taskId, db.workflowTasks[s.taskId], db.nextUuid);
    } else {
      ActivityRowQuiet(w.db, s.taskId, db.activityTasks[s.taskId], db.nextUuid);
    }
  }

  lemma ReapQuiet(db: Db, now: int)
    ensures QuietChange(db, ReapWorkflowTasks(db, now))
  {
  }

  lemma ReapActivitiesQuiet(db: Db, now: int)
    ensures QuietChange(db, ReapActivityTasks(db, now))
  {
  }

  lemma ScanEffect(w: World, s: Step)
    requires (s.Reap? || s.ReapActivities?) && Apply(w, s).db != w.db
    ensures Changes(w.db, Apply(w, s).db, EffectOf(w, s))
  {
    hide QuietChange, ReapWorkflowTasks, ReapActivityTasks;
    ReapQuiet(w.db, s.now);
    ReapActivitiesQuiet(w.db, s.now);
  }

  lemma DeleteQuiet(db: Db, token: TaskToken)
    requires DeleteWorkflowTask(db, token).Commit?
    ensures QuietChange(db, DeleteWorkflowTask(db, token).db)
  {
  }

  lemma ClearQuiet(db: Db, key: RunKey)
    ensures QuietChange(db, SetSticky(db, key, None, None))
  {
  }

  lemma FailEffect(w: World, s: Step)
    requires (s.FailDelete? || s.FailRead? || s.FailClear? || s.FailEnqueue? || s.Drop?) && Apply(w, s).db != w.db
    ensures Changes(w.db, Apply(w, s).db, EffectOf(w, s))
  {
    hide QuietChange, DeleteWorkflowTask, SetSticky, EnqueueWorkflowTask;
    if s.FailDelete? && HasToken(w, s.lease) && DeleteWorkflowTask(w.db, w.tickets[s.lease].token).Commit? {
      DeleteQuiet(w.db, w.tickets[s.lease].token);
    }
    if s.FailClear? && s.lease in w.failing { ClearQuiet(w.db, w.failing[s.lease].token.key); }
  }

  lemma FailActivityEffect(w: World, s: Step)
    requires s.FailActivity? && Apply(w, s).db != w.db
    ensures Changes(w.db, Apply(w, s).db, EffectOf(w, s))
  {
    hide QuietChange;
    RemoveNothing(w.db.timers);
    var id := w.activityTickets[s.lease].token.taskId;
    var db := Apply(w, s).db;
    if Retryable(w.failReads[s.lease], s.failure) {
      ActivityRowQuiet(w.db, id, db.activityTasks[id], db.nextUuid);
    }
  }

  lemma WorkerEffect(w: World, s: Step)
    requires (s.RecordStarted? || s.Deliver? || s.Complete?) && Apply(w, s).db != w.db
    ensures Changes(w.db, Apply(w, s).db, EffectOf(w, s))
  {
    hide QuietChange, Append, CompleteWorkflowTask;
  }

  lemma ActivityEffect(w: World, s: Step)
    requires (s.RecordActivityStarted? || s.CompleteActivity? || s.ReadActivity?) && Apply(w, s).db != w.db
    ensures Changes(w.db, Apply(w, s).db, EffectOf(w, s))
  {
    hide QuietChange, Append, Wake;
    RemoveNothing(w.db.timers);
  }

  lemma OutsideEffect(w: World, s: Step)
    requires (s.Start? || s.Fire? || s.Signal? || s.Cancel? || s.Terminated?) && Apply(w, s).db != w.db
    ensures Changes(w.db, Apply(w, s).db, EffectOf(w, s))
  {
    hide QuietChange, Append, Wake, StartWorkflow;
    RemoveNothing(w.db.timers);
    RemoveNothing(w.db.activityTasks);
  }

  /** The effect of a step describes exactly what it does to the tables. */
  lemma StepEffect(w: World, s: Step)
    ensures Changes(w.db, Apply(w, s).db, EffectOf(w, s))
  {
    hide Apply, Changes, EffectOf;
    if Apply(w, s).db == w.db {
      UnchangedEffect(w, s);
    } else {
      match s {
        case Start(_, _, _) => OutsideEffect(w, s);
        case Dequeue(_, _, _, _, _) => LeaseEffect(w, s);
        case RecordStarted(_, _) => WorkerEffect(w, s);
        case Deliver(_) => WorkerEffect(w, s);
        case Complete(_, _, _, _) => WorkerEffect(w, s);
        case FailDelete(_) => FailEffect(w, s);
        case FailRead(_) => FailEffect(w, s);
        case FailClear(_) => FailEffect(w, s);
        case FailEnqueue(_, _) => FailEffect(w, s);
        case DequeueActivity(_, _, _, _) => LeaseEffect(w, s);
        case RecordActivityStarted(_, _) => ActivityEffect(w, s);
        case CompleteActivity(_, _, _) => ActivityEffect(w, s);
        case ReadActivity(_) => ActivityEffect(w, s);
        case FailActivity(_, _, _, _) => FailActivityEffect(w, s);
        case Drop(_) => FailEffect(w, s);
        case Reap(_) => ScanEffect(w, s);
        case ReapActivities(_) => ScanEffect(w, s);
        case Fire(_, _) => OutsideEffect(w, s);
        case Signal(_, _, _, _, _) => OutsideEffect(w, s);
        case Cancel(_, _, _, _) => OutsideEffect(w, s);
        case Terminated(_, _, _, _) => OutsideEffect(w, s);
      }
    }
  }

  /** The step leaves all calls in progress as they are. */
  ghost predicate SameBooks(w: World, w': World)
  {
    w' == w.(db := w'.db)
  }

  lemma TableSteps(w: World, s: Step)
    requires s.Start? || s.Reap? || s.ReapActivities? || s.Fire? || s.Signal? || s.Cancel? || s.Terminated?
    ensures SameBooks(w, Apply(w, s))
  {
    hide StartWorkflow, ReapWorkflowTasks, ReapActivityTasks, FireTimer, SignalWorkflow, RequestCancel, Terminate;
  }

  lemma DispatchSteps(w: World, s: Step)
    requires s.Dequeue? || s.RecordStarted? || s.Deliver? || s.DequeueActivity? || s.RecordActivityStarted?
    ensures s.Dequeue? || s.RecordStarted? || s.Deliver? ==> Apply(w, s) == w.(db := Apply(w, s).db, tickets := Apply(w, s).tickets)
    ensures s.DequeueActivity? || s.RecordActivityStarted? ==>
      Apply(w, s) == w.(db := Apply(w, s).db, activityTickets := Apply(w, s).activityTickets)
  {
    hide DequeueWorkflowTask, RecordWorkflowTaskStarted, DequeueActivityTask, RecordActivityTaskStarted, Fetch;
  }

  lemma ResponseSteps(w: World, s: Step)
    requires s.Complete? || s.CompleteActivity? || s.FailActivity? || s.ReadActivity?
    ensures s.ReadActivity? ==> Apply(w, s) == w.(failReads := Apply(w, s).failReads)
    ensures s.Complete? ==>
      Apply(w, s) == w.(db := Apply(w, s).db, accepted := Apply(w, s).accepted, consumed := Apply(w, s).consumed)
    ensures s.CompleteActivity? || s.FailActivity? ==> Apply(w, s) == w.(db := Apply(w, s).db, consumed := Apply(w, s).consumed)
  {
    hide CompleteWorkflowTask, CompleteActivityTask, RetryActivityTask, FailActivityTerminally, Delay, Retryable;
  }

  lemma FailSteps(w: World, s: Step)
    requires s.FailDelete? || s.FailRead? || s.FailClear? || s.FailEnqueue? || s.Drop?
    ensures s.FailDelete? ==> Apply(w, s) == w.(db := Apply(w, s).db, failing := Apply(w, s).failing, consumed := Apply(w, s).consumed)
    ensures !s.FailDelete? ==> Apply(w, s) == w.(db := Apply(w, s).db, failing := Apply(w, s).failing)
  {
    hide DeleteWorkflowTask, SetSticky, EnqueueWorkflowTask;
  }

  /** Which steps touch which of the calls in progress. */
  lemma BooksFrame(w: World, s: Step)
    ensures !(s.Dequeue? || s.RecordStarted? || s.Deliver?) ==> Apply(w, s).tickets == w.tickets
    ensures !(s.DequeueActivity? || s.RecordActivityStarted?) ==> Apply(w, s).activityTickets == w.activityTickets
    ensures !(s.FailDelete? || s.FailRead? || s.FailClear? || s.FailEnqueue? || s.Drop?) ==> Apply(w, s).failing == w.failing
    ensures !s.ReadActivity? ==> Apply(w, s).failReads == w.failReads
    ensures !s.Complete? ==> Apply(w, s).accepted == w.accepted
    ensures !(s.Complete? || s.FailDelete? || s.CompleteActivity? || s.FailActivity?) ==> Apply(w, s).consumed == w.consumed
  {
    hide Apply;
    if s.Start? || s.Reap? || s.ReapActivities? || s.Fire? || s.Signal? || s.Cancel? || s.Terminated? {
      TableSteps(w, s);
    } else if s.Dequeue? || s.RecordStarted? || s.Deliver? || s.DequeueActivity? || s.RecordActivityStarted? {
      DispatchSteps(w, s);
    } else if s.Complete? || s.CompleteActivity? || s.FailActivity? || s.ReadActivity? {
      ResponseSteps(w, s);
    } else {
      FailSteps(w, s);
    }
  }
}
